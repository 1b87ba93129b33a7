/** Blob writes over whole runs: which are in flight at any moment, and that no request number is used twice. */
module CheckpointWrites {
  import opened Common
  import opened CheckpointSync

  /** What an event does to the writes in flight: a dispatch adds one, an answer takes it away, and a checkpoint
      that fails or is discarded takes all. */
  function WritesAfter(before: map<nat, string>, event: Event): map<nat, string> {
    if event.Dispatched? then before[event.request := event.key]
    else if event.Confirmed? || event.Rejected? then before - {event.request}
    else if event.Discarded? || (event.Dropped? && !event.reason.CheckpointNotSent?) then map[]
    else before
  }

  function Outstanding(history: seq<Event>): map<nat, string> {
    if history == [] then map[]
    else WritesAfter(Outstanding(history[..|history| - 1]), history[|history| - 1])
  }

  function LastRequest(history: seq<Event>): nat {
    if history == [] then 0
    else if history[|history| - 1].Dispatched? then history[|history| - 1].request
    else LastRequest(history[..|history| - 1])
  }

  /** Every dispatch has a higher number than all before it. */
  predicate Numbered(history: seq<Event>) {
    history == []
    || (var front, last := history[..|history| - 1], history[|history| - 1];
        Numbered(front) && (last.Dispatched? ==> last.request > LastRequest(front)))
  }

  function KeysOf(inFlight: map<nat, Write>): map<nat, string> {
    map request | request in inFlight :: inFlight[request].key
  }

  /** The writes in flight are those the history tells, and the next number is new. */
  ghost predicate Told(history: seq<Event>, inFlight: map<nat, Write>, nextRequest: nat) {
    && KeysOf(inFlight) == Outstanding(history) && Numbered(history) && LastRequest(history) <= nextRequest
    && forall request :: request in inFlight ==> request <= nextRequest
  }

  ghost predicate WritesTold(s: State) { Told(s.history, s.inFlight, s.nextRequest) }

  lemma OneMore(history: seq<Event>, event: Event)
    ensures var after, before := history + [event], Outstanding(history);
            && Outstanding(after) == WritesAfter(before, event)
            && LastRequest(after) == (if event.Dispatched? then event.request else LastRequest(history))
            && Numbered(after) == (Numbered(history) && (event.Dispatched? ==> event.request > LastRequest(history)))
  {
    var after := history + [event];
    assert after[..|after| - 1] == history && after[|after| - 1] == event;
  }

  lemma RunsTellNothing(history: seq<Event>, terminal: TerminalAction)
    ensures var after := history + Runs(terminal);
            && Outstanding(after) == Outstanding(history) && LastRequest(after) == LastRequest(history)
            && Numbered(after) == Numbered(history)
  {
    if terminal.NoAction? {
      assert history + Runs(terminal) == history;
    } else {
      OneMore(history, Ran(terminal));
    }
  }

  /** The pending checkpoint is given up with all writes in flight. */
  lemma FailedTold(s: State, reason: Reason)
    requires s.pending.Some? && !reason.CheckpointNotSent?
    requires Numbered(s.history) && LastRequest(s.history) <= s.nextRequest
    ensures WritesTold(Failed(s, reason))
  {
    var dropped, terminal := Dropped(s.pending.value.generation, reason), s.pending.value.terminal;
    OneMore(s.history, dropped);
    RunsTellNothing(s.history + [dropped], terminal);
    assert s.history + Drops(s.pending, reason) == s.history + [dropped] + Runs(terminal);
  }

  lemma PublishReadyTold(s: State, sent: bool)
    requires WritesTold(s)
    ensures WritesTold(PublishReady(s, sent))
  {
    if Ready(s) {
      OneMore(s.history, Sends(s.pending.value, sent));
      RunsTellNothing(s.history + [Sends(s.pending.value, sent)], s.pending.value.terminal);
    }
  }

  lemma OneMoreWriteTold(history: seq<Event>, p: Plan, blob: Blob, confirmed: set<string>, generation: nat, q: Plan)
    requires Told(history + Dispatches(p.toWrite), p.inFlight, p.nextRequest)
    requires q == PlanBlob(p, blob, confirmed, generation)
    ensures Told(history + Dispatches(q.toWrite), q.inFlight, q.nextRequest)
    ensures p.toWrite <= q.toWrite
  {
    if q != p.(required := q.required) {
      DispatchedLast(history, p.toWrite, q.nextRequest, blob.id);
      OneMoreInFlight(history + Dispatches(p.toWrite), p.inFlight, p.nextRequest, Write(blob.id, generation));
    }
  }

  lemma DispatchedLast(history: seq<Event>, writes: seq<(nat, string)>, request: nat, key: string)
    ensures history + Dispatches(writes + [(request, key)])
         == history + Dispatches(writes) + [Dispatched(request, key)]
  {
    var more := writes + [(request, key)];
    assert more[..|more| - 1] == writes;
  }

  lemma OneMoreInFlight(history: seq<Event>, inFlight: map<nat, Write>, nextRequest: nat, write: Write)
    requires Told(history, inFlight, nextRequest)
    ensures var next := nextRequest + 1;
            Told(history + [Dispatched(next, write.key)], inFlight[next := write], next)
  {
    OneMore(history, Dispatched(nextRequest + 1, write.key));
    assert KeysOf(inFlight[nextRequest + 1 := write]) == KeysOf(inFlight)[nextRequest + 1 := write.key];
  }

  lemma {:induction false} PlanTold(history: seq<Event>, p: Plan, blobs: seq<Blob>, confirmed: set<string>,
                                    generation: nat)
    requires p.toWrite == [] && Told(history, p.inFlight, p.nextRequest)
    ensures var q := PlanBlobs(p, blobs, confirmed, generation);
            Told(history + Dispatches(q.toWrite), q.inFlight, q.nextRequest)
  {
    if blobs == [] {
      assert history + Dispatches([]) == history;
    } else {
      var front := blobs[..|blobs| - 1];
      PlanTold(history, p, front, confirmed, generation);
      OneMoreWriteTold(history, PlanBlobs(p, front, confirmed, generation), blobs[|blobs| - 1], confirmed, generation,
                       PlanBlobs(p, blobs, confirmed, generation));
    }
  }

  /** A refused send leaves the numbers that went out before it. */
  lemma {:induction false} SomeSent(history: seq<Event>, writes: seq<(nat, string)>, n: nat, nextRequest: nat)
    requires n <= |writes|
    requires var all := history + Dispatches(writes);
             Numbered(all) && LastRequest(all) <= nextRequest
    ensures var some := history + Dispatches(writes[..n]);
            Numbered(some) && LastRequest(some) <= nextRequest
    decreases |writes|
  {
    if n == |writes| {
      assert writes[..n] == writes;
    } else {
      var front, last := writes[..|writes| - 1], writes[|writes| - 1];
      OneMore(history + Dispatches(front), Dispatched(last.0, last.1));
      assert history + Dispatches(writes) == history + Dispatches(front) + [Dispatched(last.0, last.1)];
      SomeSent(history, front, n, nextRequest);
      assert front[..n] == writes[..n];
    }
  }

  lemma QueueTold(s: State, projection: Projection, terminal: TerminalAction, accepted: nat, sent: bool)
    requires WritesTold(s)
    ensures WritesTold(Queue(s, projection, terminal, accepted, sent))
  {
    var history, plan := s.history + [Queued(projection, terminal)], PlanFor(s, projection.blobs);
    OneMore(s.history, Queued(projection, terminal));
    PlanTold(history, Plan(s.nextRequest, s.inFlight, {}, []), projection.blobs, s.confirmed, s.generation + 1);
    var queued := Enqueued(s, projection, terminal);
    if accepted < |plan.toWrite| {
      SomeSent(history, plan.toWrite, accepted, plan.nextRequest);
      FailedTold(queued.(history := history + Dispatches(plan.toWrite[..accepted])), BlobNotSent);
    } else {
      PublishReadyTold(queued.(history := history + Dispatches(plan.toWrite)), sent);
    }
  }

  lemma ResultTold(s: State, request: nat, rejected: bool, sent: bool)
    requires WritesTold(s)
    ensures WritesTold(BlobResult(s, request, rejected, sent))
  {
    if request in s.inFlight {
      var t := Answered(s, request, rejected);
      OneMore(s.history, Answer(s, request, rejected));
      assert KeysOf(t.inFlight) == KeysOf(s.inFlight) - {request};
      if FatalRejection(s, request, rejected) { FailedTold(t, BlobRejected); } else { PublishReadyTold(t, sent); }
    }
  }

  lemma FireTold(s: State, fired: Timer, sent: bool)
    requires WritesTold(s)
    ensures WritesTold(TimerFired(s, fired, sent))
  {
    if fired in s.armed && fired.token == s.timer && s.pending.Some? {
      var t := s.(armed := s.armed - multiset{fired}, timer := s.timer + 1);
      if Ready(t) { PublishReadyTold(t, sent); } else { FailedTold(t, OutOfTime); }
    }
  }

  lemma NextKeepsWritesTold(s: State, step: Step)
    requires WritesTold(s)
    ensures WritesTold(Next(s, step))
  {
    match step
    case DoQueue(projection, terminal, accepted, sent) => QueueTold(s, projection, terminal, accepted, sent);
    case DoResult(request, rejected, sent) => ResultTold(s, request, rejected, sent);
    case DoFire(fired, sent) => FireTold(s, fired, sent);
    case DoDiscard => OneMore(s.history, Discarded);
    case DoResetTimers =>
  }

  /** In every run exactly those writes are in flight that were dispatched and neither answered nor dropped with a
      checkpoint that failed or was discarded; and no request number is used twice. */
  lemma {:induction false} RunKeepsWritesTold(s: State, steps: seq<Step>)
    requires WritesTold(s)
    ensures WritesTold(Run(s, steps))
    decreases |steps|
  {
    if steps != [] {
      NextKeepsWritesTold(s, steps[0]);
      RunKeepsWritesTold(Next(s, steps[0]), steps[1..]);
    }
  }

  lemma EveryRunTellsWrites(steps: seq<Step>)
    ensures WritesTold(Run(Initial, steps))
  {
    RunKeepsWritesTold(Initial, steps);
  }
}
