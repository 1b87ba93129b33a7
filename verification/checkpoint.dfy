/** Checkpoint synchronisation: the content blobs of a projection are sent to the client, and the
    checkpoint itself is published once every blob it needs has been confirmed. */
module CheckpointSync {
  import opened Common

  datatype TerminalAction = NoAction | Complete(completion: string) | Fail(code: string, message: string)

  datatype Blob = Blob(id: string, data: string)

  datatype Projection = Projection(state: string, blobs: seq<Blob>)

  datatype Write = Write(key: string, generation: nat)

  datatype Pending = Pending(generation: nat, required: set<string>, state: string, terminal: TerminalAction)

  /** Why a pending checkpoint is given up: the broker refuses a blob or the checkpoint itself, the client
      rejects a blob it needs, or its time is up. */
  datatype Reason = BlobNotSent | CheckpointNotSent | BlobRejected | OutOfTime

  /** What happened, in order: requests made of this component and what it did in answer. */
  datatype Event =
    | Queued(projection: Projection, terminal: TerminalAction)
    | Dispatched(request: nat, key: string)
    | Confirmed(request: nat, key: string)
    | Rejected(request: nat, key: string)
    | Published(generation: nat, required: set<string>, state: string)
    | Dropped(generation: nat, reason: Reason)
    | Ran(terminal: TerminalAction)
    | Discarded

  /** A timer carries the token it was given; `generation` is the checkpoint it was armed for. */
  datatype Timer = Timer(token: nat, generation: nat)

  /** `timer` is the current token of the checkpoint timer; `armed` are the timers still to fire. */
  datatype State = State(
    generation: nat, nextRequest: nat, inFlight: map<nat, Write>, confirmed: set<string>,
    pending: Option<Pending>, checkpointing: bool, timer: nat, armed: multiset<Timer>, history: seq<Event>)

  const Initial := State(0, 0, map[], {}, None, false, 0, multiset{}, [])

  function Keys(inFlight: map<nat, Write>): set<string> {
    set request | request in inFlight :: inFlight[request].key
  }

  lemma KeysAdd(inFlight: map<nat, Write>, request: nat, write: Write)
    requires request !in inFlight
    ensures Keys(inFlight[request := write]) == Keys(inFlight) + {write.key}
  {
    var after := inFlight[request := write];
    forall key | key in Keys(inFlight) + {write.key} ensures key in Keys(after) {
      if key in Keys(inFlight) {
        var r :| r in inFlight && inFlight[r].key == key;
        assert after[r].key == key;
      } else {
        assert after[request].key == key;
      }
    }
  }

  // ---------------------------------------------------------------- what each operation does

  /** The plan a projection's blobs produce: which keys it needs and which writes are new. */
  datatype Plan = Plan(nextRequest: nat, inFlight: map<nat, Write>, required: set<string>, toWrite: seq<(nat, string)>)

  function PlanBlob(p: Plan, blob: Blob, confirmed: set<string>, generation: nat): Plan {
    if blob.id == "" then p
    else if blob.id in confirmed || blob.id in Keys(p.inFlight) then p.(required := p.required + {blob.id})
    else
      var request := p.nextRequest + 1;
      Plan(request, p.inFlight[request := Write(blob.id, generation)], p.required + {blob.id},
           p.toWrite + [(request, blob.id)])
  }

  function PlanBlobs(p: Plan, blobs: seq<Blob>, confirmed: set<string>, generation: nat): Plan {
    if blobs == [] then p
    else PlanBlob(PlanBlobs(p, blobs[..|blobs| - 1], confirmed, generation), blobs[|blobs| - 1], confirmed, generation)
  }

  function PlanFor(s: State, blobs: seq<Blob>): Plan {
    PlanBlobs(Plan(s.nextRequest, s.inFlight, {}, []), blobs, s.confirmed, s.generation + 1)
  }

  function Dispatches(writes: seq<(nat, string)>): seq<Event> {
    if writes == [] then []
    else Dispatches(writes[..|writes| - 1]) + [Dispatched(writes[|writes| - 1].0, writes[|writes| - 1].1)]
  }

  function Runs(terminal: TerminalAction): seq<Event> {
    if terminal.NoAction? then [] else [Ran(terminal)]
  }

  predicate Ready(s: State) {
    s.pending.Some? && s.pending.value.required <= s.confirmed
  }

  /** What giving the pending checkpoint up adds to the history. */
  function Drops(p: Option<Pending>, reason: Reason): seq<Event> {
    if p.None? then [] else [Dropped(p.value.generation, reason)] + Runs(p.value.terminal)
  }

  /** finishAfterCheckpointSyncFailure */
  function Failed(s: State, reason: Reason): State {
    s.(pending := None, inFlight := map[], timer := s.timer + 1, history := s.history + Drops(s.pending, reason))
  }

  /** What sending a ready checkpoint adds to the history. */
  function Sends(p: Pending, sent: bool): Event {
    if sent then Published(p.generation, p.required, p.state) else Dropped(p.generation, CheckpointNotSent)
  }

  /** publishReadyCheckpoint; `sent` tells whether the broker took the checkpoint message. */
  function PublishReady(s: State, sent: bool): State {
    if !Ready(s) then s
    else
      var p := s.pending.value;
      s.(pending := None, timer := s.timer + 1, history := s.history + [Sends(p, sent)] + Runs(p.terminal))
  }

  function Armed(s: State): State {
    s.(timer := s.timer + 1, armed := s.armed + multiset{Timer(s.timer + 1, s.generation)})
  }

  function Inherited(s: State, terminal: TerminalAction): TerminalAction {
    if terminal.NoAction? && s.pending.Some? then s.pending.value.terminal else terminal
  }

  /** The locked half of queueCheckpointProjectionWithTerminal. */
  function Enqueued(s: State, projection: Projection, terminal: TerminalAction): State {
    var generation := s.generation + 1;
    var effective := Inherited(s, terminal);
    var plan := PlanFor(s, projection.blobs);
    s.(generation := generation, nextRequest := plan.nextRequest, inFlight := plan.inFlight,
       pending := Some(Pending(generation, plan.required, projection.state, effective)),
       checkpointing := s.checkpointing || !effective.NoAction?,
       history := s.history + [Queued(projection, terminal)])
  }

  /** The whole call; the broker accepts the first `accepted` blob messages. */
  function Queue(s: State, projection: Projection, terminal: TerminalAction, accepted: nat, sent: bool): State {
    var writes := PlanFor(s, projection.blobs).toWrite;
    var queued := Enqueued(s, projection, terminal);
    if accepted < |writes| then
      Failed(queued.(history := queued.history + Dispatches(writes[..accepted])), BlobNotSent)
    else
      var dispatched := queued.(history := queued.history + Dispatches(writes));
      if Ready(dispatched) then PublishReady(dispatched, sent) else Armed(dispatched)
  }

  function Answer(s: State, request: nat, rejected: bool): Event
    requires request in s.inFlight
  {
    if rejected then Rejected(request, s.inFlight[request].key) else Confirmed(request, s.inFlight[request].key)
  }

  /** The locked half of handleCheckpointBlobResult. */
  function Answered(s: State, request: nat, rejected: bool): State
    requires request in s.inFlight
  {
    s.(inFlight := s.inFlight - {request},
       confirmed := if rejected then s.confirmed else s.confirmed + {s.inFlight[request].key},
       history := s.history + [Answer(s, request, rejected)])
  }

  predicate FatalRejection(s: State, request: nat, rejected: bool)
    requires request in s.inFlight
  {
    rejected && s.pending.Some? && s.inFlight[request].key in s.pending.value.required
  }

  /** handleCheckpointBlobResult */
  function BlobResult(s: State, request: nat, rejected: bool, sent: bool): State {
    if request !in s.inFlight then s
    else if FatalRejection(s, request, rejected) then Failed(Answered(s, request, rejected), BlobRejected)
    else PublishReady(Answered(s, request, rejected), sent)
  }

  /** handleCheckpointBlobTimeout */
  function TimedOut(s: State, sent: bool): State {
    if s.pending.None? then s else if Ready(s) then PublishReady(s, sent) else Failed(s, OutOfTime)
  }

  /** handleTimerEvent for this timer: only the current token acts, and it is used up first. */
  function TimerFired(s: State, fired: Timer, sent: bool): State {
    if fired !in s.armed then s
    else
      var t := s.(armed := s.armed - multiset{fired});
      if fired.token != s.timer then t else TimedOut(t.(timer := s.timer + 1), sent)
  }

  /** discardPendingCheckpoint */
  function Discard(s: State): State {
    s.(pending := None, inFlight := map[], timer := s.timer + 1, history := s.history + [Discarded])
  }

  /** A new run empties the table of timer tokens; timers already armed still fire. */
  function TimersReset(s: State): State {
    s.(timer := 0)
  }

  // ---------------------------------------------------------------- the object

  class Stream {
    var generation: nat
    var nextRequest: nat
    var inFlight: map<nat, Write>
    var confirmed: set<string>
    var pending: Option<Pending>
    var checkpointing: bool
    var timer: nat
    ghost var armed: multiset<Timer>
    ghost var history: seq<Event>

    ghost function View(): State
      reads this
    {
      State(generation, nextRequest, inFlight, confirmed, pending, checkpointing, timer, armed, history)
    }

    /** Request ids are handed out in increasing order. */
    ghost predicate Valid()
      reads this
    {
      forall request :: request in inFlight ==> request <= nextRequest
    }

    constructor ()
      ensures Valid() && View() == Initial
    {
      generation, nextRequest, inFlight, confirmed := 0, 0, map[], {};
      pending, checkpointing, timer, armed, history := None, false, 0, multiset{}, [];
    }

    method FinishTerminalAction(terminal: TerminalAction)
      modifies this`history
      ensures history == old(history) + Runs(terminal)
    {
      if !terminal.NoAction? { history := history + [Ran(terminal)]; }
    }

    method FinishAfterSyncFailure(ghost reason: Reason)
      modifies this
      ensures Valid() && View() == Failed(old(View()), reason)
    {
      var was := pending;
      pending, inFlight, timer := None, map[], timer + 1;
      if was.Some? {
        history := history + [Dropped(was.value.generation, reason)];
        FinishTerminalAction(was.value.terminal);
        assert history == old(history) + Drops(was, reason);
      }
    }

    method ProjectionReady() returns (ready: bool)
      ensures ready == Ready(View())
    {
      if pending.None? { return false; }
      var todo := pending.value.required;
      while todo != {}
        invariant todo <= pending.value.required
        invariant pending.value.required - todo <= confirmed
        decreases todo
      {
        var key :| key in todo;
        if key !in confirmed { return false; }
        todo := todo - {key};
      }
      ready := true;
    }

    method PublishReadyCheckpoint(sent: bool)
      requires Valid()
      modifies this
      ensures Valid() && View() == PublishReady(old(View()), sent)
    {
      var ready := ProjectionReady();
      if !ready { return; }
      var p := pending.value;
      pending, timer := None, timer + 1;
      if sent {
        history := history + [Published(p.generation, p.required, p.state)];
      } else {
        history := history + [Dropped(p.generation, CheckpointNotSent)];
      }
      FinishTerminalAction(p.terminal);
    }

    method PendingKeys() returns (keys: set<string>)
      ensures keys == Keys(inFlight)
    {
      keys := {};
      var todo := inFlight.Keys;
      while todo != {}
        invariant todo <= inFlight.Keys
        invariant keys == set request | request in inFlight.Keys - todo :: inFlight[request].key
        decreases todo
      {
        var request :| request in todo;
        keys := keys + {inFlight[request].key};
        todo := todo - {request};
      }
    }

    /** Adds a write for every blob that is neither confirmed nor in flight. */
    method RegisterBlobs(blobs: seq<Blob>) returns (required: set<string>, toWrite: seq<(nat, string)>)
      requires Valid()
      modifies this`inFlight, this`nextRequest
      ensures Valid()
      ensures Plan(nextRequest, inFlight, required, toWrite) ==
              PlanBlobs(Plan(old(nextRequest), old(inFlight), {}, []), blobs, confirmed, generation)
    {
      ghost var start := Plan(nextRequest, inFlight, {}, []);
      var pendingKeys := PendingKeys();
      required, toWrite := {}, [];
      var i := 0;
      while i < |blobs|
        invariant i <= |blobs|
        invariant Plan(nextRequest, inFlight, required, toWrite) == PlanBlobs(start, blobs[..i], confirmed, generation)
        invariant pendingKeys == Keys(inFlight)
        invariant Valid()
      {
        var blob := blobs[i];
        assert blobs[..i + 1][..i] == blobs[..i];
        i := i + 1;
        if blob.id == "" { continue; }
        required := required + {blob.id};
        if blob.id in confirmed || blob.id in pendingKeys { continue; }
        nextRequest := nextRequest + 1;
        KeysAdd(inFlight, nextRequest, Write(blob.id, generation));
        inFlight := inFlight[nextRequest := Write(blob.id, generation)];
        pendingKeys := pendingKeys + {blob.id};
        toWrite := toWrite + [(nextRequest, blob.id)];
      }
      assert blobs[..i] == blobs;
    }

    /** Registers the writes a projection needs and makes it the pending one. */
    method Enqueue(projection: Projection, terminal: TerminalAction) returns (toWrite: seq<(nat, string)>)
      requires Valid()
      modifies this
      ensures Valid() && View() == Enqueued(old(View()), projection, terminal)
      ensures toWrite == PlanFor(old(View()), projection.blobs).toWrite
    {
      generation := generation + 1;
      var effective := terminal;
      if terminal.NoAction? && pending.Some? { effective := pending.value.terminal; }
      var required;
      required, toWrite := RegisterBlobs(projection.blobs);
      pending := Some(Pending(generation, required, projection.state, effective));
      if !effective.NoAction? { checkpointing := true; }
      history := history + [Queued(projection, terminal)];
    }

    /** Sends the new writes until the broker refuses one. */
    method Dispatch(toWrite: seq<(nat, string)>, accepted: nat) returns (ok: bool)
      modifies this`history
      ensures ok == (accepted >= |toWrite|)
      ensures history == old(history) + Dispatches(if ok then toWrite else toWrite[..accepted])
    {
      var i := 0;
      while i < |toWrite|
        invariant i <= |toWrite| && i <= accepted
        invariant history == old(history) + Dispatches(toWrite[..i])
      {
        if i == accepted { return false; }
        assert toWrite[..i + 1][..i] == toWrite[..i];
        history := history + [Dispatched(toWrite[i].0, toWrite[i].1)];
        i := i + 1;
      }
      assert toWrite[..i] == toWrite;
      ok := true;
    }

    /** queueCheckpointProjectionWithTerminal; the broker accepts the first `accepted` blob messages. */
    method QueueProjection(projection: Projection, terminal: TerminalAction, accepted: nat, sent: bool)
      requires Valid()
      modifies this
      ensures Valid() && View() == Queue(old(View()), projection, terminal, accepted, sent)
    {
      var toWrite := Enqueue(projection, terminal);
      var ok := Dispatch(toWrite, accepted);
      if !ok {
        FinishAfterSyncFailure(BlobNotSent);
        return;
      }
      var ready := ProjectionReady();
      if ready {
        PublishReadyCheckpoint(sent);
      } else {
        timer := timer + 1;
        armed := armed + multiset{Timer(timer, generation)};
      }
    }

    method HandleBlobResult(request: nat, rejected: bool, sent: bool)
      requires Valid()
      modifies this
      ensures Valid() && View() == BlobResult(old(View()), request, rejected, sent)
    {
      if request !in inFlight { return; }
      var write := inFlight[request];
      inFlight := inFlight - {request};
      var required := pending.Some? && write.key in pending.value.required;
      if !rejected { confirmed := confirmed + {write.key}; }
      history := history + [if rejected then Rejected(request, write.key) else Confirmed(request, write.key)];
      if rejected && required {
        FinishAfterSyncFailure(BlobRejected);
        return;
      }
      var ready := ProjectionReady();
      if ready { PublishReadyCheckpoint(sent); }
    }

    method HandleTimeout(sent: bool)
      requires Valid()
      modifies this
      ensures Valid() && View() == TimedOut(old(View()), sent)
    {
      if pending.None? { return; }
      var missing := 0;
      var todo := pending.value.required;
      while todo != {}
        invariant todo <= pending.value.required
        invariant missing >= 0 && (missing == 0 <==> pending.value.required - todo <= confirmed)
        decreases todo
      {
        var key :| key in todo;
        if key !in confirmed { missing := missing + 1; }
        todo := todo - {key};
      }
      if missing == 0 {
        PublishReadyCheckpoint(sent);
      } else {
        FinishAfterSyncFailure(OutOfTime);
      }
    }

    method HandleTimer(fired: Timer, sent: bool)
      requires Valid() && fired in armed
      modifies this
      ensures Valid() && View() == TimerFired(old(View()), fired, sent)
    {
      ghost var was := View();
      armed := armed - multiset{fired};
      if timer != fired.token { return; }
      timer := timer + 1;
      assert View() == was.(armed := was.armed - multiset{fired}).(timer := was.timer + 1);
      HandleTimeout(sent);
    }

    method DiscardPending()
      modifies this
      ensures Valid() && View() == Discard(old(View()))
    {
      pending, inFlight, timer := None, map[], timer + 1;
      history := history + [Discarded];
    }
  }

  // ---------------------------------------------------------------- what every run keeps

  /** The terminal action still to be run after a history: the last one queued, unless it was run
      or discarded.  Queueing without one leaves it as it was. */
  function Owed(history: seq<Event>): TerminalAction {
    if history == [] then NoAction else OwedAfter(Owed(history[..|history| - 1]), history[|history| - 1])
  }

  function OwedAfter(owed: TerminalAction, event: Event): TerminalAction {
    match event
    case Queued(_, terminal) => if terminal.NoAction? then owed else terminal
    case Ran(_) => NoAction
    case Discarded => NoAction
    case _ => owed
  }

  /** Whether a terminal action was owed at any queueing so far. */
  function WasOwed(history: seq<Event>): bool {
    history != [] && (WasOwed(history[..|history| - 1])
                      || (history[|history| - 1].Queued? && !Owed(history).NoAction?))
  }

  function Ids(blobs: seq<Blob>): set<string> { set blob | blob in blobs && blob.id != "" :: blob.id }

  function Needs(projection: Projection): set<string> { Ids(projection.blobs) }

  /** How many projections were queued; this numbers them. */
  function QueuedCount(history: seq<Event>): nat {
    if history == [] then 0
    else QueuedCount(history[..|history| - 1]) + if history[|history| - 1].Queued? then 1 else 0
  }

  datatype Awaited = Awaited(generation: nat, required: set<string>, state: string)

  /** The checkpoint still to be published after a history: the last one queued, unless it was published,
      dropped or discarded since. */
  function Awaiting(history: seq<Event>): Option<Awaited> {
    if history == [] then None
    else
      match history[|history| - 1]
      case Queued(projection, _) => Some(Awaited(QueuedCount(history), Needs(projection), projection.state))
      case Published(_, _, _) => None
      case Dropped(_, _) => None
      case Discarded => None
      case _ => Awaiting(history[..|history| - 1])
  }

  ghost predicate ConfirmedIn(history: seq<Event>, key: string) {
    exists request :: Confirmed(request, key) in history
  }

  /** An event is justified by the events before it. */
  ghost predicate Justified(before: seq<Event>, event: Event) {
    match event
    case Confirmed(request, key) => Dispatched(request, key) in before
    case Published(generation, required, state) =>
      && Awaiting(before) == Some(Awaited(generation, required, state))
      && forall key :: key in required ==> ConfirmedIn(before, key)
    case Dropped(generation, _) => Awaiting(before).Some? && Awaiting(before).value.generation == generation
    case Ran(terminal) => !terminal.NoAction? && Owed(before) == terminal
    case _ => true
  }

  ghost predicate Sound(history: seq<Event>) {
    history == [] || (Sound(history[..|history| - 1]) && Justified(history[..|history| - 1], history[|history| - 1]))
  }

  /** Nothing is published or run too early, at any point of a sound history. */
  lemma {:induction false} SoundAt(history: seq<Event>, i: nat)
    requires Sound(history) && i < |history|
    ensures Justified(history[..i], history[i])
  {
    var front := history[..|history| - 1];
    if i < |front| {
      SoundAt(front, i);
      assert front[..i] == history[..i];
    }
  }

  lemma Extend(history: seq<Event>, event: Event)
    requires Sound(history) && Justified(history, event)
    ensures Sound(history + [event])
    ensures Owed(history + [event]) == OwedAfter(Owed(history), event)
    ensures QueuedCount(history + [event]) == QueuedCount(history) + if event.Queued? then 1 else 0
    ensures WasOwed(history + [event])
        == (WasOwed(history) || (event.Queued? && !OwedAfter(Owed(history), event).NoAction?))
    ensures Awaiting(history + [event])
        == match event
           case Queued(projection, _) => Some(Awaited(QueuedCount(history) + 1, Needs(projection), projection.state))
           case Published(_, _, _) => None
           case Dropped(_, _) => None
           case Discarded => None
           case _ => Awaiting(history)
  {
    var after := history + [event];
    assert after[..|after| - 1] == history && after[|after| - 1] == event;
  }

  /** Nothing was queued, published, dropped, run or discarded. */
  predicate SameAccounts(before: seq<Event>, after: seq<Event>) {
    && Owed(after) == Owed(before) && WasOwed(after) == WasOwed(before)
    && QueuedCount(after) == QueuedCount(before) && Awaiting(after) == Awaiting(before)
  }

  lemma {:induction false} ExtendDispatches(history: seq<Event>, writes: seq<(nat, string)>)
    requires Sound(history)
    ensures Sound(history + Dispatches(writes))
    ensures SameAccounts(history, history + Dispatches(writes))
    ensures forall w :: w in writes ==> Dispatched(w.0, w.1) in Dispatches(writes)
  {
    if writes == [] {
      assert history + Dispatches(writes) == history;
    } else {
      var front, last := writes[..|writes| - 1], writes[|writes| - 1];
      ExtendDispatches(history, front);
      var sent := history + Dispatches(front);
      Extend(sent, Dispatched(last.0, last.1));
      assert history + Dispatches(writes) == sent + [Dispatched(last.0, last.1)];
      forall w | w in writes ensures Dispatched(w.0, w.1) in Dispatches(writes) {
        if w in front { assert Dispatched(w.0, w.1) in Dispatches(front); }
      }
    }
  }

  lemma ExtendRuns(history: seq<Event>, terminal: TerminalAction)
    requires Sound(history) && Owed(history) == terminal
    ensures Sound(history + Runs(terminal)) && Owed(history + Runs(terminal)) == NoAction
    ensures WasOwed(history + Runs(terminal)) == WasOwed(history)
    ensures QueuedCount(history + Runs(terminal)) == QueuedCount(history)
    ensures Awaiting(history + Runs(terminal)) == Awaiting(history)
  {
    if terminal.NoAction? {
      assert history + Runs(terminal) == history;
    } else {
      Extend(history, Ran(terminal));
    }
  }

  /** Every write in flight was dispatched, is the only one for its key, and its key is not confirmed. */
  ghost predicate WritesOk(s: State) {
    && (forall r :: r in s.inFlight ==> r <= s.nextRequest && s.inFlight[r].key !in s.confirmed
                                        && Dispatched(r, s.inFlight[r].key) in s.history)
    && OneWritePerKey(s.inFlight)
  }

  ghost predicate OneWritePerKey(inFlight: map<nat, Write>) {
    forall r, r' :: r in inFlight && r' in inFlight && inFlight[r].key == inFlight[r'].key ==> r == r'
  }

  /** The history is sound and tells the confirmed keys, how many projections were queued, which one is
      pending, and which terminal action is owed. */
  ghost predicate Accounted(s: State) {
    && (forall key :: key in s.confirmed <==> ConfirmedIn(s.history, key))
    && Sound(s.history)
    && Owed(s.history) == (if s.pending.Some? then s.pending.value.terminal else NoAction)
    && WasOwed(s.history) == s.checkpointing
    && QueuedCount(s.history) == s.generation
    && Awaiting(s.history) == AwaitedOf(s.pending)
  }

  function AwaitedOf(p: Option<Pending>): Option<Awaited> {
    if p.None? then None else Some(Awaited(p.value.generation, p.value.required, p.value.state))
  }

  ghost predicate NeedsCovered(s: State) {
    s.pending.Some? ==> s.pending.value.required <= s.confirmed + Keys(s.inFlight)
  }

  /** No timer was armed for a checkpoint that is still to come. */
  ghost predicate ArmedOk(s: State) {
    && (forall t :: t in s.armed ==> t.token > 0 && t.generation <= s.generation)
    && (s.pending.Some? ==> s.pending.value.generation == s.generation)
  }

  /** Between two commands: a pending checkpoint waits for at least one write in flight and has nothing
      else missing. */
  ghost predicate Inv(s: State) {
    && WritesOk(s) && Accounted(s) && NeedsCovered(s) && ArmedOk(s)
    && !Ready(s)
  }

  /** What a plan adds: a write for each needed key that has none and is not confirmed, and no other. */
  ghost predicate PlanOk(s: State, blobs: seq<Blob>, p: Plan) {
    p.required == Ids(blobs) && AddsMissing(s, p)
  }

  ghost predicate AddsMissing(s: State, p: Plan) {
    && p.required <= s.confirmed + Keys(p.inFlight)
    && s.nextRequest <= p.nextRequest
    && (forall r :: r in s.inFlight ==> r in p.inFlight && p.inFlight[r] == s.inFlight[r])
    && (forall r :: r in p.inFlight && r !in s.inFlight ==>
          s.nextRequest < r <= p.nextRequest && (r, p.inFlight[r].key) in p.toWrite
          && p.inFlight[r].key !in s.confirmed)
    && (forall w :: w in p.toWrite ==> w.1 in p.required && w.1 !in Keys(s.inFlight) && w.1 !in s.confirmed)
    && OneWritePerKey(p.inFlight)
  }

  lemma OldRequestsAreSmall(s: State, p: Plan)
    requires (forall r :: r in s.inFlight ==> r <= s.nextRequest) && AddsMissing(s, p)
    ensures forall r :: r in p.inFlight ==> r <= p.nextRequest
    ensures Keys(s.inFlight) <= Keys(p.inFlight)
  {
    forall key | key in Keys(s.inFlight) ensures key in Keys(p.inFlight) {
      var r :| r in s.inFlight && s.inFlight[r].key == key;
      assert p.inFlight[r].key == key;
    }
  }

  lemma AddWriteOk(s: State, p: Plan, key: string, generation: nat, q: Plan)
    requires (forall r :: r in s.inFlight ==> r <= s.nextRequest) && AddsMissing(s, p)
    requires key !in s.confirmed && key !in Keys(p.inFlight)
    requires q == Plan(p.nextRequest + 1, p.inFlight[p.nextRequest + 1 := Write(key, generation)], p.required + {key},
                       p.toWrite + [(p.nextRequest + 1, key)])
    ensures AddsMissing(s, q)
  {
    OldRequestsAreSmall(s, p);
    KeysAdd(p.inFlight, q.nextRequest, Write(key, generation));
  }

  lemma {:induction false} PlanAddsMissingWrites(s: State, blobs: seq<Blob>, generation: nat)
    requires (forall r :: r in s.inFlight ==> r <= s.nextRequest) && OneWritePerKey(s.inFlight)
    ensures PlanOk(s, blobs, PlanBlobs(Plan(s.nextRequest, s.inFlight, {}, []), blobs, s.confirmed, generation))
  {
    var start := Plan(s.nextRequest, s.inFlight, {}, []);
    if blobs != [] {
      var front, blob := blobs[..|blobs| - 1], blobs[|blobs| - 1];
      PlanAddsMissingWrites(s, front, generation);
      var p := PlanBlobs(start, front, s.confirmed, generation);
      assert forall b :: b in blobs <==> b in front || b == blob;
      if blob.id != "" && blob.id !in s.confirmed && blob.id !in Keys(p.inFlight) {
        AddWriteOk(s, p, blob.id, generation, PlanBlob(p, blob, s.confirmed, generation));
      }
    }
  }

  lemma FailedKeepsInv(s: State, reason: Reason)
    requires Accounted(s) && ArmedOk(s)
    ensures Inv(Failed(s, reason)) && Failed(s, reason).pending.None?
  {
    if s.pending.Some? {
      var dropped := Dropped(s.pending.value.generation, reason);
      EndedHistory(s.history, dropped, s.pending.value.terminal);
      assert s.history + Drops(s.pending, reason) == s.history + [dropped] + Runs(s.pending.value.terminal);
      SameConfirmed(s.history, Drops(s.pending, reason));
    } else {
      assert s.history + [] == s.history;
    }
  }

  /** What is no confirmation confirms nothing. */
  lemma SameConfirmed(history: seq<Event>, more: seq<Event>)
    requires forall event :: event in more ==> !event.Confirmed?
    ensures forall key :: ConfirmedIn(history + more, key) <==> ConfirmedIn(history, key)
  {
    forall key ensures ConfirmedIn(history + more, key) <==> ConfirmedIn(history, key) {
      forall request ensures Confirmed(request, key) in history + more <==> Confirmed(request, key) in history {}
    }
  }

  /** The pending checkpoint ends, and then its terminal action runs. */
  lemma EndedHistory(history: seq<Event>, event: Event, terminal: TerminalAction)
    requires Sound(history) && Justified(history, event) && (event.Published? || event.Dropped?)
    requires Owed(history) == terminal
    ensures var after := history + [event] + Runs(terminal);
            && Sound(after) && Owed(after) == NoAction && Awaiting(after) == None
            && WasOwed(after) == WasOwed(history) && QueuedCount(after) == QueuedCount(history)
  {
    Extend(history, event);
    ExtendRuns(history + [event], terminal);
  }

  /** A longer history keeps what it explained. */
  lemma LongerHistory(s: State, t: State)
    requires s.history <= t.history
    ensures forall key :: ConfirmedIn(s.history, key) ==> ConfirmedIn(t.history, key)
    ensures WritesOk(s) && t.inFlight == s.inFlight && t.confirmed == s.confirmed && t.nextRequest >= s.nextRequest
            ==> WritesOk(t)
  {
  }

  lemma PublishedKeepsInv(s: State, sent: bool)
    requires WritesOk(s) && Accounted(s) && ArmedOk(s) && Ready(s)
    ensures Inv(PublishReady(s, sent)) && PublishReady(s, sent).pending.None?
  {
    var p := s.pending.value;
    EndedHistory(s.history, Sends(p, sent), p.terminal);
    assert s.history + [Sends(p, sent)] + Runs(p.terminal) == s.history + ([Sends(p, sent)] + Runs(p.terminal));
    SameConfirmed(s.history, [Sends(p, sent)] + Runs(p.terminal));
    LongerHistory(s, PublishReady(s, sent));
  }

  lemma EnqueuedIsAccounted(s: State, projection: Projection, terminal: TerminalAction)
    requires Inv(s)
    ensures var t := Enqueued(s, projection, terminal);
            Accounted(t) && ArmedOk(t) && NeedsCovered(t)
    ensures PlanOk(s, projection.blobs, PlanFor(s, projection.blobs))
  {
    PlanAddsMissingWrites(s, projection.blobs, s.generation + 1);
    EnqueuedHistory(s, projection, terminal);
    EnqueuedIsCovered(s, projection, terminal);
  }

  lemma EnqueuedIsCovered(s: State, projection: Projection, terminal: TerminalAction)
    requires PlanOk(s, projection.blobs, PlanFor(s, projection.blobs)) && ArmedOk(s)
    ensures NeedsCovered(Enqueued(s, projection, terminal)) && ArmedOk(Enqueued(s, projection, terminal))
  {
  }

  lemma EnqueuedHistory(s: State, projection: Projection, terminal: TerminalAction)
    requires Accounted(s) && PlanOk(s, projection.blobs, PlanFor(s, projection.blobs))
    ensures Accounted(Enqueued(s, projection, terminal))
  {
    Extend(s.history, Queued(projection, terminal));
    SameConfirmed(s.history, [Queued(projection, terminal)]);
  }

  lemma DispatchedIsAccounted(t: State, writes: seq<(nat, string)>)
    requires Accounted(t)
    ensures Accounted(t.(history := t.history + Dispatches(writes)))
    ensures forall w :: w in writes ==> Dispatched(w.0, w.1) in Dispatches(writes)
  {
    ExtendDispatches(t.history, writes);
    DispatchesConfirmNothing(writes);
    SameConfirmed(t.history, Dispatches(writes));
  }

  lemma {:induction false} DispatchesConfirmNothing(writes: seq<(nat, string)>)
    ensures forall event :: event in Dispatches(writes) ==> event.Dispatched?
  {
    if writes != [] { DispatchesConfirmNothing(writes[..|writes| - 1]); }
  }

  /** `t` is the state in which every blob message of a queue call has been sent. */
  lemma SentKeepsInv(s: State, t: State, plan: Plan, blobs: seq<Blob>, sent: bool)
    requires Inv(s) && PlanOk(s, blobs, plan)
    requires t.inFlight == plan.inFlight && t.nextRequest == plan.nextRequest && t.confirmed == s.confirmed
    requires s.history <= t.history && forall w :: w in plan.toWrite ==> Dispatched(w.0, w.1) in t.history
    requires Accounted(t) && ArmedOk(t) && NeedsCovered(t)
    ensures Inv(if Ready(t) then PublishReady(t, sent) else Armed(t))
  {
    assert WritesOk(t);
    if Ready(t) { PublishedKeepsInv(t, sent); }
  }

  lemma QueueKeepsInv(s: State, projection: Projection, terminal: TerminalAction, accepted: nat, sent: bool)
    requires Inv(s)
    ensures Inv(Queue(s, projection, terminal, accepted, sent))
  {
    EnqueuedIsAccounted(s, projection, terminal);
    var plan := PlanFor(s, projection.blobs);
    var queued := Enqueued(s, projection, terminal);
    if accepted < |plan.toWrite| {
      DispatchedIsAccounted(queued, plan.toWrite[..accepted]);
      FailedKeepsInv(queued.(history := queued.history + Dispatches(plan.toWrite[..accepted])), BlobNotSent);
    } else {
      DispatchedIsAccounted(queued, plan.toWrite);
      SentKeepsInv(s, queued.(history := queued.history + Dispatches(plan.toWrite)), plan, projection.blobs, sent);
    }
  }

  lemma AnswerIsAccounted(s: State, request: nat, rejected: bool)
    requires WritesOk(s) && Accounted(s) && request in s.inFlight
    ensures Accounted(Answered(s, request, rejected))
  {
    var t := Answered(s, request, rejected);
    Extend(s.history, Answer(s, request, rejected));
    LongerHistory(s, t);
    assert Answer(s, request, rejected) in t.history;
  }

  lemma AnswerKeepsWrites(s: State, request: nat, rejected: bool)
    requires WritesOk(s) && NeedsCovered(s) && request in s.inFlight
    ensures var t := Answered(s, request, rejected);
            WritesOk(t) && (!FatalRejection(s, request, rejected) ==> NeedsCovered(t))
  {
    RemainingKeys(s.inFlight, request);
  }

  lemma BlobResultKeepsInv(s: State, request: nat, rejected: bool, sent: bool)
    requires Inv(s)
    ensures Inv(BlobResult(s, request, rejected, sent))
  {
    if request in s.inFlight {
      AnswerIsAccounted(s, request, rejected);
      AnswerKeepsWrites(s, request, rejected);
      var t := Answered(s, request, rejected);
      if FatalRejection(s, request, rejected) {
        FailedKeepsInv(t, BlobRejected);
      } else if Ready(t) {
        PublishedKeepsInv(t, sent);
      }
    }
  }

  lemma RemainingKeys(inFlight: map<nat, Write>, request: nat)
    requires request in inFlight
    ensures Keys(inFlight) <= Keys(inFlight - {request}) + {inFlight[request].key}
  {
    forall key | key in Keys(inFlight) && key != inFlight[request].key ensures key in Keys(inFlight - {request}) {
      var r :| r in inFlight && inFlight[r].key == key;
      assert (inFlight - {request})[r].key == key;
    }
  }

  /** A timer whose token is the current one leaves nothing pending, and runs the terminal action
      that was owed; any other timer changes nothing but being used up. */
  lemma TimerDischarges(s: State, fired: Timer, sent: bool)
    requires Inv(s) && fired in s.armed
    ensures var t := TimerFired(s, fired, sent);
            && Inv(t)
            && (fired.token == s.timer
                ==> && t.pending.None?
                    && t.history == s.history
                                    + if s.pending.None? then []
                                      else [Dropped(s.pending.value.generation, OutOfTime)] + Runs(Owed(s.history)))
            && (fired.token != s.timer ==> t == s.(armed := s.armed - multiset{fired}))
  {
    var t := s.(armed := s.armed - multiset{fired});
    assert forall u :: u in t.armed ==> u in s.armed;
    if fired.token == s.timer {
      var u := t.(timer := s.timer + 1);
      if s.pending.Some? { FailedKeepsInv(u, OutOfTime); }
    }
  }

  datatype Step =
    | DoQueue(projection: Projection, terminal: TerminalAction, accepted: nat, sent: bool)
    | DoResult(request: nat, rejected: bool, sent: bool)
    | DoFire(fired: Timer, sent: bool)
    | DoDiscard
    | DoResetTimers

  function Next(s: State, step: Step): State {
    match step
    case DoQueue(projection, terminal, accepted, sent) => Queue(s, projection, terminal, accepted, sent)
    case DoResult(request, rejected, sent) => BlobResult(s, request, rejected, sent)
    case DoFire(fired, sent) => TimerFired(s, fired, sent)
    case DoDiscard => Discard(s)
    case DoResetTimers => TimersReset(s)
  }

  function Run(s: State, steps: seq<Step>): State
    decreases |steps|
  {
    if steps == [] then s else Run(Next(s, steps[0]), steps[1..])
  }

  lemma NextKeepsInv(s: State, step: Step)
    requires Inv(s)
    ensures Inv(Next(s, step))
  {
    match step
    case DoQueue(projection, terminal, accepted, sent) => QueueKeepsInv(s, projection, terminal, accepted, sent);
    case DoResult(request, rejected, sent) => BlobResultKeepsInv(s, request, rejected, sent);
    case DoFire(fired, sent) => if fired in s.armed { TimerDischarges(s, fired, sent); }
    case DoDiscard => DiscardKeepsInv(s);
    case DoResetTimers => ResetKeepsInv(s);
  }

  lemma DiscardKeepsInv(s: State)
    requires Inv(s)
    ensures Inv(Discard(s))
  {
    Extend(s.history, Discarded);
    SameConfirmed(s.history, [Discarded]);
  }

  lemma ResetKeepsInv(s: State)
    requires Inv(s)
    ensures Inv(TimersReset(s))
  {
  }

  lemma {:induction false} RunKeepsInv(s: State, steps: seq<Step>)
    requires Inv(s)
    ensures Inv(Run(s, steps))
    decreases |steps|
  {
    if steps != [] {
      NextKeepsInv(s, steps[0]);
      RunKeepsInv(Next(s, steps[0]), steps[1..]);
    }
  }

  lemma EveryRunKeepsInv(steps: seq<Step>)
    ensures Inv(Run(Initial, steps))
  {
    RunKeepsInv(Initial, steps);
  }

  /** A published checkpoint comes after the dispatch, and then the error-free confirmation, of a
      write for each key it needs. */
  lemma PublishedAfterConfirmation(history: seq<Event>, i: nat, key: string)
    requires Sound(history) && i < |history| && history[i].Published? && key in history[i].required
    ensures exists d, c :: 0 <= d < c < i && history[c].Confirmed? && history[c].key == key
                           && history[d] == Dispatched(history[c].request, key)
  {
    SoundAt(history, i);
    var request :| Confirmed(request, key) in history[..i];
    var c :| 0 <= c < i && history[..i][c] == Confirmed(request, key);
    SoundAt(history, c);
    var d :| 0 <= d < c && history[..c][d] == Dispatched(request, key);
    assert history[c] == Confirmed(request, key) && history[d] == Dispatched(request, key);
  }

  /** Neither run, discarded nor replaced. */
  predicate LeavesOwed(event: Event) {
    !event.Ran? && !event.Discarded? && !(event.Queued? && !event.terminal.NoAction?)
  }

  lemma {:induction false} OwedIsLastQueued(history: seq<Event>) returns (q: nat)
    requires !Owed(history).NoAction?
    ensures q < |history| && history[q].Queued? && history[q].terminal == Owed(history)
    ensures forall i :: q < i < |history| ==> LeavesOwed(history[i])
  {
    var front, last := history[..|history| - 1], history[|history| - 1];
    if LeavesOwed(last) {
      q := OwedIsLastQueued(front);
      assert forall i :: q < i < |front| ==> LeavesOwed(front[i]);
    } else {
      q := |history| - 1;
    }
  }

  /** A terminal action that is run is the last one queued, not yet run and not discarded: one
      queued action is run at most once. */
  lemma RanIsLastQueued(history: seq<Event>, r: nat) returns (q: nat)
    requires Sound(history) && r < |history| && history[r].Ran?
    ensures q < r && history[q].Queued? && history[q].terminal == history[r].terminal
    ensures forall i :: q < i < r ==> LeavesOwed(history[i])
  {
    SoundAt(history, r);
    q := OwedIsLastQueued(history[..r]);
    forall i | q < i < r ensures LeavesOwed(history[i]) {
      assert history[..r][i] == history[i];
    }
  }

  // ---------------------------------------------------------------- when a checkpoint is published

  /** How pending checkpoints ended. */
  function Ends(history: seq<Event>): seq<Event> {
    if history == [] then []
    else
      var last := history[|history| - 1];
      Ends(history[..|history| - 1]) + if last.Published? || last.Dropped? then [last] else []
  }

  /** The needed keys that are neither confirmed nor in flight. */
  function MissingOf(s: State, needed: set<string>): set<string> { needed - s.confirmed - Keys(s.inFlight) }

  function Missing(s: State, projection: Projection): set<string> {
    MissingOf(s, Needs(projection))
  }

  /** How a step ends a pending checkpoint: at queueing if a blob is refused or none is missing, when the last
      missing key is confirmed, when a needed one is rejected, and at the end of its time. */
  function EndOf(s: State, step: Step): Option<Event> {
    match step
    case DoQueue(projection, _, accepted, sent) =>
      var generation := s.generation + 1;
      if accepted < |Missing(s, projection)| then Some(Dropped(generation, BlobNotSent))
      else if !(Needs(projection) <= s.confirmed) then None
      else if sent then Some(Published(generation, Needs(projection), projection.state))
      else Some(Dropped(generation, CheckpointNotSent))
    case DoResult(request, rejected, sent) =>
      if request !in s.inFlight || s.pending.None? then None
      else
        var p, key := s.pending.value, s.inFlight[request].key;
        if rejected then (if key in p.required then Some(Dropped(p.generation, BlobRejected)) else None)
        else if !(p.required <= s.confirmed + {key}) then None
        else if sent then Some(Published(p.generation, p.required, p.state))
        else Some(Dropped(p.generation, CheckpointNotSent))
    case DoFire(fired, _) =>
      if fired in s.armed && fired.token == s.timer && s.pending.Some? then
        Some(Dropped(s.pending.value.generation, OutOfTime))
      else None
    case _ => None
  }

  /** What is pending after a step: a new projection, nothing after an end or a discard, or what was. */
  function PendingAfter(s: State, step: Step): Option<Awaited> {
    if EndOf(s, step).Some? || step.DoDiscard? then None
    else if step.DoQueue? then Some(Awaited(s.generation + 1, Needs(step.projection), step.projection.state))
    else AwaitedOf(s.pending)
  }

  lemma {:induction false} EndsAdd(a: seq<Event>, b: seq<Event>)
    ensures Ends(a + b) == Ends(a) + Ends(b)
    decreases |b|
  {
    if b == [] {
      assert a + b == a;
    } else {
      assert (a + b)[..|a + b| - 1] == a + b[..|b| - 1];
      EndsAdd(a, b[..|b| - 1]);
    }
  }

  lemma {:induction false} NoEnds(events: seq<Event>)
    requires forall event :: event in events ==> !event.Published? && !event.Dropped?
    ensures Ends(events) == []
  {
    if events != [] { NoEnds(events[..|events| - 1]); }
  }

  lemma EndsOfOne(event: Event)
    ensures Ends([event]) == if event.Published? || event.Dropped? then [event] else []
  {
    assert [event][..0] == [];
  }

  lemma Regroup(a: seq<Event>, b: seq<Event>, c: seq<Event>)
    ensures a + b + c == a + (b + c)
  {
  }

  /** An end, with the terminal action behind it, is one end more. */
  lemma EndsMore(history: seq<Event>, event: Event, terminal: TerminalAction)
    requires event.Published? || event.Dropped?
    ensures Ends(history + [event] + Runs(terminal)) == Ends(history) + [event]
    ensures history + [event] + Runs(terminal) == history + ([event] + Runs(terminal))
  {
    EndsOfOne(event);
    NoEnds(Runs(terminal));
    EndsAdd(history, [event]);
    EndsAdd(history + [event], Runs(terminal));
    Regroup(history, [event], Runs(terminal));
  }

  /** One write goes out for each missing key. */
  ghost predicate WritesEach(s: State, missing: set<string>, p: Plan) {
    && Keys(p.inFlight) == Keys(s.inFlight) + missing && |p.toWrite| == |missing|
    && forall r :: r in p.inFlight ==> r <= p.nextRequest
  }

  lemma MissingMore(s: State, needed: set<string>, key: string)
    ensures MissingOf(s, needed + {key})
         == if key in s.confirmed || key in Keys(s.inFlight) then MissingOf(s, needed) else MissingOf(s, needed) + {key}
  {
  }

  lemma OneMoreWrite(s: State, missing: set<string>, p: Plan, key: string, q: Plan)
    requires WritesEach(s, missing, p) && key !in Keys(p.inFlight)
    requires q.nextRequest == p.nextRequest + 1 && |q.toWrite| == |p.toWrite| + 1
    requires q.inFlight == p.inFlight[q.nextRequest := Write(key, s.generation + 1)]
    ensures WritesEach(s, missing + {key}, q)
  {
    KeysAdd(p.inFlight, q.nextRequest, Write(key, s.generation + 1));
    OneMoreKey(Keys(s.inFlight), missing, key);
  }

  lemma OneMoreKey(keys: set<string>, missing: set<string>, key: string)
    requires key !in keys + missing
    ensures keys + missing + {key} == keys + (missing + {key}) && |missing + {key}| == |missing| + 1
  {
  }

  lemma OneMoreBlob(s: State, needed: set<string>, p: Plan, blob: Blob, q: Plan)
    requires WritesEach(s, MissingOf(s, needed), p) && q == PlanBlob(p, blob, s.confirmed, s.generation + 1)
    ensures blob.id != "" ==> WritesEach(s, MissingOf(s, needed + {blob.id}), q)
    ensures blob.id == "" ==> q == p
  {
    MissingMore(s, needed, blob.id);
    if blob.id != "" && blob.id !in s.confirmed && blob.id !in Keys(p.inFlight) {
      OneMoreWrite(s, MissingOf(s, needed), p, blob.id, q);
    } else if blob.id in MissingOf(s, needed) {
      assert MissingOf(s, needed) + {blob.id} == MissingOf(s, needed);
    }
  }

  lemma IdsAdd(front: seq<Blob>, blob: Blob)
    ensures Ids(front + [blob]) == if blob.id == "" then Ids(front) else Ids(front) + {blob.id}
  {
    assert forall b :: b in front + [blob] <==> b in front || b == blob;
  }

  lemma {:induction false} OneWriteEach(s: State, blobs: seq<Blob>)
    requires forall r :: r in s.inFlight ==> r <= s.nextRequest
    ensures WritesEach(s, MissingOf(s, Ids(blobs)), PlanFor(s, blobs))
  {
    if blobs == [] {
      NothingIsMissing(s);
    } else {
      OneWriteEach(s, blobs[..|blobs| - 1]);
      LastWriteEach(s, blobs);
    }
  }

  lemma NothingIsMissing(s: State)
    requires forall r :: r in s.inFlight ==> r <= s.nextRequest
    ensures WritesEach(s, MissingOf(s, Ids([])), PlanFor(s, []))
  {
    assert Ids([]) == {} && MissingOf(s, {}) == {};
  }

  lemma LastWriteEach(s: State, blobs: seq<Blob>)
    requires blobs != []
    requires WritesEach(s, MissingOf(s, Ids(blobs[..|blobs| - 1])), PlanFor(s, blobs[..|blobs| - 1]))
    ensures WritesEach(s, MissingOf(s, Ids(blobs)), PlanFor(s, blobs))
  {
    var front, blob := blobs[..|blobs| - 1], blobs[|blobs| - 1];
    var p, q := PlanFor(s, front), PlanFor(s, blobs);
    assert q == PlanBlob(p, blob, s.confirmed, s.generation + 1);
    assert front + [blob] == blobs;
    IdsAdd(front, blob);
    NextWriteEach(s, Ids(front), p, blob, q, Ids(blobs));
  }

  lemma NextWriteEach(s: State, needed: set<string>, p: Plan, blob: Blob, q: Plan, more: set<string>)
    requires WritesEach(s, MissingOf(s, needed), p) && q == PlanBlob(p, blob, s.confirmed, s.generation + 1)
    requires more == if blob.id == "" then needed else needed + {blob.id}
    ensures WritesEach(s, MissingOf(s, more), q)
  {
    OneMoreBlob(s, needed, p, blob, q);
  }

  lemma {:induction false} IdsAreRequired(p: Plan, blobs: seq<Blob>, confirmed: set<string>, generation: nat)
    ensures PlanBlobs(p, blobs, confirmed, generation).required == p.required + Ids(blobs)
  {
    if blobs == [] {
      assert Ids(blobs) == {};
    } else {
      var front, blob := blobs[..|blobs| - 1], blobs[|blobs| - 1];
      IdsAreRequired(p, front, confirmed, generation);
      IdsAdd(front, blob);
      assert front + [blob] == blobs;
    }
  }

  lemma NeedsAreRequired(s: State, projection: Projection)
    requires WritesOk(s)
    ensures PlanFor(s, projection.blobs).required == Needs(projection)
    ensures |PlanFor(s, projection.blobs).toWrite| == |Missing(s, projection)|
  {
    IdsAreRequired(Plan(s.nextRequest, s.inFlight, {}, []), projection.blobs, s.confirmed, s.generation + 1);
    OneWriteEach(s, projection.blobs);
  }

  /** Queueing and sending blobs ends nothing. */
  lemma QueuedEndsNothing(history: seq<Event>, queued: Event, writes: seq<(nat, string)>)
    requires queued.Queued?
    ensures Ends(history + [queued] + Dispatches(writes)) == Ends(history)
  {
    EndsOfOne(queued);
    EndsAdd(history, [queued]);
    DispatchesConfirmNothing(writes);
    NoEnds(Dispatches(writes));
    EndsAdd(history + [queued], Dispatches(writes));
  }

  /** The history has this one end more, if any, and this is pending. */
  ghost predicate EndsBy(history: seq<Event>, t: State, end: Option<Event>, pending: Option<Awaited>) {
    && Ends(t.history) == Ends(history) + (if end.Some? then [end.value] else [])
    && AwaitedOf(t.pending) == pending
  }

  lemma FailedEnds(s: State, reason: Reason)
    requires s.pending.Some?
    ensures EndsBy(s.history, Failed(s, reason), Some(Dropped(s.pending.value.generation, reason)), None)
  {
    EndsMore(s.history, Dropped(s.pending.value.generation, reason), s.pending.value.terminal);
  }

  lemma PublishReadyEnds(s: State, sent: bool)
    requires Ready(s)
    ensures EndsBy(s.history, PublishReady(s, sent), Some(Sends(s.pending.value, sent)), None)
  {
    EndsMore(s.history, Sends(s.pending.value, sent), s.pending.value.terminal);
  }

  lemma QueueEnds(s: State, projection: Projection, terminal: TerminalAction, accepted: nat, sent: bool)
    requires Inv(s)
    ensures var step := DoQueue(projection, terminal, accepted, sent);
            EndsBy(s.history, Next(s, step), EndOf(s, step), PendingAfter(s, step))
  {
    NeedsAreRequired(s, projection);
    var writes := PlanFor(s, projection.blobs).toWrite;
    var queued := Enqueued(s, projection, terminal);
    var gone := if accepted < |writes| then writes[..accepted] else writes;
    QueuedEndsNothing(s.history, Queued(projection, terminal), gone);
    if accepted < |writes| {
      FailedEnds(queued.(history := queued.history + Dispatches(writes[..accepted])), BlobNotSent);
    } else {
      var t := queued.(history := queued.history + Dispatches(writes));
      if Ready(t) { PublishReadyEnds(t, sent); }
    }
  }

  lemma ResultEnds(s: State, request: nat, rejected: bool, sent: bool)
    requires Inv(s)
    ensures var step := DoResult(request, rejected, sent);
            EndsBy(s.history, Next(s, step), EndOf(s, step), PendingAfter(s, step))
  {
    if request in s.inFlight {
      EndsOfOne(Answer(s, request, rejected));
      EndsAdd(s.history, [Answer(s, request, rejected)]);
      AnswerEnds(s, request, rejected, sent, Answered(s, request, rejected));
    }
  }

  /** `t` is the state with the answer taken, whose history has no end more. */
  lemma AnswerEnds(s: State, request: nat, rejected: bool, sent: bool, t: State)
    requires request in s.inFlight && t == Answered(s, request, rejected) && Ends(t.history) == Ends(s.history)
    requires !Ready(s)
    ensures var step := DoResult(request, rejected, sent);
            EndsBy(s.history, Next(s, step), EndOf(s, step), PendingAfter(s, step))
  {
    if FatalRejection(s, request, rejected) {
      FailedEnds(t, BlobRejected);
    } else if Ready(t) {
      PublishReadyEnds(t, sent);
    }
  }

  lemma FireEnds(s: State, fired: Timer, sent: bool)
    requires Inv(s)
    ensures var step := DoFire(fired, sent);
            EndsBy(s.history, Next(s, step), EndOf(s, step), PendingAfter(s, step))
  {
    if fired in s.armed && fired.token == s.timer && s.pending.Some? {
      FailedEnds(s.(armed := s.armed - multiset{fired}, timer := s.timer + 1), OutOfTime);
    }
  }

  /** In every run a pending checkpoint ends exactly as EndOf says, with one event, and stays otherwise until
      another is queued or it is discarded.  In particular it is published, with what was queued, exactly when
      its last missing key is confirmed, or at queueing if none is missing, and the broker takes it. */
  lemma StepEndsExactly(before: seq<Step>, step: Step)
    ensures var s := Run(Initial, before);
            EndsBy(s.history, Next(s, step), EndOf(s, step), PendingAfter(s, step))
  {
    EveryRunKeepsInv(before);
    var s := Run(Initial, before);
    match step
    case DoQueue(projection, terminal, accepted, sent) => QueueEnds(s, projection, terminal, accepted, sent);
    case DoResult(request, rejected, sent) => ResultEnds(s, request, rejected, sent);
    case DoFire(fired, sent) => FireEnds(s, fired, sent);
    case DoDiscard =>
      EndsOfOne(Discarded);
      EndsAdd(s.history, [Discarded]);
    case DoResetTimers =>
  }

  predicate LeavesAwaiting(event: Event) {
    !event.Queued? && !event.Published? && !event.Dropped? && !event.Discarded?
  }

  lemma {:induction false} AwaitedIsLastQueued(history: seq<Event>) returns (q: nat)
    requires Awaiting(history).Some?
    ensures q < |history| && history[q].Queued?
    ensures Awaiting(history).value == Awaited(QueuedCount(history[..q]) + 1, Needs(history[q].projection),
                                               history[q].projection.state)
    ensures forall i :: q < i < |history| ==> LeavesAwaiting(history[i])
  {
    var front, last := history[..|history| - 1], history[|history| - 1];
    if last.Queued? {
      q := |history| - 1;
    } else {
      q := AwaitedIsLastQueued(front);
      assert front[..q] == history[..q];
      forall i | q < i < |history| ensures LeavesAwaiting(history[i]) {
        if i < |front| { assert history[i] == front[i]; }
      }
    }
  }

  /** What is published is the last projection queued, with its number, its state and all the keys it needs;
      it was not superseded, dropped or discarded, nor published before. */
  lemma PublishedIsLastQueued(steps: seq<Step>, i: nat) returns (q: nat)
    requires i < |Run(Initial, steps).history| && Run(Initial, steps).history[i].Published?
    ensures var history := Run(Initial, steps).history;
            && q < i && history[q].Queued?
            && history[i] == Published(QueuedCount(history[..q]) + 1, Needs(history[q].projection),
                                       history[q].projection.state)
            && forall j :: q < j < i ==> LeavesAwaiting(history[j])
  {
    EveryRunKeepsInv(steps);
    var history := Run(Initial, steps).history;
    SoundAt(history, i);
    q := AwaitedIsLastQueued(history[..i]);
    assert history[..i][..q] == history[..q];
    forall j | q < j < i ensures LeavesAwaiting(history[j]) {
      assert history[..i][j] == history[j];
    }
  }

  // ---------------------------------------------------------------- timers and resets

  /** A pending checkpoint has a timer that will be accepted. */
  ghost predicate Live(s: State) {
    s.pending.Some? ==> exists t :: t in s.armed && t.token == s.timer
  }

  /** The reset of a run does not leave a pending checkpoint behind. */
  ghost predicate ResetsBetweenCheckpoints(s: State, steps: seq<Step>)
    decreases |steps|
  {
    steps == []
    || ((steps[0].DoResetTimers? ==> s.pending.None?) && ResetsBetweenCheckpoints(Next(s, steps[0]), steps[1..]))
  }

  lemma NextKeepsLive(s: State, step: Step)
    requires Inv(s) && Live(s)
    ensures Live(Next(s, step)) <==> !step.DoResetTimers? || s.pending.None?
  {
    match step
    case DoFire(fired, sent) =>
      if fired in s.armed && s.pending.Some? {
        var t :| t in s.armed && t.token == s.timer;
        if fired.token != s.timer {
          assert t in (s.armed - multiset{fired});
        } else {
          TimerDischarges(s, fired, sent);
        }
      }
    case DoQueue(projection, terminal, accepted, sent) => QueueIsLive(s, projection, terminal, accepted, sent);
    case _ =>
  }

  lemma QueueIsLive(s: State, projection: Projection, terminal: TerminalAction, accepted: nat, sent: bool)
    ensures Live(Queue(s, projection, terminal, accepted, sent))
  {
    var t := Queue(s, projection, terminal, accepted, sent);
    if t.pending.Some? { assert Timer(t.timer, t.generation) in t.armed; }
  }

  /** A pending checkpoint always has a live timer, in every run whose resets find nothing pending; a reset
      that does find one takes its timer away (NextKeepsLive). */
  lemma {:induction false} EveryRunIsLive(s: State, steps: seq<Step>)
    requires Inv(s) && Live(s) && ResetsBetweenCheckpoints(s, steps)
    ensures Live(Run(s, steps))
    decreases |steps|
  {
    if steps != [] {
      NextKeepsLive(s, steps[0]);
      NextKeepsInv(s, steps[0]);
      EveryRunIsLive(Next(s, steps[0]), steps[1..]);
    }
  }

  /** Armed for an older checkpoint, and about to act on the pending one. */
  predicate EndsNewer(s: State, t: Timer) {
    t in s.armed && t.token == s.timer && s.pending.Some? && t.generation < s.pending.value.generation
  }

  /** Tokens are given out once, and the current one only to the pending checkpoint's own timer. */
  ghost predicate TokensOk(s: State) {
    && (forall t :: t in s.armed ==> t.token <= s.timer)
    && (forall t :: t in s.armed && t.token == s.timer && s.pending.Some?
                    ==> t.generation == s.pending.value.generation)
  }

  lemma NextKeepsTokens(s: State, step: Step)
    requires Inv(s) && TokensOk(s) && !step.DoResetTimers?
    ensures TokensOk(Next(s, step))
  {
    match step
    case DoFire(fired, sent) =>
      assert forall t :: t in s.armed - multiset{fired} ==> t in s.armed;
    case DoQueue(projection, terminal, accepted, sent) =>
      QueueKeepsTokens(s, projection, terminal, accepted, sent);
    case DoResult(request, rejected, sent) => ResultKeepsTokens(s, request, rejected, sent);
    case _ =>
  }

  /** A checkpoint that ended or was discarded leaves no timer with the current token. */
  lemma EndRetiresTimer(s: State, step: Step, t: Timer)
    requires Inv(s) && TokensOk(s) && (EndOf(s, step).Some? || step.DoDiscard?) && t in Next(s, step).armed
    ensures t.token < Next(s, step).timer
  {
    match step
    case DoQueue(projection, terminal, accepted, sent) => QueueEndArms(s, projection, terminal, accepted, sent);
    case DoResult(request, rejected, sent) => ResultEndArms(s, request, rejected, sent);
    case DoFire(fired, _) => assert t in s.armed;
    case _ =>
  }

  lemma QueueEndArms(s: State, projection: Projection, terminal: TerminalAction, accepted: nat, sent: bool)
    requires WritesOk(s) && EndOf(s, DoQueue(projection, terminal, accepted, sent)).Some?
    ensures var t := Queue(s, projection, terminal, accepted, sent);
            t.armed == s.armed && t.timer == s.timer + 1
  {
    NeedsAreRequired(s, projection);
  }

  lemma ResultEndArms(s: State, request: nat, rejected: bool, sent: bool)
    requires EndOf(s, DoResult(request, rejected, sent)).Some?
    ensures var t := BlobResult(s, request, rejected, sent);
            t.armed == s.armed && t.timer == s.timer + 1
  {
  }

  lemma ResultKeepsTokens(s: State, request: nat, rejected: bool, sent: bool)
    requires TokensOk(s)
    ensures TokensOk(BlobResult(s, request, rejected, sent))
  {
  }

  lemma QueueKeepsTokens(s: State, projection: Projection, terminal: TerminalAction, accepted: nat, sent: bool)
    requires TokensOk(s)
    ensures TokensOk(Queue(s, projection, terminal, accepted, sent))
  {
    var t := Queue(s, projection, terminal, accepted, sent);
    assert t.timer == s.timer + 1;
    assert forall u :: u in t.armed ==> u in s.armed || u == Timer(t.timer, t.generation);
  }

  lemma {:induction false} RunKeepsTokens(s: State, steps: seq<Step>)
    requires Inv(s) && TokensOk(s) && forall i :: 0 <= i < |steps| ==> !steps[i].DoResetTimers?
    ensures Inv(Run(s, steps)) && TokensOk(Run(s, steps))
    decreases |steps|
  {
    if steps != [] {
      assert !steps[0].DoResetTimers?;
      NextKeepsTokens(s, steps[0]);
      NextKeepsInv(s, steps[0]);
      RunKeepsTokens(Next(s, steps[0]), steps[1..]);
    }
  }

  /** Queueing one blob that is not confirmed, with every send accepted, supersedes what is pending. */
  lemma QueueOneBlob(s: State, blob: Blob, state: string, terminal: TerminalAction)
    requires blob.id != "" && blob.id !in s.confirmed
    ensures var t := Queue(s, Projection(state, [blob]), terminal, 1, true);
            && t.timer == s.timer + 1 && t.confirmed == s.confirmed && t.generation == s.generation + 1
            && t.pending == Some(Pending(s.generation + 1, {blob.id}, state, Inherited(s, terminal)))
            && t.armed == s.armed + multiset{Timer(s.timer + 1, s.generation + 1)}
  {
    var start := Plan(s.nextRequest, s.inFlight, {}, []);
    var blobs := [blob];
    assert blobs[..|blobs| - 1] == [];
    assert PlanBlobs(start, [], s.confirmed, s.generation + 1) == start;
    assert PlanBlobs(start, blobs, s.confirmed, s.generation + 1)
        == PlanBlob(start, blob, s.confirmed, s.generation + 1);
    assert PlanFor(s, [blob]) == PlanBlob(start, blob, s.confirmed, s.generation + 1);
    assert PlanFor(s, [blob]).required == {blob.id} && |PlanFor(s, [blob]).toWrite| <= 1;
  }

  /** One checkpoint after the other supersedes the last, with every send accepted, until the current token
      is the given one. */
  lemma {:induction false} CountUp(s: State, key: string, token: nat) returns (steps: seq<Step>)
    requires key != "" && key !in s.confirmed && s.timer < token
    ensures forall i :: 0 <= i < |steps| ==> steps[i].DoQueue? && steps[i].accepted == 1 && steps[i].sent
    ensures var t := Run(s, steps);
            t.timer == token && t.pending.Some? && t.pending.value.generation > s.generation && s.armed <= t.armed
    decreases token - s.timer
  {
    var step := DoQueue(Projection("", [Blob(key, "")]), NoAction, 1, true);
    QueueOneBlob(s, Blob(key, ""), "", NoAction);
    var t := Next(s, step);
    var more := [];
    if s.timer + 1 < token { more := CountUp(t, key, token); }
    steps := [step] + more;
    assert steps[1..] == more;
    assert Run(s, steps) == Run(t, more);
  }

  /** A run that queues one checkpoint leaves its timer armed. */
  lemma ArmedTimerIsReachable() returns (before: seq<Step>)
    ensures Run(Initial, before).armed != multiset{}
  {
    QueueOneBlob(Initial, Blob("key", ""), "", NoAction);
    before := [DoQueue(Projection("", [Blob("key", "")]), NoAction, 1, true)];
    assert before[1..] == [];
  }

  /** A run that resets the timer tokens lets an older timer end a newer checkpoint later on, before any
      further reset, exactly if a timer is armed at the reset. */
  lemma OldTimerCanEndNewerIff(before: seq<Step>)
    ensures var s := Run(Initial, before);
            (exists steps: seq<Step>, t ::
               (forall i :: 0 <= i < |steps| ==> !steps[i].DoResetTimers?)
               && EndsNewer(Run(TimersReset(s), steps), t))
            <==> s.armed != multiset{}
  {
    EveryRunKeepsInv(before);
    var s := Run(Initial, before);
    var reset := TimersReset(s);
    assert Inv(reset);
    if s.armed != multiset{} {
      var t :| t in s.armed;
      var key := LongerThanAll(s.confirmed + Keys(s.inFlight));
      var steps := CountUp(reset, key, t.token);
      assert forall i :: 0 <= i < |steps| ==> !steps[i].DoResetTimers?;
      assert EndsNewer(Run(reset, steps), t);
    } else {
      forall steps: seq<Step>, t | forall i :: 0 <= i < |steps| ==> !steps[i].DoResetTimers?
        ensures !EndsNewer(Run(reset, steps), t)
      {
        RunKeepsTokens(reset, steps);
      }
    }
  }

  /** Without a reset, or with resets that find no timer armed, no older timer ever ends a newer
      checkpoint. */
  lemma {:induction false} NoOldTimerActs(s: State, steps: seq<Step>, t: Timer)
    requires Inv(s) && TokensOk(s) && ResetsFindNothingArmed(s, steps)
    ensures !EndsNewer(Run(s, steps), t)
    decreases |steps|
  {
    if steps != [] {
      NextKeepsInv(s, steps[0]);
      if !steps[0].DoResetTimers? { NextKeepsTokens(s, steps[0]); }
      NoOldTimerActs(Next(s, steps[0]), steps[1..], t);
    }
  }

  ghost predicate ResetsFindNothingArmed(s: State, steps: seq<Step>)
    decreases |steps|
  {
    steps == []
    || ((steps[0].DoResetTimers? ==> s.armed == multiset{}) && ResetsFindNothingArmed(Next(s, steps[0]), steps[1..]))
  }
}
