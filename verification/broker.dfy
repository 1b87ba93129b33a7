/** The per-request stream of the broker: a truncated backlog with a base cursor, one cursor and
    one capacity-1 signal per subscriber, and a single end event.

    `Stream` and the functions on it say what each locked section does.  `ActiveStream` is the
    object whose methods do it in place.  `System` puts a stream next to the log it stands for,
    to the notifications that publishers still owe, and to the RunSSE readers. */
module StreamBroker {
  import opened Common

  datatype Status = Created | Streaming | Completed | Canceled | Failed

  predicate Terminal(status: Status) {
    status.Completed? || status.Canceled? || status.Failed?
  }

  datatype StreamEvent = StreamEvent(message: string, end: bool, code: string, detail: string)

  /** `signal` is the content of the subscriber's one-slot channel. */
  datatype Subscriber = Subscriber(cursor: nat, signal: bool)

  datatype Stream = Stream(status: Status, backlog: seq<StreamEvent>, base: nat,
                           subscribers: map<string, Subscriber>)
  {
    function End(): nat { base + |backlog| }
  }

  // ---------------------------------------------------------------- what one locked section does

  /** OpenStream on a request that already has a stream. */
  function Reopened(s: Stream): Stream {
    Stream(s.status, [], 0, map id | id in s.subscribers :: s.subscribers[id].(cursor := 0))
  }

  function Subscribed(s: Stream, id: string): Stream {
    if Terminal(s.status) then s
    else s.(subscribers := s.subscribers[id := Subscriber(s.base, false)])
  }

  function Unsubscribed(s: Stream, id: string): Stream {
    s.(subscribers := s.subscribers - {id})
  }

  predicate CanAcknowledge(s: Stream, id: string, cursor: int) {
    id in s.subscribers && s.subscribers[id].cursor <= cursor <= s.End()
  }

  /** `m` is the least of `end` and of all subscriber cursors. */
  ghost predicate IsLowest(m: nat, subscribers: map<string, Subscriber>, end: nat) {
    && m <= end
    && (forall id :: id in subscribers ==> m <= subscribers[id].cursor)
    && (m == end || exists id :: id in subscribers && subscribers[id].cursor == m)
  }

  lemma LowestExists(subscribers: map<string, Subscriber>, end: nat)
    ensures exists m: nat :: IsLowest(m, subscribers, end)
    decreases |subscribers|
  {
    if subscribers.Keys == {} {
      assert IsLowest(end, subscribers, end);
    } else {
      var id :| id in subscribers;
      var rest := subscribers - {id};
      assert rest.Keys == subscribers.Keys - {id};
      LowestExists(rest, end);
      var n: nat :| IsLowest(n, rest, end);
      var m := if subscribers[id].cursor < n then subscribers[id].cursor else n;
      assert forall other :: other in subscribers ==> other == id || other in rest.Keys;
      assert IsLowest(m, subscribers, end);
    }
  }

  ghost function Lowest(subscribers: map<string, Subscriber>, end: nat): (m: nat)
    ensures IsLowest(m, subscribers, end)
  {
    LowestExists(subscribers, end);
    var m: nat :| IsLowest(m, subscribers, end);
    m
  }

  ghost function Trimmed(s: Stream): Stream {
    if |s.subscribers| == 0 || |s.backlog| == 0 then s
    else
      var lowest := Lowest(s.subscribers, s.End());
      if lowest <= s.base then s
      else s.(backlog := s.backlog[lowest - s.base..], base := lowest)
  }

  ghost function Acknowledged(s: Stream, id: string, cursor: int): Stream {
    if CanAcknowledge(s, id, cursor) then
      Trimmed(s.(subscribers := s.subscribers[id := s.subscribers[id].(cursor := cursor)]))
    else s
  }

  /** A message is dropped once the stream is terminal; an end event never is. */
  predicate Accepts(s: Stream, event: StreamEvent) {
    event.end || !Terminal(s.status)
  }

  function Appended(s: Stream, event: StreamEvent, limit: nat): Stream {
    if !Accepts(s, event) then s
    else
      var backlog := s.backlog + [event];
      if |s.subscribers| == 0 && |backlog| > limit then
        s.(backlog := backlog[|backlog| - limit..], base := s.base + |backlog| - limit)
      else s.(backlog := backlog)
  }

  function Notified(s: Stream, ids: set<string>): Stream {
    s.(subscribers := map id | id in s.subscribers ::
         if id in ids then s.subscribers[id].(signal := true) else s.subscribers[id])
  }

  function ReadFrom(s: Stream, cursor: int): seq<StreamEvent> {
    var from := if cursor < s.base then s.base else cursor;
    if from - s.base >= |s.backlog| then [] else s.backlog[from - s.base..]
  }

  predicate HasUnread(s: Stream, cursor: int) {
    cursor < s.End() && |s.backlog| > 0
  }

  /** The status half of Complete, Fail and Cancel. */
  function Finished(s: Stream, target: Status): Stream {
    if Terminal(s.status) then s else s.(status := target)
  }

  // ---------------------------------------------------------------- the object

  class ActiveStream {
    var status: Status
    var backlog: seq<StreamEvent>
    var base: nat
    var subscribers: map<string, Subscriber>
    const limit: nat

    ghost function View(): Stream
      reads this
    {
      Stream(status, backlog, base, subscribers)
    }

    constructor (backlogLimit: int)
      ensures View() == Stream(Created, [], 0, map[])
      ensures limit == (if backlogLimit < 1 then 1024 else backlogLimit)
    {
      status, backlog, base, subscribers := Created, [], 0, map[];
      limit := if backlogLimit < 1 then 1024 else backlogLimit;
    }

    method Reopen()
      modifies this
      ensures View() == Reopened(old(View()))
    {
      backlog, base := [], 0;
      var todo := subscribers.Keys;
      while todo != {}
        invariant todo <= subscribers.Keys == old(subscribers).Keys
        invariant status == old(status) && backlog == [] && base == 0
        invariant forall id :: id in subscribers ==>
          subscribers[id] == if id in todo then old(subscribers)[id] else old(subscribers)[id].(cursor := 0)
        decreases todo
      {
        var id :| id in todo;
        subscribers := subscribers[id := subscribers[id].(cursor := 0)];
        todo := todo - {id};
      }
    }

    method Subscribe(id: string) returns (ok: bool)
      modifies this
      ensures View() == Subscribed(old(View()), id)
      ensures ok == !Terminal(old(status))
    {
      if Terminal(status) { return false; }
      subscribers := subscribers[id := Subscriber(base, false)];
      ok := true;
    }

    method Unsubscribe(id: string) returns (remaining: nat)
      modifies this
      ensures View() == Unsubscribed(old(View()), id)
      ensures remaining == |subscribers|
    {
      subscribers := subscribers - {id};
      remaining := |subscribers|;
    }

    method AcknowledgeCursor(id: string, cursor: int) returns (ok: bool)
      modifies this
      ensures ok == CanAcknowledge(old(View()), id, cursor)
      ensures View() == Acknowledged(old(View()), id, cursor)
    {
      var upperBound := base + |backlog|;
      if id !in subscribers || cursor < subscribers[id].cursor || cursor > upperBound { return false; }
      subscribers := subscribers[id := subscribers[id].(cursor := cursor)];
      TrimAcknowledgedBacklog();
      ok := true;
    }

    method TrimAcknowledgedBacklog()
      modifies this
      ensures View() == Trimmed(old(View()))
    {
      if |subscribers| == 0 || |backlog| == 0 { return; }
      var acknowledged := base + |backlog|;
      var todo := subscribers.Keys;
      while todo != {}
        invariant todo <= subscribers.Keys
        invariant acknowledged <= base + |backlog|
        invariant forall id :: id in subscribers && id !in todo ==> acknowledged <= subscribers[id].cursor
        invariant acknowledged == base + |backlog|
               || exists id :: id in subscribers && subscribers[id].cursor == acknowledged
        decreases todo
      {
        var id :| id in todo;
        if subscribers[id].cursor < acknowledged { acknowledged := subscribers[id].cursor; }
        todo := todo - {id};
      }
      LowestUnique(acknowledged, Lowest(subscribers, base + |backlog|), subscribers, base + |backlog|);
      var trimmed := acknowledged - base;
      if trimmed <= 0 { return; }
      backlog := backlog[trimmed..];
      base := base + trimmed;
    }

    /** The locked half of Publish; `targets` are the subscribers to be signalled afterwards. */
    method Append(event: StreamEvent) returns (targets: set<string>)
      modifies this
      ensures View() == Appended(old(View()), event, limit)
      ensures targets == if Accepts(old(View()), event) then subscribers.Keys else {}
    {
      if !event.end && Terminal(status) { return {}; }
      backlog := backlog + [event];
      if |subscribers| == 0 && |backlog| > limit {
        var overflow := |backlog| - limit;
        backlog := backlog[overflow..];
        base := base + overflow;
      }
      targets := subscribers.Keys;
    }

    method Notify(id: string)
      modifies this
      ensures View() == Notified(old(View()), {id})
    {
      if id in subscribers {
        subscribers := subscribers[id := subscribers[id].(signal := true)];
      }
    }

    method Publish(event: StreamEvent)
      modifies this
      ensures var appended := Appended(old(View()), event, limit);
              View() == if Accepts(old(View()), event) then Notified(appended, appended.subscribers.Keys) else appended
    {
      ghost var appended := Appended(View(), event, limit);
      var todo := Append(event);
      ghost var all := todo;
      while todo != {}
        invariant todo <= all
        invariant View() == Notified(appended, all - todo)
        decreases todo
      {
        var id :| id in todo;
        Notify(id);
        todo := todo - {id};
      }
      assert all - todo == all;
    }

    method ReadFromCursor(cursor: int) returns (events: seq<StreamEvent>)
      ensures events == ReadFrom(View(), cursor)
    {
      var from := if cursor < base then base else cursor;
      if from - base >= |backlog| { return []; }
      events := backlog[from - base..];
    }

    /** The status half of Complete, Fail and Cancel; the caller publishes the end event iff `won`. */
    method Finish(target: Status) returns (won: bool)
      requires Terminal(target)
      modifies this
      ensures View() == Finished(old(View()), target)
      ensures won == !Terminal(old(status))
    {
      if Terminal(status) { return false; }
      status := target;
      won := true;
    }
  }

  lemma LowestUnique(m: nat, n: nat, subscribers: map<string, Subscriber>, end: nat)
    requires IsLowest(m, subscribers, end) && IsLowest(n, subscribers, end)
    ensures m == n
  {
  }

  // ---------------------------------------------------------------- every interleaving

  /** One RunSSE call: `local` is its own cursor, `batch` the part of the last read it has not sent
      yet, `delivered` what it sent, `start` the cursor it began at. */
  datatype Reader = Reader(start: nat, local: nat, batch: seq<StreamEvent>, delivered: seq<StreamEvent>, waiting: bool)

  /** `log` is everything appended since the last OpenStream, `owed` the number of end events whose
      status half has happened, `notices` what each publisher has still to signal. */
  datatype System = System(stream: Stream, log: seq<StreamEvent>, owed: nat,
                           notices: map<nat, set<string>>, readers: map<string, Reader>)

  datatype Step =
    | Open
    | Subscribe(id: string, start: nat)
    | Unsubscribe(id: string)
    | Publish(publisher: nat, event: StreamEvent)
    | Finish(target: Status)
    | PublishEnd(publisher: nat, code: string, detail: string)
    | Signal(publisher: nat, id: string)
    | Fetch(id: string)
    | Deliver(id: string)
    | Wake(id: string)
    | Tick(id: string)

  function AppendTo(sys: System, publisher: nat, event: StreamEvent, limit: nat): System {
    if !Accepts(sys.stream, event) then sys
    else
      var before := if publisher in sys.notices then sys.notices[publisher] else {};
      sys.(stream := Appended(sys.stream, event, limit), log := sys.log + [event],
           notices := sys.notices[publisher := before + sys.stream.subscribers.Keys])
  }

  /** A reader that has sent its whole batch reads again, and waits if there is nothing. */
  function Fetched(sys: System, id: string): System {
    if id !in sys.readers || sys.readers[id].waiting || sys.readers[id].batch != [] then sys
    else
      var events := ReadFrom(sys.stream, sys.readers[id].local);
      sys.(readers := sys.readers[id := sys.readers[id].(batch := events, waiting := events == [])])
  }

  function Sent(r: Reader): Reader
    requires r.batch != []
  {
    Reader(r.start, r.local + 1, r.batch[1..], r.delivered + [r.batch[0]], false)
  }

  /** A reader sends the head of its batch and acknowledges; a refused acknowledgement is ignored. */
  ghost function Delivered(sys: System, id: string): System {
    if id !in sys.readers || sys.readers[id].batch == [] then sys
    else Acked(sys, id, Acknowledged(sys.stream, id, sys.readers[id].local + 1), Sent(sys.readers[id]))
  }

  function Acked(sys: System, id: string, stream: Stream, r: Reader): System {
    sys.(stream := stream, readers := sys.readers[id := r])
  }

  /** A step that is not enabled leaves the system as it is. */
  ghost function Next(sys: System, step: Step, limit: nat): System {
    match step
    case Open => sys.(stream := Reopened(sys.stream), log := [])
    case Subscribe(id, start) =>
      if id in sys.readers || Terminal(sys.stream.status) then sys
      else sys.(stream := Subscribed(sys.stream, id), readers := sys.readers[id := Reader(start, start, [], [], false)])
    case Unsubscribe(id) =>
      sys.(stream := Unsubscribed(sys.stream, id), readers := sys.readers - {id})
    case Publish(publisher, event) => if event.end then sys else AppendTo(sys, publisher, event, limit)
    case Finish(target) =>
      if !Terminal(target) then sys
      else sys.(stream := Finished(sys.stream, target),
                owed := if Terminal(sys.stream.status) then sys.owed else sys.owed + 1)
    case PublishEnd(publisher, code, detail) =>
      if sys.owed == 0 then sys
      else AppendTo(sys, publisher, StreamEvent("", true, code, detail), limit).(owed := sys.owed - 1)
    case Signal(publisher, id) =>
      if publisher !in sys.notices || id !in sys.notices[publisher] then sys
      else sys.(stream := Notified(sys.stream, {id}),
                notices := sys.notices[publisher := sys.notices[publisher] - {id}])
    case Fetch(id) => Fetched(sys, id)
    case Deliver(id) => Delivered(sys, id)
    case Wake(id) =>
      if id !in sys.readers || id !in sys.stream.subscribers || !sys.readers[id].waiting
         || !sys.stream.subscribers[id].signal then sys
      else sys.(stream := sys.stream.(subscribers :=
                  sys.stream.subscribers[id := sys.stream.subscribers[id].(signal := false)]),
                readers := sys.readers[id := sys.readers[id].(waiting := false)])
    case Tick(id) =>
      if id !in sys.readers then sys
      else sys.(readers := sys.readers[id := sys.readers[id].(waiting := false)])
  }

  ghost function Run(sys: System, steps: seq<Step>, limit: nat): System
    decreases |steps|
  {
    if steps == [] then sys else Run(Next(sys, steps[0], limit), steps[1..], limit)
  }

  function Initial(): System {
    System(Stream(Created, [], 0, map[]), [], 0, map[], map[])
  }

  /** The backlog is the log from the base cursor on, and no cursor left the retained part. */
  ghost predicate Refines(s: Stream, log: seq<StreamEvent>) {
    && s.base <= |log|
    && s.backlog == log[s.base..]
    && forall id :: id in s.subscribers ==> s.base <= s.subscribers[id].cursor <= |log|
  }

  ghost predicate NoEnd(log: seq<StreamEvent>) {
    forall i :: 0 <= i < |log| ==> !log[i].end
  }

  /** At most one end event, nothing after it, and none before the status is terminal. */
  ghost predicate EndIsLast(sys: System) {
    && sys.owed <= 1
    && (NoEnd(sys.log) || (sys.owed == 0 && |sys.log| > 0 && Last(sys.log).end && NoEnd(sys.log[..|sys.log| - 1])))
    && (!Terminal(sys.stream.status) ==> sys.owed == 0 && NoEnd(sys.log))
  }

  function Last(log: seq<StreamEvent>): StreamEvent
    requires |log| > 0
  {
    log[|log| - 1]
  }

  /** A reader that waits while there is something to read has a signal, or a publisher owes it one. */
  ghost predicate NoLostWakeup(sys: System, id: string)
    requires id in sys.readers && id in sys.stream.subscribers
  {
    sys.readers[id].waiting && HasUnread(sys.stream, sys.readers[id].local) ==>
      sys.stream.subscribers[id].signal || exists p :: p in sys.notices && id in sys.notices[p]
  }

  ghost predicate Inv(sys: System) {
    && Refines(sys.stream, sys.log)
    && EndIsLast(sys)
    && sys.readers.Keys == sys.stream.subscribers.Keys
    && forall id :: id in sys.readers ==> NoLostWakeup(sys, id)
  }

  /** `t` is `s` with the cursor of `id` at `cursor` and with the base at the lowest cursor, or `s` itself. */
  ghost predicate IsAcknowledgement(s: Stream, log: seq<StreamEvent>, id: string, cursor: int, t: Stream) {
    && Refines(t, log)
    && t.status == s.status
    && t.base >= s.base
    && (if CanAcknowledge(s, id, cursor) then IsLowest(t.base, t.subscribers, |log|) else t == s)
    && t.subscribers.Keys == s.subscribers.Keys
    && (forall other :: other in s.subscribers ==> t.subscribers[other].signal == s.subscribers[other].signal)
    && (forall other :: other in s.subscribers ==>
          t.subscribers[other].cursor ==
            (if other == id && CanAcknowledge(s, id, cursor) then cursor else s.subscribers[other].cursor))
  }

  lemma AcknowledgeRefines(s: Stream, log: seq<StreamEvent>, id: string, cursor: int)
    requires Refines(s, log)
    ensures IsAcknowledgement(s, log, id, cursor, Acknowledged(s, id, cursor))
  {
  }

  lemma AppendRefines(s: Stream, log: seq<StreamEvent>, event: StreamEvent, limit: nat)
    requires Refines(s, log) && limit > 0 && Accepts(s, event)
    ensures var t := Appended(s, event, limit);
            && Refines(t, log + [event])
            && t.status == s.status && t.subscribers == s.subscribers
            && |t.backlog| > 0 && Last(t.backlog) == event
            && (|s.subscribers| == 0 ==> |t.backlog| == Min(limit, |s.backlog| + 1))
            && (|s.subscribers| > 0 ==> t.base == s.base)
  {
  }

  function Min(a: nat, b: nat): nat { if a < b then a else b }

  /** What a read at any cursor returns: the log from there, or from the base cursor if that is later. */
  lemma ReadIsLogSuffix(s: Stream, log: seq<StreamEvent>, cursor: nat)
    requires Refines(s, log)
    ensures var from := if cursor < s.base then s.base else cursor;
            ReadFrom(s, cursor) == if from <= |log| then log[from..] else []
    ensures HasUnread(s, cursor) <==> ReadFrom(s, cursor) != []
  {
  }

  lemma AppendKeepsInv(sys: System, publisher: nat, event: StreamEvent, limit: nat)
    requires Inv(sys) && limit > 0 && (event.end ==> sys.owed > 0)
    ensures var next := AppendTo(sys, publisher, event, limit);
            Inv(if event.end then next.(owed := next.owed - 1) else next)
  {
    if Accepts(sys.stream, event) {
      AppendRefines(sys.stream, sys.log, event, limit);
      var next := AppendTo(sys, publisher, event, limit);
      assert next.log[..|next.log| - 1] == sys.log;
      assert EndIsLast(if event.end then next.(owed := next.owed - 1) else next);
      assert next.notices[publisher] >= next.stream.subscribers.Keys;
    }
  }

  lemma MembershipKeepsInv(sys: System, step: Step, limit: nat)
    requires Inv(sys) && (step.Open? || step.Subscribe? || step.Unsubscribe? || step.Finish?)
    ensures Inv(Next(sys, step, limit))
  {
    var next := Next(sys, step, limit);
    forall id | id in next.readers ensures NoLostWakeup(next, id) {
      if id in sys.readers { assert NoLostWakeup(sys, id); }
    }
  }

  lemma SignalKeepsInv(sys: System, publisher: nat, id: string, limit: nat)
    requires Inv(sys)
    ensures Inv(Next(sys, Signal(publisher, id), limit))
  {
    var next := Next(sys, Signal(publisher, id), limit);
    forall other | other in next.readers ensures NoLostWakeup(next, other) {
      assert NoLostWakeup(sys, other);
      if next.readers[other].waiting && HasUnread(next.stream, next.readers[other].local)
         && !next.stream.subscribers[other].signal {
        var p :| p in sys.notices && other in sys.notices[p];
        assert p in next.notices && other in next.notices[p];
      }
    }
  }

  /** `t` is `sys.stream` after an acknowledgement by the reader that becomes `r`. */
  lemma AcknowledgedKeepsInv(sys: System, id: string, cursor: int, t: Stream, r: Reader)
    requires Inv(sys) && id in sys.readers && !r.waiting
    requires IsAcknowledgement(sys.stream, sys.log, id, cursor, t)
    ensures Inv(Acked(sys, id, t, r))
  {
    var next := Acked(sys, id, t, r);
    forall other | other in next.readers ensures NoLostWakeup(next, other) {
      assert NoLostWakeup(sys, other);
    }
  }

  lemma DeliverKeepsInv(sys: System, id: string)
    requires Inv(sys)
    ensures Inv(Delivered(sys, id))
  {
    if id in sys.readers && sys.readers[id].batch != [] {
      var t := DeliveredIs(sys, id);
      AcknowledgedKeepsInv(sys, id, sys.readers[id].local + 1, t, Sent(sys.readers[id]));
    }
  }

  /** A delivery is an acknowledgement of one more event. */
  lemma DeliveredIs(sys: System, id: string) returns (t: Stream)
    requires Refines(sys.stream, sys.log) && id in sys.readers && sys.readers[id].batch != []
    ensures IsAcknowledgement(sys.stream, sys.log, id, sys.readers[id].local + 1, t)
    ensures Delivered(sys, id) == Acked(sys, id, t, Sent(sys.readers[id]))
  {
    t := Acknowledged(sys.stream, id, sys.readers[id].local + 1);
    AcknowledgeRefines(sys.stream, sys.log, id, sys.readers[id].local + 1);
  }

  lemma FetchKeepsInv(sys: System, id: string)
    requires Inv(sys)
    ensures Inv(Fetched(sys, id))
  {
    if id in sys.readers {
      ReadIsLogSuffix(sys.stream, sys.log, sys.readers[id].local);
      var next := Fetched(sys, id);
      forall other | other in next.readers ensures NoLostWakeup(next, other) {
        assert NoLostWakeup(sys, other);
      }
    }
  }

  /** What waking one reader leaves: everything but its waiting and perhaps its signal. */
  ghost predicate Woken(sys: System, id: string, next: System) {
    && id in sys.readers && id in sys.stream.subscribers
    && next == sys.(stream := next.stream, readers := sys.readers[id := sys.readers[id].(waiting := false)])
    && next.stream == sys.stream.(subscribers := next.stream.subscribers)
    && next.stream.subscribers.Keys == sys.stream.subscribers.Keys
    && next.stream.subscribers[id].cursor == sys.stream.subscribers[id].cursor
    && forall other :: other in sys.stream.subscribers && other != id
                       ==> next.stream.subscribers[other] == sys.stream.subscribers[other]
  }

  lemma WokenKeepsInv(sys: System, id: string, next: System)
    requires Inv(sys) && Woken(sys, id, next)
    ensures Inv(next)
  {
    forall other | other in next.readers ensures NoLostWakeup(next, other) {
      if other != id { assert NoLostWakeup(sys, other); }
    }
  }

  lemma WakeKeepsInv(sys: System, step: Step, limit: nat)
    requires Inv(sys) && (step.Wake? || step.Tick?)
    ensures Inv(Next(sys, step, limit))
  {
    var next := Next(sys, step, limit);
    if next != sys { WokenKeepsInv(sys, step.id, next); }
  }

  /** Every step of every participant keeps the invariant. */
  lemma NextKeepsInv(sys: System, step: Step, limit: nat)
    requires Inv(sys) && limit > 0
    ensures Inv(Next(sys, step, limit))
  {
    match step
    case Open => MembershipKeepsInv(sys, step, limit);
    case Subscribe(_, _) => MembershipKeepsInv(sys, step, limit);
    case Unsubscribe(_) => MembershipKeepsInv(sys, step, limit);
    case Finish(_) => MembershipKeepsInv(sys, step, limit);
    case Publish(publisher, event) => if !event.end { AppendKeepsInv(sys, publisher, event, limit); }
    case PublishEnd(publisher, code, detail) =>
      if sys.owed > 0 { AppendKeepsInv(sys, publisher, StreamEvent("", true, code, detail), limit); }
    case Signal(publisher, id) => SignalKeepsInv(sys, publisher, id, limit);
    case Deliver(id) => DeliverKeepsInv(sys, id);
    case Fetch(id) => FetchKeepsInv(sys, id);
    case Wake(_) => WakeKeepsInv(sys, step, limit);
    case Tick(_) => WakeKeepsInv(sys, step, limit);
  }

  /** The broker refines an append-only log, ends it at most once, and loses no wakeup, in every run. */
  lemma {:induction false} RunKeepsInv(sys: System, steps: seq<Step>, limit: nat)
    requires Inv(sys) && limit > 0
    ensures Inv(Run(sys, steps, limit))
    decreases |steps|
  {
    if steps != [] {
      NextKeepsInv(sys, steps[0], limit);
      RunKeepsInv(Next(sys, steps[0], limit), steps[1..], limit);
    }
  }

  lemma EveryRunIsALog(steps: seq<Step>, limit: nat)
    requires limit > 0
    ensures Inv(Run(Initial(), steps, limit))
  {
    RunKeepsInv(Initial(), steps, limit);
  }

  // ---------------------------------------------------------------- what is retained

  /** What a step appends: a message to an open stream, or the one end event that is owed. */
  function AppendedBy(sys: System, step: Step): seq<StreamEvent> {
    match step
    case Publish(_, event) => if event.end || Terminal(sys.stream.status) then [] else [event]
    case PublishEnd(_, code, detail) => if sys.owed == 0 then [] else [StreamEvent("", true, code, detail)]
    case _ => []
  }

  /** The step is an acknowledgement that the broker takes. */
  predicate Acknowledges(sys: System, step: Step) {
    && step.Deliver? && step.id in sys.readers && sys.readers[step.id].batch != []
    && CanAcknowledge(sys.stream, step.id, sys.readers[step.id].local + 1)
  }

  function Max(a: int, b: int): int { if a > b then a else b }

  lemma AppendMovesBase(sys: System, publisher: nat, event: StreamEvent, limit: nat)
    requires Inv(sys) && limit > 0 && Accepts(sys.stream, event)
    ensures var t := AppendTo(sys, publisher, event, limit);
            && t.log == sys.log + [event]
            && t.stream.base == if |sys.stream.subscribers| == 0 then Max(sys.stream.base, |sys.log| + 1 - limit)
                                else sys.stream.base
  {
    AppendRefines(sys.stream, sys.log, event, limit);
  }

  /** The base moves only back to 0 when the stream is opened again, to the lowest cursor at an
      acknowledgement, or past the excess over the limit when something is appended without subscribers. */
  lemma BaseMovesExactly(sys: System, step: Step, limit: nat)
    requires Inv(sys) && limit > 0
    ensures var t, more := Next(sys, step, limit), AppendedBy(sys, step);
            && t.log == (if step.Open? then [] else sys.log + more)
            && (if step.Open? then t.stream.base == 0
                else if Acknowledges(sys, step) then IsLowest(t.stream.base, t.stream.subscribers, |sys.log|)
                else if more != [] && |sys.stream.subscribers| == 0 then
                  t.stream.base == Max(sys.stream.base, |sys.log| + 1 - limit)
                else t.stream.base == sys.stream.base)
  {
    match step
    case Publish(publisher, event) =>
      if AppendedBy(sys, step) != [] { AppendMovesBase(sys, publisher, event, limit); }
    case PublishEnd(publisher, code, detail) =>
      if sys.owed > 0 { AppendMovesBase(sys, publisher, StreamEvent("", true, code, detail), limit); }
    case Deliver(id) =>
      if id in sys.readers && sys.readers[id].batch != [] { var t := DeliveredIs(sys, id); }
    case _ =>
  }

  /** No cursor of any subscriber is beyond `high`, at any point of the run. */
  ghost predicate CursorsUpTo(sys: System, steps: seq<Step>, high: nat, limit: nat)
    decreases |steps|
  {
    && (forall id :: id in sys.stream.subscribers ==> sys.stream.subscribers[id].cursor <= high)
    && (steps != [] ==> CursorsUpTo(Next(sys, steps[0], limit), steps[1..], high, limit))
  }

  lemma NextRetains(sys: System, step: Step, high: nat, limit: nat)
    requires Inv(sys) && limit > 0 && sys.stream.base <= Max(high, |sys.log| - limit)
    requires var t := Next(sys, step, limit);
             forall id :: id in t.stream.subscribers ==> t.stream.subscribers[id].cursor <= high
    ensures var t := Next(sys, step, limit);
            t.stream.base <= Max(high, |t.log| - limit)
  {
    BaseMovesExactly(sys, step, limit);
    NextKeepsInv(sys, step, limit);
    if Acknowledges(sys, step) { assert step.id in Next(sys, step, limit).stream.subscribers; }
  }

  /** In every run an event is dropped only if a cursor went past it, or `limit` newer ones followed. */
  lemma {:induction false} RunRetains(sys: System, steps: seq<Step>, high: nat, limit: nat)
    requires Inv(sys) && limit > 0 && sys.stream.base <= Max(high, |sys.log| - limit)
    requires CursorsUpTo(sys, steps, high, limit)
    ensures var t := Run(sys, steps, limit);
            t.stream.base <= Max(high, |t.log| - limit)
    decreases |steps|
  {
    if steps != [] {
      var t := Next(sys, steps[0], limit);
      assert CursorsUpTo(t, steps[1..], high, limit);
      NextRetains(sys, steps[0], high, limit);
      NextKeepsInv(sys, steps[0], limit);
      RunRetains(t, steps[1..], high, limit);
    }
  }

  /** So from a new stream everything from there on can be read. */
  lemma EveryRunRetains(steps: seq<Step>, high: nat, limit: nat, cursor: nat)
    requires limit > 0 && CursorsUpTo(Initial(), steps, high, limit)
    requires var t := Run(Initial(), steps, limit);
             Max(high, |t.log| - limit) <= cursor <= |t.log|
    ensures var t := Run(Initial(), steps, limit);
            ReadFrom(t.stream, cursor) == t.log[cursor..]
  {
    EveryRunIsALog(steps, limit);
    RunRetains(Initial(), steps, high, limit);
    var t := Run(Initial(), steps, limit);
    ReadIsLogSuffix(t.stream, t.log, cursor);
  }

  /** An open stream takes the status it is ended with first, and keeps it. */
  lemma FirstEndCounts(sys: System, step: Step, limit: nat)
    ensures Terminal(sys.stream.status) ==> Next(sys, step, limit).stream.status == sys.stream.status
    ensures !Terminal(sys.stream.status) && step.Finish? && Terminal(step.target)
            ==> Next(sys, step, limit).stream.status == step.target && Next(sys, step, limit).owed == sys.owed + 1
  {
    if step.Deliver? && step.id in sys.readers && sys.readers[step.id].batch != [] {
      assert Delivered(sys, step.id).stream.status == sys.stream.status;
    }
  }

  lemma SuffixEndsAlike(log: seq<StreamEvent>, from: nat)
    requires from < |log| && NoEnd(log[..|log| - 1])
    ensures Last(log[from..]) == Last(log) && NoEnd(log[from..][..|log| - from - 1])
  {
    var front := log[from..][..|log| - from - 1];
    forall i | 0 <= i < |front| ensures !front[i].end {
      assert front[i] == log[..|log| - 1][from + i];
    }
  }

  /** Whoever has not passed the end event yet reads it last, whatever was trimmed. */
  lemma UnreadEndIsReadLast(sys: System, cursor: nat)
    requires Inv(sys) && |sys.log| > 0 && Last(sys.log).end && HasUnread(sys.stream, cursor)
    ensures var events := ReadFrom(sys.stream, cursor);
            |events| > 0 && Last(events) == Last(sys.log) && NoEnd(events[..|events| - 1])
  {
    var from := if cursor < sys.stream.base then sys.stream.base else cursor;
    ReadIsLogSuffix(sys.stream, sys.log, cursor);
    assert from < |sys.log|;
    SuffixEndsAlike(sys.log, from);
  }

  // ---------------------------------------------------------------- what a reader receives

  /** The reader's own cursor is the one the broker keeps for it, and it delivered the log from
      `start` up to that cursor. */
  ghost predicate InStep(sys: System, id: string) {
    && id in sys.readers && id in sys.stream.subscribers
    && var r := sys.readers[id];
    && r.start <= r.local == sys.stream.subscribers[id].cursor
    && r.local + |r.batch| <= |sys.log|
    && r.batch == sys.log[r.local..r.local + |r.batch|]
    && r.delivered == sys.log[r.start..r.local]
  }

  predicate Disturbs(step: Step, id: string) {
    step.Open? || step == Unsubscribe(id)
  }

  lemma SliceStep(log: seq<StreamEvent>, start: nat, local: nat, batch: seq<StreamEvent>)
    requires start <= local && local + |batch| <= |log| && batch != [] && batch == log[local..local + |batch|]
    ensures batch[1..] == log[local + 1..local + |batch|]
    ensures log[start..local] + [batch[0]] == log[start..local + 1]
  {
  }

  lemma AcknowledgedKeepsInStep(sys: System, other: string, t: Stream, id: string)
    requires Inv(sys) && InStep(sys, id) && other in sys.readers && sys.readers[other].batch != []
    requires IsAcknowledgement(sys.stream, sys.log, other, sys.readers[other].local + 1, t)
    ensures InStep(Acked(sys, other, t, Sent(sys.readers[other])), id)
  {
    if other == id {
      var r := sys.readers[id];
      SliceStep(sys.log, r.start, r.local, r.batch);
      assert CanAcknowledge(sys.stream, id, r.local + 1);
    }
  }

  lemma DeliverKeepsInStep(sys: System, other: string, id: string)
    requires Inv(sys) && InStep(sys, id)
    ensures InStep(Delivered(sys, other), id)
  {
    if other in sys.readers && sys.readers[other].batch != [] {
      var t := DeliveredIs(sys, other);
      AcknowledgedKeepsInStep(sys, other, t, id);
    }
  }

  lemma AppendKeepsInStep(sys: System, publisher: nat, event: StreamEvent, id: string, limit: nat)
    requires Inv(sys) && limit > 0 && InStep(sys, id)
    ensures InStep(AppendTo(sys, publisher, event, limit), id)
  {
    if Accepts(sys.stream, event) {
      AppendRefines(sys.stream, sys.log, event, limit);
      var r := sys.readers[id];
      assert (sys.log + [event])[r.start..r.local] == sys.log[r.start..r.local];
      assert (sys.log + [event])[r.local..r.local + |r.batch|] == sys.log[r.local..r.local + |r.batch|];
    }
  }

  lemma FetchKeepsInStep(sys: System, other: string, id: string)
    requires Inv(sys) && InStep(sys, id)
    ensures InStep(Fetched(sys, other), id)
  {
    if other == id {
      ReadIsLogSuffix(sys.stream, sys.log, sys.readers[id].local);
    } else {
      assert Fetched(sys, other).readers[id] == sys.readers[id];
    }
  }

  lemma QuietStepKeepsInStep(sys: System, step: Step, id: string, limit: nat)
    requires InStep(sys, id) && !Disturbs(step, id)
    requires !step.Fetch? && !step.Deliver? && !step.Publish? && !step.PublishEnd?
    ensures InStep(Next(sys, step, limit), id)
  {
  }

  lemma PublishKeepsInStep(sys: System, step: Step, id: string, limit: nat)
    requires Inv(sys) && limit > 0 && InStep(sys, id) && (step.Publish? || step.PublishEnd?)
    ensures InStep(Next(sys, step, limit), id)
  {
    match step
    case Publish(publisher, event) => AppendKeepsInStep(sys, publisher, event, id, limit);
    case PublishEnd(publisher, code, detail) =>
      AppendKeepsInStep(sys, publisher, StreamEvent("", true, code, detail), id, limit);
  }

  lemma NextKeepsInStep(sys: System, step: Step, id: string, limit: nat)
    requires Inv(sys) && limit > 0 && InStep(sys, id) && !Disturbs(step, id)
    ensures InStep(Next(sys, step, limit), id)
  {
    if step.Fetch? {
      FetchKeepsInStep(sys, step.id, id);
    } else if step.Deliver? {
      DeliverKeepsInStep(sys, step.id, id);
    } else if step.Publish? || step.PublishEnd? {
      PublishKeepsInStep(sys, step, id, limit);
    } else {
      QuietStepKeepsInStep(sys, step, id, limit);
    }
  }

  /** Whatever the other participants do, the reader keeps receiving the log in order from its start. */
  lemma {:induction false} ReaderReceivesLogSlice(sys: System, steps: seq<Step>, id: string, limit: nat)
    requires Inv(sys) && limit > 0 && InStep(sys, id)
    requires forall i :: 0 <= i < |steps| ==> !Disturbs(steps[i], id)
    ensures InStep(Run(sys, steps, limit), id)
    decreases |steps|
  {
    if steps != [] {
      assert !Disturbs(steps[0], id);
      NextKeepsInv(sys, steps[0], limit);
      NextKeepsInStep(sys, steps[0], id, limit);
      ReaderReceivesLogSlice(Next(sys, steps[0], limit), steps[1..], id, limit);
    }
  }

  /** A fresh subscriber is in step exactly when it begins at the base cursor.  RunSSE begins at 0. */
  lemma FreshReaderInStep(sys: System, id: string, start: nat, limit: nat)
    requires Inv(sys) && limit > 0 && id !in sys.readers && !Terminal(sys.stream.status)
    ensures InStep(Next(sys, Subscribe(id, start), limit), id) <==> start == sys.stream.base
    ensures var subscribers := Next(sys, Subscribe(id, start), limit).stream.subscribers;
            subscribers == sys.stream.subscribers[id := Subscriber(sys.stream.base, false)]
  {
    assert Next(sys, Subscribe(id, start), limit).readers[id] == Reader(start, start, [], [], false);
  }

  /** The loop of RunSSE over one batch, when nobody else moves. */
  ghost function DeliverBatch(sys: System, id: string): System
    requires id in sys.readers
    decreases |sys.readers[id].batch|
  {
    if sys.readers[id].batch == [] then sys else DeliverBatch(Delivered(sys, id), id)
  }

  /** One more event of the batch was sent and acknowledged. */
  ghost predicate OneDelivered(sys: System, id: string, t: System)
    requires id in sys.readers && id in sys.stream.subscribers && sys.readers[id].batch != []
  {
    && Inv(t) && t.log == sys.log && t.stream.base >= sys.stream.base
    && id in t.readers && t.readers[id] == Sent(sys.readers[id])
    && t.stream.subscribers[id].cursor ==
         (if sys.readers[id].local + 1 > sys.stream.subscribers[id].cursor then sys.readers[id].local + 1
          else sys.stream.subscribers[id].cursor)
  }

  lemma DeliverOneEffect(sys: System, id: string) returns (t: System)
    requires Inv(sys) && id in sys.readers
    requires sys.readers[id].batch != [] && sys.readers[id].local < |sys.log|
    ensures t == Delivered(sys, id) && OneDelivered(sys, id, t)
  {
    t := Delivered(sys, id);
    var acknowledged := DeliveredIs(sys, id);
    DeliverKeepsInv(sys, id);
    assert t.stream == acknowledged && t.readers[id] == Sent(sys.readers[id]);
    assert CanAcknowledge(sys.stream, id, sys.readers[id].local + 1)
           <==> sys.stream.subscribers[id].cursor <= sys.readers[id].local + 1;
  }

  /** The whole batch was sent and acknowledged; what was delivered starts at `first`. */
  ghost predicate BatchDelivered(sys: System, id: string, first: nat, t: System)
    requires id in sys.readers && id in sys.stream.subscribers && first <= |sys.log|
  {
    && Inv(t) && t.log == sys.log && id in t.readers && t.stream.base >= sys.stream.base
    && t.readers[id].batch == [] && t.readers[id].delivered == sys.log[first..]
    && t.readers[id].waiting == (sys.readers[id].batch == [] && sys.readers[id].waiting)
    && t.readers[id].local == sys.readers[id].local + |sys.readers[id].batch|
    && t.stream.subscribers[id].cursor ==
         (if |sys.readers[id].batch| > 0 && t.readers[id].local > sys.stream.subscribers[id].cursor
          then t.readers[id].local else sys.stream.subscribers[id].cursor)
  }

  /** What the reader sent and has to send is the log from `first` on, and its own cursor may lag. */
  ghost predicate Lagging(sys: System, id: string, first: nat) {
    && id in sys.readers && first <= |sys.log|
    && sys.readers[id].local + |sys.readers[id].batch| <= |sys.log|
    && sys.readers[id].delivered + sys.readers[id].batch == sys.log[first..]
  }

  lemma LagsAfterOne(sys: System, id: string, first: nat, next: System)
    requires id in sys.stream.subscribers && Lagging(sys, id, first) && sys.readers[id].batch != []
    requires OneDelivered(sys, id, next)
    ensures Lagging(next, id, first)
  {
    var r := sys.readers[id];
    assert Sent(r).delivered + Sent(r).batch == r.delivered + r.batch;
  }

  /** Delivering a batch that is the rest of the log, by a reader whose own cursor may lag behind. */
  lemma {:induction false} DeliverBatchEffect(sys: System, id: string, first: nat)
    requires Inv(sys) && Lagging(sys, id, first)
    ensures BatchDelivered(sys, id, first, DeliverBatch(sys, id))
    decreases |sys.readers[id].batch|
  {
    var r := sys.readers[id];
    if r.batch != [] {
      var next := DeliverOneEffect(sys, id);
      LagsAfterOne(sys, id, first, next);
      DeliverBatchEffect(next, id, first);
      BatchAfterOne(sys, id, first, next, DeliverBatch(next, id));
    } else {
      assert r.delivered == r.delivered + r.batch;
    }
  }

  lemma BatchAfterOne(sys: System, id: string, first: nat, next: System, t: System)
    requires id in sys.readers && id in sys.stream.subscribers && sys.readers[id].batch != [] && first <= |sys.log|
    requires OneDelivered(sys, id, next) && BatchDelivered(next, id, first, t)
    ensures BatchDelivered(sys, id, first, t)
  {
  }

  // ---------------------------------------------------------------- RunSSE

  lemma {:induction false} RunThen(sys: System, steps: seq<Step>, more: seq<Step>, limit: nat)
    ensures Run(sys, steps + more, limit) == Run(Run(sys, steps, limit), more, limit)
    decreases |steps|
  {
    if steps == [] {
      assert steps + more == more;
    } else {
      assert (steps + more)[1..] == steps[1..] + more;
      RunThen(Next(sys, steps[0], limit), steps[1..], more, limit);
    }
  }

  predicate Undisturbed(steps: seq<Step>, id: string) {
    forall i :: 0 <= i < |steps| ==> !Disturbs(steps[i], id)
  }

  lemma {:induction false} DeliverBatchSends(sys: System, id: string)
    requires id in sys.readers
    ensures var t := DeliverBatch(sys, id);
            && id in t.readers && t.log == sys.log && t.readers[id].batch == []
            && t.readers[id].delivered == sys.readers[id].delivered + sys.readers[id].batch
    decreases |sys.readers[id].batch|
  {
    var r := sys.readers[id];
    if r.batch == [] {
      assert r.delivered + r.batch == r.delivered;
    } else {
      DeliverBatchSends(Delivered(sys, id), id);
      assert Sent(r).delivered + Sent(r).batch == r.delivered + r.batch;
    }
  }

  lemma {:induction false} DeliverBatchIsRun(sys: System, id: string, limit: nat) returns (steps: seq<Step>)
    requires id in sys.readers
    ensures Undisturbed(steps, id) && Run(sys, steps, limit) == DeliverBatch(sys, id)
    decreases |sys.readers[id].batch|
  {
    if sys.readers[id].batch == [] {
      steps := [];
    } else {
      var rest := DeliverBatchIsRun(Delivered(sys, id), id, limit);
      DeliverIsRun(sys, id, rest, limit);
      steps := [Deliver(id)] + rest;
    }
  }

  lemma DeliverIsRun(sys: System, id: string, rest: seq<Step>, limit: nat)
    requires Undisturbed(rest, id)
    ensures Undisturbed([Deliver(id)] + rest, id)
    ensures Run(sys, [Deliver(id)] + rest, limit) == Run(Delivered(sys, id), rest, limit)
  {
    assert ([Deliver(id)] + rest)[1..] == rest;
  }

  /** What the reader sent is a contiguous part of the log. */
  ghost predicate ReceivedSlice(sys: System, id: string) {
    id in sys.readers && exists a, b :: 0 <= a <= b <= |sys.log| && sys.readers[id].delivered == sys.log[a..b]
  }

  /** The reader sent an event twice that the log has once. */
  ghost predicate SentTwice(sys: System, id: string) {
    && id in sys.readers && sys.log != [] && Last(sys.log) !in sys.log[..|sys.log| - 1]
    && exists i, j :: 0 <= i < j < |sys.readers[id].delivered|
                      && sys.readers[id].delivered[i] == Last(sys.log) == sys.readers[id].delivered[j]
  }

  function Messages(log: seq<StreamEvent>): set<string> { set event | event in log :: event.message }

  lemma FetchIsRun(sys: System, id: string, read: System, rest: seq<Step>, t: System, limit: nat)
    requires read == Fetched(sys, id) && Undisturbed(rest, id) && Run(read, rest, limit) == t
    ensures Undisturbed([Fetch(id)] + rest, id) && Run(sys, [Fetch(id)] + rest, limit) == t
  {
    var steps := [Fetch(id)] + rest;
    assert steps[1..] == rest && Next(sys, steps[0], limit) == read;
  }

  /** A read by a reader that has nothing left to send: what the log holds from its cursor on. */
  lemma FetchedIs(sys: System, id: string) returns (from: nat, read: System)
    requires Inv(sys) && id in sys.readers && sys.readers[id].batch == [] && !sys.readers[id].waiting
    requires sys.readers[id].local < |sys.log| && sys.stream.base < |sys.log|
    ensures from == (if sys.readers[id].local < sys.stream.base then sys.stream.base else sys.readers[id].local)
    ensures read == Fetched(sys, id) && Inv(read) && read.log == sys.log && read.stream == sys.stream
    ensures id in read.readers && read.readers[id] == sys.readers[id].(batch := sys.log[from..], waiting := false)
  {
    from := if sys.readers[id].local < sys.stream.base then sys.stream.base else sys.readers[id].local;
    read := Fetched(sys, id);
    ReadIsLogSuffix(sys.stream, sys.log, sys.readers[id].local);
    FetchKeepsInv(sys, id);
  }

  /** A subscriber that counts from 0 although its subscription begins at the base. */
  ghost predicate CountsFromZero(sys: System, id: string) {
    && Inv(sys) && id in sys.readers && id in sys.stream.subscribers && sys.stream.base < |sys.log|
    && sys.readers[id] == Reader(0, 0, [], [], false) && sys.stream.subscribers[id].cursor == sys.stream.base
  }

  /** It has sent the log from the base on, and its own cursor is the number of events it sent. */
  ghost predicate SentOnce(sys: System, id: string, t: System) {
    && Inv(t) && t.log == sys.log && id in t.readers && t.readers[id].batch == [] && !t.readers[id].waiting
    && sys.stream.base < |sys.log| && t.readers[id].delivered == sys.log[sys.stream.base..]
    && t.readers[id].local == |sys.log| - sys.stream.base
    && (t.stream.base <= t.readers[id].local || t.stream.base <= sys.stream.base)
  }

  lemma BatchIsSentOnce(sys: System, id: string, read: System, t: System)
    requires CountsFromZero(sys, id) && read.log == sys.log && read.stream == sys.stream
    requires id in read.readers && read.readers[id] == Reader(0, 0, sys.log[sys.stream.base..], [], false)
    requires BatchDelivered(read, id, sys.stream.base, t)
    ensures SentOnce(sys, id, t)
  {
    assert t.stream.base <= t.stream.subscribers[id].cursor;
  }

  lemma ReadOnce(sys: System, id: string, limit: nat) returns (steps: seq<Step>)
    requires CountsFromZero(sys, id)
    ensures Undisturbed(steps, id) && SentOnce(sys, id, Run(sys, steps, limit))
  {
    var from, read := FetchedIs(sys, id);
    assert [] + read.readers[id].batch == sys.log[sys.stream.base..];
    DeliverBatchEffect(read, id, sys.stream.base);
    DeliverBatchSends(read, id);
    var rest := DeliverBatchIsRun(read, id, limit);
    var t := DeliverBatch(read, id);
    BatchIsSentOnce(sys, id, read, t);
    FetchIsRun(sys, id, read, rest, t, limit);
    steps := [Fetch(id)] + rest;
  }

  /** Something more was sent, and the last of it is the last event of the log. */
  ghost predicate SentLast(sys: System, id: string, t: System) {
    && id in sys.readers && id in t.readers && t.log == sys.log && |sys.log| > 0
    && sys.readers[id].delivered <= t.readers[id].delivered
    && |t.readers[id].delivered| > |sys.readers[id].delivered|
    && Last(t.readers[id].delivered) == Last(sys.log)
  }

  lemma BatchIsSentLast(sys: System, id: string, from: nat, t: System)
    requires id in sys.readers && id in t.readers && t.log == sys.log && from < |sys.log|
    requires t.readers[id].delivered == sys.readers[id].delivered + sys.log[from..]
    ensures SentLast(sys, id, t)
  {
  }

  lemma ReadAgain(sys: System, id: string, limit: nat) returns (steps: seq<Step>)
    requires Inv(sys) && id in sys.readers && sys.readers[id].batch == [] && !sys.readers[id].waiting
    requires sys.readers[id].local < |sys.log| && sys.stream.base < |sys.log|
    ensures Undisturbed(steps, id) && SentLast(sys, id, Run(sys, steps, limit))
  {
    var from, read := FetchedIs(sys, id);
    DeliverBatchSends(read, id);
    var rest := DeliverBatchIsRun(read, id, limit);
    var t := DeliverBatch(read, id);
    BatchIsSentLast(sys, id, from, t);
    FetchIsRun(sys, id, read, rest, t, limit);
    steps := [Fetch(id)] + rest;
  }

  /** In a log that holds it only at its end, an event has no place in a slice before another. */
  lemma OnlyAtEnd(log: seq<StreamEvent>, event: StreamEvent, a: nat, b: nat, i: nat, j: nat)
    requires event !in log && a <= b <= |log| + 1 && i < j < b - a
    ensures (log + [event])[a..b][i] != event
  {
    assert (log + [event])[a..b][i] == log[a + i];
  }

  lemma TwiceIsNoSlice(sys: System, id: string)
    requires SentTwice(sys, id)
    ensures !ReceivedSlice(sys, id)
  {
    var log, event, sent := sys.log[..|sys.log| - 1], Last(sys.log), sys.readers[id].delivered;
    var i, j :| 0 <= i < j < |sent| && sent[i] == event == sent[j];
    assert sys.log == log + [event];
    forall a, b | 0 <= a <= b <= |sys.log| ensures sent != sys.log[a..b] {
      if |sent| == b - a { OnlyAtEnd(log, event, a, b, i, j); }
    }
  }

  /** Sending twice what a message added, at the level of states. */
  lemma LastGoesOutTwice(published: System, id: string, once: System, twice: System, log: seq<StreamEvent>,
                         event: StreamEvent)
    requires SentOnce(published, id, once) && SentLast(once, id, twice)
    requires published.log == log + [event] && event !in log
    ensures SentTwice(twice, id)
  {
    var n := |once.readers[id].delivered|;
    assert once.readers[id].delivered[n - 1] == event;
    assert twice.readers[id].delivered[n - 1] == event;
    assert twice.readers[id].delivered[|twice.readers[id].delivered| - 1] == event;
    assert twice.log[..|twice.log| - 1] == log;
  }

  lemma PublishedCountsFromZero(joined: System, id: string, event: StreamEvent, limit: nat) returns (t: System)
    requires Inv(joined) && limit > 0 && id in joined.readers && !Terminal(joined.stream.status) && !event.end
    requires joined.readers[id] == Reader(0, 0, [], [], false)
    requires joined.stream.subscribers[id].cursor == joined.stream.base
    ensures t == Next(joined, Publish(0, event), limit) && CountsFromZero(t, id)
    ensures t.log == joined.log + [event] && t.stream.base == joined.stream.base
  {
    AppendKeepsInv(joined, 0, event, limit);
    t := AppendTo(joined, 0, event, limit);
    assert |joined.stream.subscribers| != 0;
  }

  /** One more message and nothing else makes a reader whose base is beyond 0 repeat itself. */
  lemma RepeatsWhatIsPublished(published: System, id: string, log: seq<StreamEvent>, event: StreamEvent, limit: nat)
    returns (steps: seq<Step>)
    requires CountsFromZero(published, id) && published.stream.base > 0
    requires published.log == log + [event] && event !in log
    ensures Undisturbed(steps, id) && SentTwice(Run(published, steps, limit), id)
  {
    var first := ReadOnce(published, id, limit);
    var once := Run(published, first, limit);
    var second := ReadAgain(once, id, limit);
    LastGoesOutTwice(published, id, once, Run(once, second, limit), log, event);
    RunThen(published, first, second, limit);
    steps := first + second;
  }

  lemma TrimmedReaderRepeats(joined: System, id: string, limit: nat) returns (steps: seq<Step>)
    requires Inv(joined) && limit > 0 && id in joined.readers && !Terminal(joined.stream.status)
    requires joined.readers[id] == Reader(0, 0, [], [], false)
    requires joined.stream.subscribers[id].cursor == joined.stream.base > 0
    ensures Undisturbed(steps, id) && SentTwice(Run(joined, steps, limit), id)
  {
    var message := LongerThanAll(Messages(joined.log));
    var event := StreamEvent(message, false, "", "");
    assert event in joined.log ==> event.message in Messages(joined.log);
    var published := PublishedCountsFromZero(joined, id, event, limit);
    var rest := RepeatsWhatIsPublished(published, id, joined.log, event, limit);
    steps := [Publish(0, event)] + rest;
    assert steps[1..] == rest && Next(joined, steps[0], limit) == published;
  }

  /** RunSSE begins at 0, where a subscription begins at the base cursor: whatever the others do it sends a
      contiguous part of the log, without repetition, exactly if the base cursor was 0 when it subscribed;
      otherwise some run makes it send an event twice. */
  lemma RunSseSendsOnceIffUntrimmed(sys: System, id: string, limit: nat)
    requires Inv(sys) && limit > 0 && id !in sys.readers && !Terminal(sys.stream.status)
    ensures var joined := Next(sys, Subscribe(id, 0), limit);
            (forall steps :: Undisturbed(steps, id) ==> ReceivedSlice(Run(joined, steps, limit), id))
            <==> sys.stream.base == 0
    ensures var joined := Next(sys, Subscribe(id, 0), limit);
            (exists steps :: Undisturbed(steps, id) && SentTwice(Run(joined, steps, limit), id))
            <==> sys.stream.base > 0
  {
    var joined := Next(sys, Subscribe(id, 0), limit);
    MembershipKeepsInv(sys, Subscribe(id, 0), limit);
    FreshReaderInStep(sys, id, 0, limit);
    if sys.stream.base == 0 {
      forall steps | Undisturbed(steps, id) ensures ReceivedSlice(Run(joined, steps, limit), id) {
        ReaderReceivesLogSlice(joined, steps, id, limit);
      }
      forall steps | Undisturbed(steps, id) ensures !SentTwice(Run(joined, steps, limit), id) {
        if SentTwice(Run(joined, steps, limit), id) { TwiceIsNoSlice(Run(joined, steps, limit), id); }
      }
    } else {
      var steps := TrimmedReaderRepeats(joined, id, limit);
      TwiceIsNoSlice(Run(joined, steps, limit), id);
    }
  }

  // ---------------------------------------------------------------- OpenStream under a connected reader

  /** After OpenStream the reader sends the batch it holds, `prior` with what it sent before, and then the new
      log from position `skip` on, where its own cursor still is. */
  ghost predicate Behind(sys: System, id: string, prior: seq<StreamEvent>, skip: nat) {
    && id in sys.readers && id in sys.stream.subscribers
    && var r := sys.readers[id];
    && sys.stream.subscribers[id].cursor <= r.local
    && (if r.local < skip then r.local + |r.batch| == skip && r.delivered + r.batch == prior
        else if r.local == skip && r.batch == [] then r.delivered == prior
        else r.local + |r.batch| <= |sys.log| && r.delivered == prior + sys.log[skip..r.local]
             && r.batch == sys.log[r.local..r.local + |r.batch|])
  }

  lemma SentIsBehind(r: Reader, log: seq<StreamEvent>, prior: seq<StreamEvent>, skip: nat)
    requires r.batch != [] && skip <= r.local && r.local + |r.batch| <= |log|
    requires r.delivered == prior + log[skip..r.local] && r.batch == log[r.local..r.local + |r.batch|]
    ensures Sent(r).delivered == prior + log[skip..r.local + 1]
    ensures Sent(r).batch == log[r.local + 1..r.local + |r.batch|]
  {
    SliceStep(log, skip, r.local, r.batch);
    assert prior + log[skip..r.local] + [r.batch[0]] == prior + (log[skip..r.local] + [r.batch[0]]);
  }

  lemma AcknowledgedStaysBehind(sys: System, other: string, t: Stream, id: string, prior: seq<StreamEvent>, skip: nat)
    requires Inv(sys) && Behind(sys, id, prior, skip) && other in sys.readers && sys.readers[other].batch != []
    requires IsAcknowledgement(sys.stream, sys.log, other, sys.readers[other].local + 1, t)
    ensures Behind(Acked(sys, other, t, Sent(sys.readers[other])), id, prior, skip)
  {
    if other == id {
      var r := sys.readers[id];
      if r.local < skip {
        assert Sent(r).delivered + Sent(r).batch == r.delivered + r.batch;
        assert Sent(r).batch == [] ==> Sent(r).delivered == Sent(r).delivered + Sent(r).batch;
      } else {
        SentIsBehind(r, sys.log, prior, skip);
      }
    }
  }

  lemma DeliverStaysBehind(sys: System, other: string, id: string, prior: seq<StreamEvent>, skip: nat)
    requires Inv(sys) && Behind(sys, id, prior, skip)
    ensures Behind(Delivered(sys, other), id, prior, skip)
  {
    if other in sys.readers && sys.readers[other].batch != [] {
      var t := DeliveredIs(sys, other);
      AcknowledgedStaysBehind(sys, other, t, id, prior, skip);
    }
  }

  lemma AppendStaysBehind(sys: System, publisher: nat, event: StreamEvent, id: string, limit: nat,
                          prior: seq<StreamEvent>, skip: nat)
    requires Behind(sys, id, prior, skip)
    ensures Behind(AppendTo(sys, publisher, event, limit), id, prior, skip)
  {
    var r := sys.readers[id];
    if r.local >= skip && !(r.local == skip && r.batch == []) {
      SliceStays(sys.log, event, skip, r.local);
      SliceStays(sys.log, event, r.local, r.local + |r.batch|);
    }
  }

  lemma SliceStays(log: seq<StreamEvent>, event: StreamEvent, a: nat, b: nat)
    requires a <= b <= |log|
    ensures (log + [event])[a..b] == log[a..b]
  {
  }

  lemma FetchStaysBehind(sys: System, other: string, id: string, prior: seq<StreamEvent>, skip: nat)
    requires Inv(sys) && Behind(sys, id, prior, skip)
    ensures Behind(Fetched(sys, other), id, prior, skip)
  {
    if other == id {
      var r := sys.readers[id];
      ReadIsLogSuffix(sys.stream, sys.log, r.local);
      if r.batch == [] && r.local == skip && r.local <= |sys.log| { assert prior + sys.log[skip..r.local] == prior; }
    } else {
      assert Fetched(sys, other).readers[id] == sys.readers[id];
    }
  }

  lemma QuietStepStaysBehind(sys: System, step: Step, id: string, limit: nat, prior: seq<StreamEvent>, skip: nat)
    requires Behind(sys, id, prior, skip) && !Disturbs(step, id)
    requires !step.Fetch? && !step.Deliver? && !step.Publish? && !step.PublishEnd?
    ensures Behind(Next(sys, step, limit), id, prior, skip)
  {
  }

  lemma NextStaysBehind(sys: System, step: Step, id: string, limit: nat, prior: seq<StreamEvent>, skip: nat)
    requires Inv(sys) && Behind(sys, id, prior, skip) && !Disturbs(step, id)
    ensures Behind(Next(sys, step, limit), id, prior, skip)
  {
    if step.Fetch? {
      FetchStaysBehind(sys, step.id, id, prior, skip);
    } else if step.Deliver? {
      DeliverStaysBehind(sys, step.id, id, prior, skip);
    } else if step.Publish? {
      AppendStaysBehind(sys, step.publisher, step.event, id, limit, prior, skip);
    } else if step.PublishEnd? {
      AppendStaysBehind(sys, step.publisher, StreamEvent("", true, step.code, step.detail), id, limit, prior, skip);
    } else {
      QuietStepStaysBehind(sys, step, id, limit, prior, skip);
    }
  }

  lemma {:induction false} RunStaysBehind(sys: System, steps: seq<Step>, id: string, limit: nat,
                                          prior: seq<StreamEvent>, skip: nat)
    requires Inv(sys) && limit > 0 && Behind(sys, id, prior, skip) && Undisturbed(steps, id)
    ensures Behind(Run(sys, steps, limit), id, prior, skip)
    decreases |steps|
  {
    if steps != [] {
      assert !Disturbs(steps[0], id);
      NextKeepsInv(sys, steps[0], limit);
      NextStaysBehind(sys, steps[0], id, limit, prior, skip);
      RunStaysBehind(Next(sys, steps[0], limit), steps[1..], id, limit, prior, skip);
    }
  }

  lemma ReopenedIsBehind(sys: System, id: string, limit: nat)
    requires Inv(sys) && id in sys.readers
    ensures var r := sys.readers[id];
            Behind(Next(sys, Open, limit), id, r.delivered + r.batch, r.local + |r.batch|)
  {
    assert Next(sys, Open, limit).readers[id] == sys.readers[id];
    assert sys.readers[id].delivered + [] == sys.readers[id].delivered;
  }

  /** A connected reader keeps its own cursor over OpenStream.  Whatever the others do it sends the rest of
      its batch and then the new log from that cursor on: it misses exactly as many first events of the new
      log as it had read before. */
  lemma ReopenedReaderSkips(sys: System, steps: seq<Step>, id: string, limit: nat)
    requires Inv(sys) && limit > 0 && id in sys.readers && Undisturbed(steps, id)
    ensures var r, t := sys.readers[id], Run(Next(sys, Open, limit), steps, limit);
            var skip := r.local + |r.batch|;
            && id in t.readers
            && var s := t.readers[id];
               && (s.local <= skip ==> s.delivered <= r.delivered + r.batch)
               && (s.local == skip ==> s.delivered == r.delivered + r.batch)
               && (s.local > skip ==> s.local <= |t.log| && s.delivered == r.delivered + r.batch + t.log[skip..s.local])
  {
    NextKeepsInv(sys, Open, limit);
    ReopenedIsBehind(sys, id, limit);
    var r := sys.readers[id];
    RunStaysBehind(Next(sys, Open, limit), steps, id, limit, r.delivered + r.batch, r.local + |r.batch|);
    var t := Run(Next(sys, Open, limit), steps, limit);
    assert t.readers[id].delivered <= t.readers[id].delivered + t.readers[id].batch;
  }

  /** Behind `prior` the reader sent the log from its start. */
  ghost predicate SendsFromStart(sys: System, id: string, prior: seq<StreamEvent>) {
    && id in sys.readers
    && (sys.readers[id].delivered <= prior
        || exists n: nat :: n <= |sys.log| && sys.readers[id].delivered == prior + sys.log[..n])
  }

  lemma {:induction false} PublishAll(sys: System, id: string, event: StreamEvent, count: nat, limit: nat)
    returns (steps: seq<Step>)
    requires id in sys.readers && id in sys.stream.subscribers && !Terminal(sys.stream.status) && !event.end
    ensures Undisturbed(steps, id)
    ensures var t := Run(sys, steps, limit);
            && t.readers == sys.readers && t.stream.status == sys.stream.status
            && t.stream.subscribers == sys.stream.subscribers
            && |t.log| == |sys.log| + count && sys.log <= t.log
            && forall i :: |sys.log| <= i < |t.log| ==> t.log[i] == event
    decreases count
  {
    if count == 0 {
      steps := [];
    } else {
      var next := Next(sys, Publish(0, event), limit);
      assert next.log == sys.log + [event];
      var rest := PublishAll(next, id, event, count - 1, limit);
      steps := [Publish(0, event)] + rest;
      assert steps[1..] == rest;
    }
  }

  /** One more event is sent once the log reaches beyond the reader. */
  lemma SendsOneMore(sys: System, id: string, limit: nat) returns (steps: seq<Step>)
    requires Inv(sys) && id in sys.readers && sys.readers[id].batch == []
    requires sys.stream.base <= sys.readers[id].local < |sys.log|
    ensures Undisturbed(steps, id)
    ensures var t := Run(sys, steps, limit);
            && id in t.readers && t.log == sys.log
            && t.readers[id].delivered == sys.readers[id].delivered + [sys.log[sys.readers[id].local]]
  {
    steps := [Tick(id), Fetch(id), Deliver(id)];
    var ticked := Next(sys, Tick(id), limit);
    WakeKeepsInv(sys, Tick(id), limit);
    assert ticked.readers[id] == sys.readers[id].(waiting := false);
    var from, read := FetchedIs(ticked, id);
    assert read.readers[id].batch == sys.log[from..];
    var t := Delivered(read, id);
    assert t.readers[id] == Sent(read.readers[id]);
    RunOne(read, Deliver(id), limit);
    FetchIsRun(ticked, id, read, [Deliver(id)], t, limit);
    assert steps[1..] == [Fetch(id)] + [Deliver(id)];
  }

  lemma RunOne(sys: System, step: Step, limit: nat)
    ensures Run(sys, [step], limit) == Next(sys, step, limit)
  {
    assert [step][1..] == [];
  }

  const ONE := StreamEvent("one", false, "", "")
  const MORE := StreamEvent("more", false, "", "")

  /** The new log gets one event more than the reader had read of the old one, and the last is all it sends. */
  lemma ReopenedReaderMisses(sys: System, id: string, limit: nat) returns (steps: seq<Step>)
    requires Inv(sys) && limit > 0 && id in sys.readers && !Terminal(sys.stream.status)
    requires sys.readers[id].local + |sys.readers[id].batch| > 0
    ensures Undisturbed(steps, id)
    ensures var prior := sys.readers[id].delivered + sys.readers[id].batch;
            !SendsFromStart(Run(Next(sys, Open, limit), steps, limit), id, prior)
  {
    var r, reopened := sys.readers[id], Next(sys, Open, limit);
    var prior, skip := r.delivered + r.batch, r.local + |r.batch|;
    NextKeepsInv(sys, Open, limit);
    ReopenedIsBehind(sys, id, limit);
    var first := PublishAll(reopened, id, ONE, 1, limit);
    var one := Run(reopened, first, limit);
    var second := PublishAll(one, id, MORE, skip, limit);
    RunThen(reopened, first, second, limit);
    var full := Run(one, second, limit);
    DeliverBatchSends(full, id);
    var third := DeliverBatchIsRun(full, id, limit);
    RunThen(reopened, first + second, third, limit);
    var sent := Run(full, third, limit);
    RunKeepsInv(reopened, first + second + third, limit);
    RunStaysBehind(reopened, first + second + third, id, limit, prior, skip);
    WholeBatchSent(sent, id, prior, skip);
    var fourth := SendsOneMore(sent, id, limit);
    RunThen(reopened, first + second + third, fourth, limit);
    steps := first + second + third + fourth;
    LateEventIsNotFirst(Run(sent, fourth, limit), id, prior);
  }

  lemma WholeBatchSent(sys: System, id: string, prior: seq<StreamEvent>, skip: nat)
    requires Behind(sys, id, prior, skip) && sys.readers[id].delivered == prior && skip < |sys.log|
    requires Inv(sys)
    ensures sys.stream.base <= sys.readers[id].local == skip
  {
  }

  lemma LateEventIsNotFirst(t: System, id: string, prior: seq<StreamEvent>)
    requires id in t.readers && t.readers[id].delivered == prior + [MORE] && |t.log| > 0 && t.log[0] == ONE
    ensures !SendsFromStart(t, id, prior)
  {
    assert |prior + [MORE]| > |prior|;
    forall n: nat | n <= |t.log| ensures t.readers[id].delivered != prior + t.log[..n] {
      assert |prior + t.log[..n]| == |prior| + n;
      assert n > 0 ==> (prior + t.log[..n])[|prior|] == ONE;
    }
  }

  lemma NothingSkipped(t: System, id: string, prior: seq<StreamEvent>)
    requires id in t.readers
    requires var s := t.readers[id];
             s.delivered == prior || (s.local <= |t.log| && s.delivered == prior + t.log[0..s.local])
    ensures SendsFromStart(t, id, prior)
  {
    var s := t.readers[id];
    if s.delivered != prior { assert t.log[0..s.local] == t.log[..s.local]; }
  }

  /** The new log is sent from its start, whatever the others do, exactly if the reader had read nothing. */
  lemma ReopenedReaderSendsNewLogIff(sys: System, id: string, limit: nat)
    requires Inv(sys) && limit > 0 && id in sys.readers && !Terminal(sys.stream.status)
    ensures var r, reopened := sys.readers[id], Next(sys, Open, limit);
            (forall steps :: Undisturbed(steps, id)
                             ==> SendsFromStart(Run(reopened, steps, limit), id, r.delivered + r.batch))
            <==> r.local + |r.batch| == 0
  {
    var r, reopened := sys.readers[id], Next(sys, Open, limit);
    if r.local + |r.batch| == 0 {
      forall steps | Undisturbed(steps, id)
        ensures SendsFromStart(Run(reopened, steps, limit), id, r.delivered + r.batch)
      {
        ReopenedReaderSkips(sys, steps, id, limit);
        NothingSkipped(Run(reopened, steps, limit), id, r.delivered + r.batch);
      }
    } else {
      var steps := ReopenedReaderMisses(sys, id, limit);
    }
  }

  // ---------------------------------------------------------------- such streams exist

  lemma {:induction false} PublishUnread(count: nat, limit: nat) returns (steps: seq<Step>)
    requires limit > 0
    ensures var t := Run(Initial(), steps, limit);
            && Inv(t) && t.readers == map[] && t.stream.subscribers == map[] && t.stream.status == Created
            && |t.log| == count && |t.stream.backlog| <= limit
  {
    if count == 0 {
      steps := [];
    } else {
      var front := PublishUnread(count - 1, limit);
      var t := Run(Initial(), front, limit);
      AppendKeepsInv(t, 0, ONE, limit);
      AppendRefines(t.stream, t.log, ONE, limit);
      RunOne(t, Publish(0, ONE), limit);
      RunThen(Initial(), front, [Publish(0, ONE)], limit);
      steps := front + [Publish(0, ONE)];
    }
  }

  /** An open stream whose base moved: its client was away while more came than the limit. */
  lemma TrimmedStreamIsReachable(limit: nat) returns (steps: seq<Step>)
    requires limit > 0
    ensures var t := Run(Initial(), steps, limit);
            Inv(t) && t.readers == map[] && !Terminal(t.stream.status) && t.stream.base > 0
  {
    steps := PublishUnread(limit + 1, limit);
  }

  /** And a connected reader that has read something before OpenStream. */
  lemma MovedReaderIsReachable(id: string, limit: nat) returns (steps: seq<Step>)
    requires limit > 0
    ensures var t := Run(Initial(), steps, limit);
            && Inv(t) && id in t.readers && !Terminal(t.stream.status)
            && t.readers[id].local + |t.readers[id].batch| > 0
  {
    steps := [Subscribe(id, 0), Publish(0, ONE), Fetch(id)];
    var joined := Next(Initial(), Subscribe(id, 0), limit);
    var published := Next(joined, Publish(0, ONE), limit);
    EveryRunIsALog(steps, limit);
    assert published.stream.backlog == [ONE];
    RunOne(published, Fetch(id), limit);
    assert steps[1..] == [Publish(0, ONE), Fetch(id)] && steps[1..][1..] == [Fetch(id)];
    assert Run(Initial(), steps, limit) == Run(joined, steps[1..], limit) == Run(published, [Fetch(id)], limit);
  }

  /** A reader that comes after the end has no subscription.  It gets the retained log, and the end event
      with it exactly if that was not trimmed. */
  lemma LateReaderSeesEndIff(sys: System)
    requires Inv(sys) && |sys.log| > 0 && Last(sys.log).end
    ensures ReadFrom(sys.stream, 0) == sys.log[sys.stream.base..]
    ensures sys.stream.base < |sys.log| <==> ReadFrom(sys.stream, 0) != [] && Last(ReadFrom(sys.stream, 0)).end
  {
    ReadIsLogSuffix(sys.stream, sys.log, 0);
    assert sys.stream.base < |sys.log| ==> Last(sys.log[sys.stream.base..]) == Last(sys.log);
  }
}
