/** Listeners of the codebase index: each repeatedly lists the events after the last one it sent, sends
    them, and waits for the signal of capacity one.  Registrations by anyone interleave freely. */
module IndexListener {
  import opened Common
  import opened CodebaseIndex

  datatype Where = Listing | Sending(batch: seq<Event>) | Waiting

  /** An event that reached the client, or that compaction dropped before the listener listed it. */
  datatype Item = Sent(event: Event) | Lost(event: Event)

  /** `seen` and `record` are history: up to event `seen` everything is in the record. */
  datatype Listener = Listener(indexId: string, at: Where, lastEventId: int, signal: bool,
                               seen: int, record: seq<Item>)

  /** The store's state, and the history of every event since it started. */
  datatype System = System(store: State, log: seq<Event>, listeners: map<nat, Listener>)

  datatype Step =
    | DoRegister(indexId: string, request: string, file: FileRecord, now: nat, saveFails: bool)
    | DoSubscribe(who: nat, indexId: string)
    | DoList(who: nat)
    | DoSend(who: nat)
    | DoWake(who: nat)
    | DoLeave(who: nat)

  /** The events of an index with ids in (after, upTo]. */
  function Span(events: seq<Event>, indexId: string, after: int, upTo: int): seq<Event> {
    if events == [] then []
    else
      var last := events[|events| - 1];
      Span(events[..|events| - 1], indexId, after, upTo)
      + if after < last.id <= upTo && last.indexId == indexId then [last] else []
  }

  function LostOnes(events: seq<Event>): seq<Item> {
    if events == [] then [] else LostOnes(events[..|events| - 1]) + [Lost(events[|events| - 1])]
  }

  function Events(record: seq<Item>): seq<Event> {
    if record == [] then [] else Events(record[..|record| - 1]) + [record[|record| - 1].event]
  }

  /** The id of the last event that compaction dropped. */
  function Horizon(s: State): int { s.nextEventId - 1 - |s.saved.events| }

  function Max(a: int, b: int): int { if a > b then a else b }

  function Signal(l: Listener, indexId: string): Listener {
    if l.indexId == indexId then l.(signal := true) else l
  }

  ghost function Listed(l: Listener, store: State, log: seq<Event>): Listener {
    var seen := Max(l.lastEventId, Horizon(store));
    l.(at := Sending(Matching(store.saved.events, l.indexId, l.lastEventId)),
       seen := seen,
       record := l.record + LostOnes(Span(log, l.indexId, l.seen, seen)))
  }

  ghost function SentOne(l: Listener): Listener
    requires l.at.Sending?
  {
    if l.at.batch == [] then l.(at := Waiting)
    else
      var e := l.at.batch[0];
      l.(at := Sending(l.at.batch[1..]), lastEventId := Max(e.id, l.lastEventId),
         seen := e.id, record := l.record + [Sent(e)])
  }

  ghost predicate Next(s: System, step: Step, t: System) {
    match step
    case DoRegister(indexId, request, file, now, saveFails) =>
      t == System(Registered(s.store, indexId, request, file, now),
                  s.log + [NewEvent(s.store, indexId, request, file, now)],
                  if saveFails then s.listeners
                  else map who | who in s.listeners :: Signal(s.listeners[who], indexId))
    case DoSubscribe(who, indexId) =>
      who !in s.listeners && t == s.(listeners := s.listeners[who := Listener(indexId, Listing, 0, false, 0, [])])
    case DoList(who) =>
      && who in s.listeners && s.listeners[who].at.Listing?
      && t == s.(listeners := s.listeners[who := Listed(s.listeners[who], s.store, s.log)])
    case DoSend(who) =>
      && who in s.listeners && s.listeners[who].at.Sending?
      && t == s.(listeners := s.listeners[who := SentOne(s.listeners[who])])
    case DoWake(who) =>
      && who in s.listeners && s.listeners[who].at.Waiting? && s.listeners[who].signal
      && t == s.(listeners := s.listeners[who := s.listeners[who].(at := Listing, signal := false)])
    case DoLeave(who) =>
      who in s.listeners && t == s.(listeners := s.listeners - {who})
  }

  // ---------------------------------------------------------------- invariants

  /** The store keeps the end of the log, and the log is numbered. */
  ghost predicate KeepsLog(store: State, log: seq<Event>) {
    && WellNumbered(store) && Numbered(log, store.nextEventId) && |log| < store.nextEventId
    && |store.saved.events| <= |log|
    && store.saved.events == log[|log| - |store.saved.events|..]
  }

  /** What a listener has dealt with, in order, followed by what it has not, is all there is for it. */
  ghost predicate Conserved(l: Listener, log: seq<Event>) {
    Matching(log, l.indexId, 0) == Events(l.record) + Matching(log, l.indexId, l.seen)
  }

  ghost predicate Placed(l: Listener, store: State, log: seq<Event>) {
    && 0 <= l.lastEventId <= l.seen <= Max(l.lastEventId, Horizon(store)) && l.lastEventId < store.nextEventId
    && (l.at.Sending? ==> l.at.batch <= Matching(log, l.indexId, l.seen))
  }

  /** A listener that would go on to wait, or waits, with something undelivered has a signal pending. */
  ghost predicate NoLostWakeup(l: Listener, log: seq<Event>) {
    && (l.at.Sending? && !l.signal ==> l.at.batch == Matching(log, l.indexId, l.seen))
    && (l.at.Waiting? && !l.signal ==> Matching(log, l.indexId, l.seen) == [])
  }

  ghost predicate Inv(s: System) {
    && KeepsLog(s.store, s.log)
    && forall who :: who in s.listeners
         ==> Conserved(s.listeners[who], s.log) && Placed(s.listeners[who], s.store, s.log)
  }

  ghost predicate Awake(s: System) {
    forall who :: who in s.listeners ==> NoLostWakeup(s.listeners[who], s.log)
  }

  // ---------------------------------------------------------------- lists of events

  lemma {:induction false} MatchingAdd(a: seq<Event>, b: seq<Event>, indexId: string, after: int)
    ensures Matching(a + b, indexId, after) == Matching(a, indexId, after) + Matching(b, indexId, after)
    decreases |b|
  {
    if b == [] {
      assert a + b == a;
    } else {
      assert (a + b)[..|a + b| - 1] == a + b[..|b| - 1];
      MatchingAdd(a, b[..|b| - 1], indexId, after);
    }
  }

  lemma {:induction false} NoneMatch(events: seq<Event>, indexId: string, after: int)
    requires forall i :: 0 <= i < |events| ==> events[i].id <= after
    ensures Matching(events, indexId, after) == []
  {
    if events != [] { NoneMatch(events[..|events| - 1], indexId, after); }
  }

  lemma {:induction false} MatchingAreLater(events: seq<Event>, indexId: string, after: int, e: Event)
    requires e in Matching(events, indexId, after)
    ensures e in events && e.id > after && e.indexId == indexId
  {
    if e in Matching(events[..|events| - 1], indexId, after) {
      MatchingAreLater(events[..|events| - 1], indexId, after, e);
      assert e in events[..|events| - 1];
    }
  }

  /** In a numbered log what comes after `after` is what comes up to `upTo` and then the rest. */
  lemma {:induction false} SplitAt(log: seq<Event>, next: int, indexId: string, after: int, upTo: int)
    requires Numbered(log, next) && after <= upTo
    ensures Matching(log, indexId, after) == Span(log, indexId, after, upTo) + Matching(log, indexId, upTo)
  {
    if log != [] {
      var init, last := log[..|log| - 1], log[|log| - 1];
      assert forall i :: 0 <= i < |init| ==> init[i] == log[i];
      SplitAt(init, next - 1, indexId, after, upTo);
      if last.id <= upTo { NoneMatch(init, indexId, upTo); }
    }
  }

  /** After its first event, what matches is what matches after that event. */
  lemma {:induction false} AfterFirst(log: seq<Event>, next: int, indexId: string, after: int)
    requires Numbered(log, next) && Matching(log, indexId, after) != []
    ensures var m := Matching(log, indexId, after);
            m == [m[0]] + Matching(log, indexId, m[0].id) && after < m[0].id < next
  {
    var init, last := log[..|log| - 1], log[|log| - 1];
    assert forall i :: 0 <= i < |init| ==> init[i] == log[i];
    if Matching(init, indexId, after) == [] {
      NoneMatch(init, indexId, last.id);
    } else {
      AfterFirst(init, next - 1, indexId, after);
    }
  }

  lemma {:induction false} EventsOfLost(record: seq<Item>, lost: seq<Event>)
    ensures Events(record + LostOnes(lost)) == Events(record) + lost
    decreases |lost|
  {
    if lost == [] {
      assert record + LostOnes(lost) == record;
    } else {
      var l := LostOnes(lost);
      assert (record + l)[..|record + l| - 1] == record + LostOnes(lost[..|lost| - 1]);
      EventsOfLost(record, lost[..|lost| - 1]);
    }
  }

  /** ListEvents on the compacted log gives the matching events of the whole log, exactly if compaction
      dropped none of them. */
  lemma ListIsCompleteIff(store: State, log: seq<Event>, indexId: string, after: int)
    requires KeepsLog(store, log)
    ensures Matching(store.saved.events, indexId, after) == Matching(log, indexId, after)
            <==> Span(log, indexId, after, Horizon(store)) == []
    ensures after >= Horizon(store) ==> Matching(store.saved.events, indexId, after) == Matching(log, indexId, after)
    ensures Matching(store.saved.events, indexId, after) == Matching(log, indexId, Max(after, Horizon(store)))
  {
    var h := Max(after, Horizon(store));
    var dropped, kept := log[..|log| - |store.saved.events|], store.saved.events;
    assert log == dropped + kept;
    MatchingAdd(dropped, kept, indexId, h);
    NoneMatch(dropped, indexId, h);
    KeptMatch(kept, indexId, after, h);
    if after < h {
      SplitAt(log, store.nextEventId, indexId, after, h);
    } else {
      SpanIsEmpty(log, indexId, after, Horizon(store));
    }
  }

  lemma {:induction false} KeptMatch(kept: seq<Event>, indexId: string, after: int, h: int)
    requires after <= h && forall i :: 0 <= i < |kept| ==> kept[i].id > h || after == h
    ensures Matching(kept, indexId, after) == Matching(kept, indexId, h)
  {
    if kept != [] { KeptMatch(kept[..|kept| - 1], indexId, after, h); }
  }

  lemma {:induction false} SpanIsEmpty(events: seq<Event>, indexId: string, after: int, upTo: int)
    requires after >= upTo
    ensures Span(events, indexId, after, upTo) == []
  {
    if events != [] { SpanIsEmpty(events[..|events| - 1], indexId, after, upTo); }
  }

  // ---------------------------------------------------------------- steps

  lemma RegisterKeepsLog(store: State, log: seq<Event>, indexId: string, request: string, file: FileRecord, now: nat)
    requires KeepsLog(store, log)
    ensures KeepsLog(Registered(store, indexId, request, file, now),
                     log + [NewEvent(store, indexId, request, file, now)])
    ensures Horizon(Registered(store, indexId, request, file, now)) >= Horizon(store)
  {
    RegisterKeepsNumbering(store, indexId, request, file, now);
    var e := NewEvent(store, indexId, request, file, now);
    var dropped := log[..|log| - |store.saved.events|];
    assert log == dropped + store.saved.events;
    var all := store.saved.events + [e];
    assert log + [e] == dropped + all;
    var after := Compacted(all);
    assert (log + [e])[|log + [e]| - |after|..] == after;
  }

  lemma RegisterKeepsListener(l: Listener, log: seq<Event>, next: int, e: Event)
    requires Numbered(log, next) && e.id == next && 0 <= l.seen < next && Conserved(l, log)
    ensures Conserved(l, log + [e])
    ensures Matching(log + [e], l.indexId, l.seen)
            == Matching(log, l.indexId, l.seen) + if e.indexId == l.indexId then [e] else []
  {
    MatchingAdd(log, [e], l.indexId, l.seen);
    MatchingAdd(log, [e], l.indexId, 0);
    assert Matching([e], l.indexId, l.seen) == (if e.indexId == l.indexId then [e] else []) by {
      assert [e][..0] == [];
    }
    assert Matching([e], l.indexId, 0) == (if e.indexId == l.indexId then [e] else []) by { assert [e][..0] == []; }
  }

  lemma LosingConserves(l: Listener, log: seq<Event>, next: int, seen: int)
    requires Numbered(log, next) && l.seen <= seen && Conserved(l, log)
    ensures Matching(log, l.indexId, 0)
            == Events(l.record + LostOnes(Span(log, l.indexId, l.seen, seen))) + Matching(log, l.indexId, seen)
  {
    SplitAt(log, next, l.indexId, l.seen, seen);
    EventsOfLost(l.record, Span(log, l.indexId, l.seen, seen));
  }

  lemma ListedKeeps(l: Listener, store: State, log: seq<Event>)
    requires KeepsLog(store, log) && Conserved(l, log) && Placed(l, store, log) && l.at.Listing?
    ensures var m := Listed(l, store, log);
            Conserved(m, log) && Placed(m, store, log) && NoLostWakeup(m, log)
  {
    ListIsCompleteIff(store, log, l.indexId, l.lastEventId);
    LosingConserves(l, log, store.nextEventId, Max(l.lastEventId, Horizon(store)));
  }

  lemma SentKeeps(l: Listener, store: State, log: seq<Event>)
    requires KeepsLog(store, log) && Conserved(l, log) && Placed(l, store, log) && l.at.Sending?
    ensures var m := SentOne(l);
            Conserved(m, log) && Placed(m, store, log) && (NoLostWakeup(l, log) ==> NoLostWakeup(m, log))
  {
    if l.at.batch != [] {
      var m := Matching(log, l.indexId, l.seen);
      AfterFirst(log, store.nextEventId, l.indexId, l.seen);
      var e := l.at.batch[0];
      assert e == m[0];
      assert (l.record + [Sent(e)])[..|l.record|] == l.record;
      assert Events(l.record + [Sent(e)]) == Events(l.record) + [e];
      assert l.at.batch[1..] <= m[1..];
      assert m[1..] == Matching(log, l.indexId, e.id);
    }
  }

  lemma SubscribedIsKept(l: Listener, store: State, log: seq<Event>)
    requires KeepsLog(store, log) && l == Listener(l.indexId, Listing, 0, false, 0, [])
    ensures Conserved(l, log) && Placed(l, store, log) && NoLostWakeup(l, log)
  {
  }

  lemma RegisteredKeeps(l: Listener, store: State, log: seq<Event>, e: Event, after: State, told: bool)
    requires Numbered(log, store.nextEventId) && e.id == store.nextEventId && |store.saved.events| < store.nextEventId
    requires after.nextEventId == store.nextEventId + 1 && Horizon(after) >= Horizon(store)
    requires Conserved(l, log) && Placed(l, store, log)
    ensures var m := if told then Signal(l, e.indexId) else l;
            && Conserved(m, log + [e]) && Placed(m, after, log + [e])
            && (told && NoLostWakeup(l, log) ==> NoLostWakeup(m, log + [e]))
            && (NoLostWakeup(l, log)
                ==> (NoLostWakeup(m, log + [e]) <==> m.signal || m.at.Listing? || l.indexId != e.indexId))
  {
    RegisterKeepsListener(l, log, store.nextEventId, e);
  }

  lemma RegisterStepKeepsInv(s: System, step: Step, t: System)
    requires Inv(s) && step.DoRegister? && Next(s, step, t)
    ensures Inv(t)
    ensures Awake(s) && !step.saveFails ==> Awake(t)
    ensures Awake(s) && step.saveFails
            ==> (Awake(t) <==> forall who :: who in s.listeners && s.listeners[who].indexId == step.indexId
                                             ==> s.listeners[who].signal || s.listeners[who].at.Listing?)
  {
    RegisterKeepsLog(s.store, s.log, step.indexId, step.request, step.file, step.now);
    var e := NewEvent(s.store, step.indexId, step.request, step.file, step.now);
    forall who | who in s.listeners
      ensures Conserved(t.listeners[who], t.log) && Placed(t.listeners[who], t.store, t.log)
      ensures Awake(s) && !step.saveFails ==> NoLostWakeup(t.listeners[who], t.log)
      ensures Awake(s) && step.saveFails
              ==> (NoLostWakeup(t.listeners[who], t.log)
                   <==> s.listeners[who].signal || s.listeners[who].at.Listing?
                         || s.listeners[who].indexId != step.indexId)
    {
      RegisteredKeeps(s.listeners[who], s.store, s.log, e, t.store, !step.saveFails);
      assert Awake(s) ==> NoLostWakeup(s.listeners[who], s.log);
    }
  }

  /** One listener moved, and the rest of the system did not. */
  lemma MoveKeepsInv(s: System, who: nat, l: Listener, t: System)
    requires Inv(s) && t == s.(listeners := s.listeners[who := l])
    requires Conserved(l, s.log) && Placed(l, s.store, s.log)
    ensures Inv(t) && (Awake(s) && NoLostWakeup(l, s.log) ==> Awake(t))
  {
  }

  /** Every step keeps the log and the record of every listener. */
  lemma NextKeepsInv(s: System, step: Step, t: System)
    requires Inv(s) && Next(s, step, t)
    ensures Inv(t)
    ensures Awake(s) && !(step.DoRegister? && step.saveFails) ==> Awake(t)
  {
    match step
    case DoRegister(_, _, _, _, _) => RegisterStepKeepsInv(s, step, t);
    case DoSubscribe(who, indexId) =>
      SubscribedIsKept(t.listeners[who], s.store, s.log);
      MoveKeepsInv(s, who, t.listeners[who], t);
    case DoList(who) =>
      ListedKeeps(s.listeners[who], s.store, s.log);
      MoveKeepsInv(s, who, t.listeners[who], t);
    case DoSend(who) =>
      SentKeeps(s.listeners[who], s.store, s.log);
      assert Awake(s) ==> NoLostWakeup(s.listeners[who], s.log);
      MoveKeepsInv(s, who, t.listeners[who], t);
    case DoWake(who) => MoveKeepsInv(s, who, t.listeners[who], t);
    case DoLeave(_) =>
  }

  ghost predicate Run(states: seq<System>, steps: seq<Step>) {
    && |states| == |steps| + 1
    && forall i :: 0 <= i < |steps| ==> Next(states[i], steps[i], states[i + 1])
  }

  /** A store that has just started, over what it finds on disk. */
  ghost predicate Started(s: System) {
    WellNumbered(s.store) && s.log == s.store.saved.events && s.listeners == map[]
  }

  lemma {:induction false} EveryRunKeepsInv(states: seq<System>, steps: seq<Step>, k: nat)
    requires Run(states, steps) && Started(states[0]) && k <= |steps|
    ensures Inv(states[k])
    ensures (forall i :: 0 <= i < k && steps[i].DoRegister? ==> !steps[i].saveFails) ==> Awake(states[k])
  {
    if k > 0 {
      EveryRunKeepsInv(states, steps, k - 1);
      NextKeepsInv(states[k - 1], steps[k - 1], states[k]);
    }
  }

  /** Over every run in which saves succeed, a listener that waits unsignalled has been through the whole
      log of its index: every event, once and in order, was sent or had been dropped by compaction. */
  lemma WaitingListenerIsUpToDate(states: seq<System>, steps: seq<Step>, k: nat, who: nat)
    requires Run(states, steps) && Started(states[0]) && k <= |steps|
    requires forall i :: 0 <= i < k && steps[i].DoRegister? ==> !steps[i].saveFails
    requires who in states[k].listeners && states[k].listeners[who].at.Waiting? && !states[k].listeners[who].signal
    ensures Events(states[k].listeners[who].record) == Matching(states[k].log, states[k].listeners[who].indexId, 0)
  {
    EveryRunKeepsInv(states, steps, k);
    assert NoLostWakeup(states[k].listeners[who], states[k].log);
  }

  /** Listing loses nothing as long as compaction has not passed the last event sent; in general it
      loses exactly the dropped events that were not dealt with. */
  lemma ListingLosesNothingIff(l: Listener, store: State, log: seq<Event>)
    requires KeepsLog(store, log) && Placed(l, store, log) && Conserved(l, log)
    ensures Listed(l, store, log).record == l.record <==> Span(log, l.indexId, l.seen, Horizon(store)) == []
    ensures l.lastEventId >= Horizon(store) ==> Listed(l, store, log).record == l.record
  {
    var seen := Max(l.lastEventId, Horizon(store));
    LostLength(Span(log, l.indexId, l.seen, seen));
    if l.lastEventId >= Horizon(store) {
      SpanIsEmpty(log, l.indexId, l.seen, seen);
      SpanIsEmpty(log, l.indexId, l.seen, Horizon(store));
    }
  }

  lemma {:induction false} LostLength(events: seq<Event>)
    ensures |LostOnes(events)| == |events|
  {
    if events != [] { LostLength(events[..|events| - 1]); }
  }
}
