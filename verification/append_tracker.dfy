/** The tracker of append sequences over all its objects: a call looks up the object of its request, which
    may evict others, and only later acquires.  An evicted object lives on with the calls that have it. */
module AppendTracker {
  import opened AppendSequence

  /** One object, for the request it was made for. */
  datatype Object = Object(id: string, sys: System)

  /** A call that has its object and has not yet acquired. */
  datatype Call = Call(at: nat, number: int)

  datatype World = World(objects: seq<Object>, table: map<string, nat>, held: map<nat, Call>, clock: nat)

  const Empty := World([], map[], map[], 0)

  datatype Move =
    | Lookup(caller: nat, id: string, number: int, now: nat)
    | Enter(caller: nat, now: nat)
    | Resume(caller: nat, k: nat, now: nat)
    | GiveUp(caller: nat, k: nat)
    | Leave(caller: nat, k: nat, now: nat)

  predicate WellFormed(w: World) {
    && (forall id :: id in w.table ==> w.table[id] < |w.objects|)
    && (forall c :: c in w.held ==> w.held[c].at < |w.objects|)
  }

  function StateOf(w: World, k: nat): State
    requires k < |w.objects|
  {
    w.objects[k].sys.state
  }

  function Pruning(w: World, cutoff: int): map<string, nat>
    requires WellFormed(w)
  {
    map id | id in w.table && !Expired(StateOf(w, w.table[id]), cutoff) :: w.table[id]
  }

  function With(w: World, k: nat, sys: System): World
    requires k < |w.objects|
  {
    w.(objects := w.objects[k := w.objects[k].(sys := sys)])
  }

  /** tracker.state: evict, then touch the object of the request or make one. */
  function LookUp(w: World, caller: nat, id: string, number: int, now: nat): World
    requires WellFormed(w)
  {
    var table := Pruning(w, now - RETENTION);
    if id in table then
      var k := table[id];
      With(w, k, AppendSequence.Next(w.objects[k].sys, Step.Touch(now)))
        .(table := table, held := w.held[caller := Call(k, number)], clock := now)
    else
      var k := |w.objects|;
      World(w.objects + [Object(id, System(Fresh(now), map[], map[], []))], table[id := k],
            w.held[caller := Call(k, number)], now)
  }

  predicate Absent(sys: System, caller: nat) { caller !in sys.waiting && caller !in sys.tickets }

  /** Every call has a caller of its own. */
  predicate Idle(w: World, caller: nat) {
    caller !in w.held && forall k :: 0 <= k < |w.objects| ==> Absent(w.objects[k].sys, caller)
  }

  /** A move that is not possible, or goes back in time, changes nothing. */
  function Next(w: World, move: Move): World
    requires WellFormed(w)
  {
    match move
    case Lookup(caller, id, number, now) =>
      if !Idle(w, caller) || number <= 0 || id == "" || now < w.clock then w else LookUp(w, caller, id, number, now)
    case Enter(caller, now) =>
      if caller !in w.held || now < w.clock then w
      else
        var call := w.held[caller];
        With(w, call.at, AppendSequence.Next(w.objects[call.at].sys, Acquire(caller, call.number, now)))
          .(held := w.held - {caller}, clock := now)
    case Resume(caller, k, now) =>
      if k >= |w.objects| || now < w.clock then w
      else With(w, k, AppendSequence.Next(w.objects[k].sys, Retry(caller, now))).(clock := now)
    case GiveUp(caller, k) =>
      if k >= |w.objects| then w else With(w, k, AppendSequence.Next(w.objects[k].sys, Abandon(caller)))
    case Leave(caller, k, now) =>
      if k >= |w.objects| || now < w.clock then w
      else With(w, k, AppendSequence.Next(w.objects[k].sys, Step.Release(caller, now))).(clock := now)
  }

  // ---------------------------------------------------------------- every run

  ghost predicate Inv(w: World) {
    && WellFormed(w)
    && (forall k :: 0 <= k < |w.objects| ==> AppendSequence.Inv(w.objects[k].sys))
    && TableRight(w)
    && (forall c :: c in w.held ==> w.held[c].number > 0)
    && Separate(w)
  }

  ghost predicate Separate(w: World) {
    forall c, k :: c in w.held && 0 <= k < |w.objects| ==> Absent(w.objects[k].sys, c)
  }

  /** Only the caller of a step can come to wait or to hold a ticket by it. */
  lemma OnlyTheCaller(sys: System, step: Step, c: nat)
    requires Absent(sys, c) && (step.Acquire? ==> step.caller != c)
    ensures Absent(AppendSequence.Next(sys, step), c)
  {
  }

  lemma NextKeepsSeparate(w: World, move: Move)
    requires WellFormed(w) && Separate(w)
    ensures Separate(Next(w, move))
  {
    var t := Next(w, move);
    forall c, k | c in t.held && 0 <= k < |t.objects| ensures Absent(t.objects[k].sys, c) {
      match move
      case Lookup(caller, id, number, now) =>
        if k < |w.objects| { OnlyTheCaller(w.objects[k].sys, Step.Touch(now), c); }
      case Enter(caller, now) =>
        if caller in w.held && caller != c {
          OnlyTheCaller(w.objects[k].sys, Acquire(caller, w.held[caller].number, now), c);
        }
      case Resume(caller, j, now) => OnlyTheCaller(w.objects[k].sys, Retry(caller, now), c);
      case GiveUp(caller, j) => OnlyTheCaller(w.objects[k].sys, Abandon(caller), c);
      case Leave(caller, j, now) => OnlyTheCaller(w.objects[k].sys, Step.Release(caller, now), c);
    }
  }

  /** What a move does to one object is a step of it, or nothing. */
  lemma ObjectKeepsInv(w: World, move: Move, k: nat)
    requires WellFormed(w) && k < |w.objects| && AppendSequence.Inv(w.objects[k].sys)
    ensures var t := Next(w, move);
            k < |t.objects| && t.objects[k].id == w.objects[k].id && AppendSequence.Inv(t.objects[k].sys)
  {
    var sys := w.objects[k].sys;
    match move
    case Lookup(_, _, _, now) => AppendSequence.NextKeepsInv(sys, Step.Touch(now));
    case Enter(caller, now) =>
      if caller in w.held { AppendSequence.NextKeepsInv(sys, Acquire(caller, w.held[caller].number, now)); }
    case Resume(caller, _, now) => AppendSequence.NextKeepsInv(sys, Retry(caller, now));
    case GiveUp(caller, _) => AppendSequence.NextKeepsInv(sys, Abandon(caller));
    case Leave(caller, _, now) => AppendSequence.NextKeepsInv(sys, Step.Release(caller, now));
  }

  lemma NewObjectOk(w: World, move: Move, k: nat)
    requires WellFormed(w) && |w.objects| <= k < |Next(w, move).objects|
    ensures AppendSequence.Inv(Next(w, move).objects[k].sys)
  {
    AppendSequence.EveryRunKeepsInv([], move.now);
    assert Next(w, move).objects[k].sys == AppendSequence.Run(System(Fresh(move.now), map[], map[], []), []);
  }

  ghost predicate TableRight(w: World) {
    forall id :: id in w.table ==> w.table[id] < |w.objects| && w.objects[w.table[id]].id == id
  }

  lemma LookupKeepsTable(w: World, caller: nat, id: string, number: int, now: nat)
    requires WellFormed(w) && TableRight(w)
    ensures WellFormed(LookUp(w, caller, id, number, now)) && TableRight(LookUp(w, caller, id, number, now))
  {
    var t := LookUp(w, caller, id, number, now);
    forall key | key in t.table && key != id ensures t.table[key] < |w.objects| && t.objects[t.table[key]].id == key {
      assert key in w.table && t.table[key] == w.table[key];
    }
  }

  lemma TableStaysRight(w: World, move: Move)
    requires WellFormed(w) && TableRight(w)
    ensures WellFormed(Next(w, move)) && TableRight(Next(w, move))
  {
    match move
    case Lookup(caller, id, number, now) => LookupKeepsTable(w, caller, id, number, now);
    case _ =>
  }

  lemma NextKeepsInv(w: World, move: Move)
    requires Inv(w)
    ensures Inv(Next(w, move))
  {
    var t := Next(w, move);
    TableStaysRight(w, move);
    forall k | 0 <= k < |t.objects| ensures AppendSequence.Inv(t.objects[k].sys) {
      if k < |w.objects| { ObjectKeepsInv(w, move, k); } else { NewObjectOk(w, move, k); }
    }
    NextKeepsSeparate(w, move);
  }

  function Run(w: World, moves: seq<Move>): World
    requires Inv(w)
    decreases |moves|
  {
    if moves == [] then w
    else
      NextKeepsInv(w, moves[0]);
      Run(Next(w, moves[0]), moves[1..])
  }

  /** In every run of lookups, evictions, admissions and releases, on every object that ever was: one ticket
      at most is out, admissions are in order, and no wakeup is lost. */
  lemma {:induction false} RunKeepsInv(w: World, moves: seq<Move>)
    requires Inv(w)
    ensures Inv(Run(w, moves))
    decreases |moves|
  {
    if moves != [] {
      NextKeepsInv(w, moves[0]);
      RunKeepsInv(Next(w, moves[0]), moves[1..]);
    }
  }

  lemma EveryRunKeepsInv(moves: seq<Move>)
    ensures Inv(Empty) && Inv(Run(Empty, moves))
  {
    assert Inv(Empty);
    RunKeepsInv(Empty, moves);
  }

  /** The states the table shows. */
  function Shown(w: World): map<string, State>
    requires WellFormed(w)
  {
    map id | id in w.table :: StateOf(w, w.table[id])
  }

  lemma OtherObject(w: World, key: string, id: string)
    requires Inv(w) && key in w.table && key != id
    ensures id in w.table ==> w.table[key] != w.table[id]
  {
    assert w.objects[w.table[key]].id == key;
    if id in w.table { assert w.objects[w.table[id]].id == id; }
  }

  /** What the table shows after a lookup is what the tracker's own lookup leaves. */
  lemma LookupShows(w: World, caller: nat, id: string, number: int, now: nat, key: string)
    requires Inv(w)
    ensures var t, expected := LookUp(w, caller, id, number, now), LookedUp(Shown(w), id, now);
            && WellFormed(t) && (key in t.table <==> key in expected)
            && (key in t.table ==> StateOf(t, t.table[key]) == expected[key])
  {
    if key in w.table && key != id { OtherObject(w, key, id); }
  }

  predicate Reachable(w: World, k: nat) { exists id :: id in w.table && w.table[id] == k }

  /** A lookup takes an object out of reach exactly if it has no ticket out and was not used for the
      retention time; the calls blocked on it stay where they are. */
  lemma LookupEvictsIff(w: World, caller: nat, id: string, number: int, now: nat, k: nat)
    requires Inv(w) && Reachable(w, k)
    ensures var t := LookUp(w, caller, id, number, now);
            && (!Reachable(t, k) <==> !StateOf(w, k).processing && StateOf(w, k).updatedAt < now - RETENTION)
            && t.objects[k].sys.waiting == w.objects[k].sys.waiting
            && t.objects[k].sys.tickets == w.objects[k].sys.tickets
  {
    var t := LookUp(w, caller, id, number, now);
    var key :| key in w.table && w.table[key] == k;
    if !Expired(StateOf(w, k), now - RETENTION) {
      assert key in t.table && t.table[key] == k;
    }
  }

  /** In every run an object whose ticket is out stays in reach, step by step until it is released. */
  lemma TicketStaysInReach(w: World, move: Move, k: nat)
    requires Inv(w) && Reachable(w, k) && w.objects[k].sys.tickets != map[]
    ensures k < |Next(w, move).objects| && Reachable(Next(w, move), k)
  {
    var key :| key in w.table && w.table[key] == k;
    assert StateOf(w, k).processing;
    if move.Lookup? {
      LookupEvictsIff(w, move.caller, move.id, move.number, move.now, k);
    } else {
      assert key in Next(w, move).table && Next(w, move).table[key] == k;
    }
  }

  /** Nobody finds an evicted object again. */
  lemma {:induction false} EvictedStaysOut(w: World, moves: seq<Move>, k: nat)
    requires Inv(w) && k < |w.objects| && !Reachable(w, k)
    ensures Inv(Run(w, moves)) && k < |Run(w, moves).objects| && !Reachable(Run(w, moves), k)
    decreases |moves|
  {
    if moves != [] {
      NextKeepsInv(w, moves[0]);
      EvictedStaysOut(Next(w, moves[0]), moves[1..], k);
    }
  }

  // ---------------------------------------------------------------- what an evicted object can still do

  /** A number the object would admit. */
  predicate Admits(s: State, number: int) {
    var d := Decide(s, number);
    d.Admitted? || d.Restarted?
  }

  /** A call that has the object, or may come back to it, with a number it would admit. */
  ghost predicate CanEnter(w: World, k: nat)
    requires k < |w.objects|
  {
    var sys := w.objects[k].sys;
    || (exists c :: c in w.held && w.held[c].at == k && Admits(sys.state, w.held[c].number))
    || (exists c :: c in sys.waiting && sys.waiting[c].channel < sys.state.ready
                    && Admits(sys.state, sys.waiting[c].number))
  }

  /** Out of reach, without a ticket and without anybody who could get one. */
  ghost predicate Dead(w: World, k: nat) {
    k < |w.objects| && !Reachable(w, k) && !StateOf(w, k).processing && !CanEnter(w, k)
  }

  lemma DeadStays(w: World, move: Move, k: nat)
    requires Inv(w) && Dead(w, k)
    ensures Dead(Next(w, move), k)
  {
    if move.Lookup? {
      LookupKeepsDead(w, move, k);
    } else if move.Enter? {
      EnterKeepsDead(w, move, k);
    } else if move.Resume? {
      ResumeKeepsDead(w, move, k);
    } else {
      GoingKeepsDead(w, move, k);
    }
  }

  lemma GoingKeepsDead(w: World, move: Move, k: nat)
    requires Inv(w) && Dead(w, k) && (move.GiveUp? || move.Leave?)
    ensures Dead(Next(w, move), k)
  {
    var sys, t := w.objects[k].sys, Next(w, move);
    assert sys.tickets == map[];
    assert t.objects[k].sys.state == sys.state;
    assert forall c :: c in t.objects[k].sys.waiting
                       ==> c in sys.waiting && t.objects[k].sys.waiting[c] == sys.waiting[c];
  }

  lemma LookupKeepsDead(w: World, move: Move, k: nat)
    requires Inv(w) && Dead(w, k) && move.Lookup?
    ensures Dead(Next(w, move), k)
  {
    var t := Next(w, move);
    assert t.objects[k] == w.objects[k];
    assert forall c :: c in t.held && t.held[c].at == k ==> c in w.held && w.held[c] == t.held[c];
  }

  lemma EnterKeepsDead(w: World, move: Move, k: nat)
    requires Inv(w) && Dead(w, k) && move.Enter?
    ensures Dead(Next(w, move), k)
  {
    var t := Next(w, move);
    assert forall c :: c in t.held ==> c in w.held && w.held[c] == t.held[c];
    var sys := w.objects[k].sys;
    if move.caller in w.held && w.held[move.caller].at == k && move.now >= w.clock {
      assert !Admits(sys.state, w.held[move.caller].number);
    } else {
      assert t.objects[k] == w.objects[k];
    }
  }

  /** What a fruitless retry leaves of an object. */
  lemma FruitlessRetry(sys: System, c: nat, now: nat)
    requires !sys.state.processing && sys.tickets == map[]
    requires forall d :: d in sys.waiting && sys.waiting[d].channel < sys.state.ready
                         ==> !Admits(sys.state, sys.waiting[d].number)
    ensures var t := AppendSequence.Next(sys, Retry(c, now));
            && !t.state.processing && t.state.next == (if t == sys then sys.state.next else Normal(sys.state).next)
            && forall d :: d in t.waiting && t.waiting[d].channel < t.state.ready
                           ==> !Admits(t.state, t.waiting[d].number)
    ensures forall n :: Admits(AppendSequence.Next(sys, Retry(c, now)).state, n) ==> Admits(sys.state, n)
  {
    if c in sys.waiting && sys.waiting[c].channel < sys.state.ready {
      assert !Admits(sys.state, sys.waiting[c].number);
    }
  }

  lemma ResumeKeepsDead(w: World, move: Move, k: nat)
    requires Inv(w) && Dead(w, k) && move.Resume?
    ensures Dead(Next(w, move), k)
  {
    var t := Next(w, move);
    if move.k == k && move.now >= w.clock {
      FruitlessRetry(w.objects[k].sys, move.caller, move.now);
      assert t.objects[k].sys == AppendSequence.Next(w.objects[k].sys, Retry(move.caller, move.now));
    } else {
      assert t.objects[k] == w.objects[k];
    }
  }

  lemma {:induction false} DeadForever(w: World, moves: seq<Move>, k: nat)
    requires Inv(w) && Dead(w, k)
    ensures Dead(Run(w, moves), k)
    decreases |moves|
  {
    if moves != [] {
      NextKeepsInv(w, moves[0]);
      DeadStays(w, moves[0], k);
      DeadForever(Next(w, moves[0]), moves[1..], k);
    }
  }

  /** Whoever can enter gets the ticket in one move. */
  lemma EntersAtOnce(w: World, k: nat) returns (move: Move)
    requires Inv(w) && k < |w.objects| && !StateOf(w, k).processing && CanEnter(w, k)
    ensures var t := Next(w, move);
            && |t.objects| == |w.objects| && t.table == w.table && t.clock == w.clock && StateOf(t, k).processing
            && forall j :: 0 <= j < |w.objects| && j != k ==> t.objects[j] == w.objects[j]
  {
    var sys := w.objects[k].sys;
    assert sys.tickets == map[];
    if c :| c in w.held && w.held[c].at == k && Admits(sys.state, w.held[c].number) {
      assert Absent(sys, c);
      move := Enter(c, w.clock);
    } else {
      var c :| c in sys.waiting && sys.waiting[c].channel < sys.state.ready && Admits(sys.state, sys.waiting[c].number);
      move := Resume(c, k, w.clock);
    }
  }

  /** The calls blocked on an evicted object, or still holding it, are served again exactly if one of them has
      a number the object would admit, on a closed channel or not yet blocked.  Otherwise no call ever is,
      whatever happens. */
  lemma EvictedServesAgainIff(w: World, k: nat)
    requires Inv(w) && k < |w.objects| && !Reachable(w, k) && !StateOf(w, k).processing
    ensures (exists moves :: var t := Run(w, moves); k < |t.objects| && StateOf(t, k).processing) <==> CanEnter(w, k)
  {
    if CanEnter(w, k) {
      var move := EntersAtOnce(w, k);
      RunOne(w, move);
      assert k < |Run(w, [move]).objects| && StateOf(Run(w, [move]), k).processing;
    } else {
      forall moves ensures Dead(Run(w, moves), k) {
        DeadForever(w, moves, k);
      }
    }
  }

  lemma RunOne(w: World, move: Move)
    requires Inv(w)
    ensures Run(w, [move]) == Next(w, move)
  {
    NextKeepsInv(w, move);
    assert Run(w, [move]) == Run(Next(w, move), [move][1..]);
  }

  lemma {:induction false} RunThen(w: World, moves: seq<Move>, more: seq<Move>)
    requires Inv(w)
    ensures Inv(Run(w, moves)) && Run(w, moves + more) == Run(Run(w, moves), more)
    decreases |moves|
  {
    if moves == [] {
      assert moves + more == more;
    } else {
      NextKeepsInv(w, moves[0]);
      assert (moves + more)[1..] == moves[1..] + more;
      RunThen(Next(w, moves[0]), moves[1..], more);
    }
  }

  lemma {:induction false} Newcomer(numbers: set<nat>) returns (n: nat)
    ensures forall m :: m in numbers ==> m < n
  {
    if numbers == {} {
      n := 0;
    } else {
      var m :| m in numbers;
      var r := Newcomer(numbers - {m});
      n := if m < r then r else m + 1;
      forall other | other in numbers ensures other < n {
        if other != m { assert other in numbers - {m}; }
      }
    }
  }

  ghost function Callers(objects: seq<Object>): set<nat> {
    if objects == [] then {}
    else
      var sys := objects[|objects| - 1].sys;
      Callers(objects[..|objects| - 1]) + sys.waiting.Keys + sys.tickets.Keys
  }

  lemma {:induction false} CallersAreAll(objects: seq<Object>, k: nat, c: nat)
    requires k < |objects| && !Absent(objects[k].sys, c)
    ensures c in Callers(objects)
  {
    if k < |objects| - 1 { CallersAreAll(objects[..|objects| - 1], k, c); }
  }

  lemma SomebodyIsIdle(w: World) returns (c: nat)
    ensures Idle(w, c)
  {
    c := Newcomer(w.held.Keys + Callers(w.objects));
    forall k | 0 <= k < |w.objects| ensures Absent(w.objects[k].sys, c) {
      if !Absent(w.objects[k].sys, c) { CallersAreAll(w.objects, k, c); }
    }
  }

  ghost predicate OthersSame(w: World, t: World, k: nat) {
    |t.objects| == |w.objects| && forall j :: 0 <= j < |w.objects| && j != k ==> t.objects[j] == w.objects[j]
  }

  lemma FindsFresh(w: World, id: string, k: nat, c: nat) returns (found: World)
    requires Inv(w) && id != "" && id in w.table && w.table[id] == k && Idle(w, c)
    requires w.objects[k].sys == System(Fresh(w.clock), map[], map[], [])
    ensures found == Next(w, Lookup(c, id, 1, w.clock)) && Inv(found) && OthersSame(w, found, k)
    ensures found.objects[k] == w.objects[k] && found.clock == w.clock && c in found.held && found.held[c] == Call(k, 1)
  {
    found := Next(w, Lookup(c, id, 1, w.clock));
    NextKeepsInv(w, Lookup(c, id, 1, w.clock));
    assert id in Pruning(w, w.clock - RETENTION);
  }

  lemma EntersFresh(w: World, k: nat, c: nat)
    requires Inv(w) && k < |w.objects| && w.objects[k].sys == System(Fresh(w.clock), map[], map[], [])
    requires c in w.held && w.held[c] == Call(k, 1)
    ensures var t := Next(w, Enter(c, w.clock));
            OthersSame(w, t, k) && StateOf(t, k).processing
  {
  }

  /** A fresh object gives its first number to whoever looks it up next. */
  lemma FreshServes(w: World, id: string, k: nat) returns (moves: seq<Move>)
    requires Inv(w) && id != "" && id in w.table && w.table[id] == k
    requires w.objects[k].sys == System(Fresh(w.clock), map[], map[], [])
    ensures OthersSame(w, Run(w, moves), k) && StateOf(Run(w, moves), k).processing
  {
    var c := SomebodyIsIdle(w);
    var found := FindsFresh(w, id, k, c);
    EntersFresh(found, k, c);
    RunOne(w, Lookup(c, id, 1, w.clock));
    RunOne(found, Enter(c, w.clock));
    RunThen(w, [Lookup(c, id, 1, w.clock)], [Enter(c, w.clock)]);
    moves := [Lookup(c, id, 1, w.clock)] + [Enter(c, w.clock)];
  }

  /** When a lookup evicts the object of its own request and makes a new one, both can have a ticket out at
      the same time later on exactly if somebody can still enter the old one. */
  lemma TwoTicketsIff(w: World, caller: nat, id: string, number: int, now: nat)
    requires Inv(w) && id != "" && id in w.table && Idle(w, caller) && number > 0 && now >= w.clock
    requires Expired(StateOf(w, w.table[id]), now - RETENTION)
    ensures var was, made := w.table[id], |w.objects|;
            var t := Next(w, Lookup(caller, id, number, now));
            && Inv(t) && t.table[id] == made
            && ((exists moves :: var u := Run(t, moves);
                   |u.objects| > made && StateOf(u, was).processing && StateOf(u, made).processing)
                <==> CanEnter(w, was))
  {
    var was, made := w.table[id], |w.objects|;
    var t := Next(w, Lookup(caller, id, number, now));
    NextKeepsInv(w, Lookup(caller, id, number, now));
    assert !Reachable(t, was) by {
      forall key | key in t.table ensures t.table[key] != was {
        if key != id { OtherObject(w, key, id); }
      }
    }
    SameEntrance(w, caller, id, number, now, was);
    if CanEnter(t, was) {
      var enter := EntersAtOnce(t, was);
      var u := Next(t, enter);
      NextKeepsInv(t, enter);
      RunOne(t, enter);
      var rest := FreshServes(u, id, made);
      RunThen(t, [enter], rest);
      var v := Run(t, [enter] + rest);
      assert |v.objects| > made && StateOf(v, was).processing && StateOf(v, made).processing;
    } else {
      forall moves ensures Dead(Run(t, moves), was) {
        DeadForever(t, moves, was);
      }
    }
  }

  lemma SameEntrance(w: World, caller: nat, id: string, number: int, now: nat, k: nat)
    requires Inv(w) && id in w.table && k == w.table[id] && Expired(StateOf(w, k), now - RETENTION) && caller !in w.held
    ensures var t := LookUp(w, caller, id, number, now);
            k < |t.objects| && t.objects[k] == w.objects[k] && (CanEnter(t, k) <==> CanEnter(w, k))
  {
    var t := LookUp(w, caller, id, number, now);
    assert t.objects[k] == w.objects[k];
    forall c | c in w.held && w.held[c].at == k ensures c in t.held && t.held[c] == w.held[c] {}
  }

  lemma LookedUpFirst(id: string) returns (w: World)
    requires id != ""
    ensures w == Next(Empty, Lookup(0, id, 1, 0)) && Inv(Empty) && Inv(w) && CanEnter(w, 0)
    ensures |w.objects| == 1 && w.objects[0].id == id && w.table == map[id := 0] && w.clock == 0
    ensures Idle(w, 1) && Expired(StateOf(w, 0), 1)
  {
    EveryRunKeepsInv([]);
    w := Next(Empty, Lookup(0, id, 1, 0));
    NextKeepsInv(Empty, Lookup(0, id, 1, 0));
    assert w.held[0] == Call(0, 1) && Admits(w.objects[0].sys.state, 1);
  }

  /** It happens: a call that looked its object up lets the retention time pass before it acquires, and
      another call of the same request gets a new object. */
  lemma TwoTicketsAreReachable(id: string) returns (moves: seq<Move>)
    requires id != ""
    ensures var w := Run(Empty, moves);
            exists a, b :: 0 <= a < b < |w.objects| && w.objects[a].id == id == w.objects[b].id
                           && StateOf(w, a).processing && StateOf(w, b).processing
  {
    var first, second := Lookup(0, id, 1, 0), Lookup(1, id, 1, RETENTION + 1);
    var w := LookedUpFirst(id);
    RunOne(Empty, first);
    TwoTicketsIff(w, 1, id, 1, RETENTION + 1);
    var t := Next(w, second);
    RunOne(w, second);
    RunThen(Empty, [first], [second]);
    var rest :| |Run(t, rest).objects| > 1 && StateOf(Run(t, rest), 0).processing
                && StateOf(Run(t, rest), 1).processing;
    RunThen(Empty, [first] + [second], rest);
    moves := [first] + [second] + rest;
    IdsStay(t, rest);
  }

  lemma {:induction false} IdsStay(w: World, moves: seq<Move>)
    requires Inv(w)
    ensures |w.objects| <= |Run(w, moves).objects|
    ensures forall k :: 0 <= k < |w.objects| ==> Run(w, moves).objects[k].id == w.objects[k].id
    decreases |moves|
  {
    if moves != [] {
      NextKeepsInv(w, moves[0]);
      IdStays(w, moves[0]);
      IdsStay(Next(w, moves[0]), moves[1..]);
    }
  }

  lemma IdStays(w: World, move: Move)
    requires Inv(w)
    ensures |w.objects| <= |Next(w, move).objects|
    ensures forall k :: 0 <= k < |w.objects| ==> Next(w, move).objects[k].id == w.objects[k].id
  {
  }
}
