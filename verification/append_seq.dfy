/** Ordering of the append calls of a request: calls are admitted in the order of their sequence
    numbers, one at a time, and a call that comes too early blocks on a channel that every release
    closes.  A channel is modelled by its number: those below `ready` are closed. */
module AppendSequence {
  // ---------------------------------------------------------------- one request

  const RETENTION: nat := 600

  datatype State = State(next: int, processing: bool, ready: nat, updatedAt: nat)

  datatype Decision = Admitted | Restarted | Stale | Wait(channel: nat)

  function Fresh(now: nat): State { State(1, false, 0, now) }

  function Normal(s: State): State { if s.next <= 0 then s.(next := 1) else s }

  /** What one pass of the acquire loop finds under the lock. */
  function Decide(s: State, number: int): Decision {
    var t := Normal(s);
    if number == 1 && t.next > 1 then (if t.processing then Wait(t.ready) else Restarted)
    else if number < t.next then Stale
    else if number == t.next && !t.processing then Admitted
    else Wait(t.ready)
  }

  function Attempted(s: State, number: int, now: nat): State {
    var t := Normal(s).(updatedAt := now);
    match Decide(s, number)
    case Admitted => t.(processing := true)
    case Restarted => t.(next := 1, processing := true)
    case _ => t
  }

  function Released(s: State, number: int, now: nat): State {
    if number <= 0 then s
    else if s.processing && s.next == number then State(s.next + 1, false, s.ready + 1, now)
    else s.(updatedAt := now)
  }

  predicate Expired(s: State, cutoff: int) {
    !s.processing && s.updatedAt < cutoff
  }

  class RequestState {
    var next: int
    var processing: bool
    var ready: nat
    var updatedAt: nat

    function View(): State
      reads this
    {
      State(next, processing, ready, updatedAt)
    }

    constructor (now: nat)
      ensures View() == Fresh(now)
    {
      next, processing, ready, updatedAt := 1, false, 0, now;
    }

    /** One pass of the acquire loop; on `Wait` the caller blocks on the channel and comes back. */
    method TryAcquire(number: int, now: nat) returns (d: Decision)
      modifies this
      ensures d == Decide(old(View()), number)
      ensures View() == Attempted(old(View()), number, now)
    {
      if next <= 0 { next := 1; }
      updatedAt := now;
      if number == 1 && next > 1 {
        if processing { return Wait(ready); }
        next := 1;
        processing := true;
        return Restarted;
      }
      if number < next {
        d := Stale;
      } else if number == next && !processing {
        processing := true;
        d := Admitted;
      } else {
        d := Wait(ready);
      }
    }

    method Release(number: int, now: nat)
      modifies this
      ensures View() == Released(old(View()), number, now)
    {
      if number <= 0 { return; }
      if processing && next == number {
        processing := false;
        next := next + 1;
        ready := ready + 1;
      }
      updatedAt := now;
    }

    method Touch(now: nat)
      modifies this
      ensures View() == old(View()).(updatedAt := now)
    {
      updatedAt := now;
    }
  }

  // ---------------------------------------------------------------- all requests

  function Pruned(states: map<string, State>, cutoff: int): map<string, State> {
    map key | key in states && !Expired(states[key], cutoff) :: states[key]
  }

  /** The states after a lookup: expired ones are gone, the requested one is touched or new. */
  function LookedUp(states: map<string, State>, id: string, now: nat): map<string, State> {
    var kept := Pruned(states, now - RETENTION);
    kept[id := if id in kept then kept[id].(updatedAt := now) else Fresh(now)]
  }

  class Tracker {
    var states: map<string, RequestState>

    function View(): map<string, State>
      reads this, states.Values
    {
      map key | key in states :: states[key].View()
    }

    /** Every request has its own object. */
    ghost predicate Valid()
      reads this
    {
      forall k, k' :: k in states && k' in states && states[k] == states[k'] ==> k == k'
    }

    constructor ()
      ensures Valid() && View() == map[]
    {
      states := map[];
    }

    method Prune(cutoff: int)
      requires Valid()
      modifies this
      ensures Valid() && View() == Pruned(old(View()), cutoff)
      ensures states.Values <= old(states.Values)
      ensures forall key :: key in states ==> key in old(states) && states[key] == old(states)[key]
    {
      var todo := states.Keys;
      while todo != {}
        invariant todo <= states.Keys <= old(states).Keys
        invariant forall key :: key in states ==> states[key] == old(states)[key]
        invariant forall key :: key in old(states) ==>
          (key in states <==> key in todo || !Expired(old(states)[key].View(), cutoff))
        decreases todo
      {
        var key :| key in todo;
        todo := todo - {key};
        if Expired(states[key].View(), cutoff) { states := states - {key}; }
      }
    }

    method StateFor(id: string, now: nat) returns (state: RequestState)
      requires Valid()
      modifies this, states.Values
      ensures Valid() && id in states && states[id] == state
      ensures View() == LookedUp(old(View()), id, now)
      ensures state in old(states.Values) || fresh(state)
    {
      Prune(now - RETENTION);
      if id in states { state := TouchState(id, now); } else { state := AddState(id, now); }
    }

    method TouchState(id: string, now: nat) returns (state: RequestState)
      requires Valid() && id in states
      modifies states[id]
      ensures Valid() && state == states[id] && View() == old(View())[id := old(View())[id].(updatedAt := now)]
    {
      state := states[id];
      state.Touch(now);
      forall key | key in states && key != id ensures states[key].View() == old(states[key].View()) {
        assert states[key] != states[id];
      }
    }

    method AddState(id: string, now: nat) returns (state: RequestState)
      requires Valid() && id !in states
      modifies this
      ensures Valid() && fresh(state) && states == old(states)[id := state] && View() == old(View())[id := Fresh(now)]
    {
      state := new RequestState(now);
      states := states[id := state];
    }
  }

  // ---------------------------------------------------------------- every interleaving on one request

  datatype Waiter = Waiter(number: int, channel: nat)

  /** `waiting` are the callers blocked in acquire, `tickets` those admitted and not yet released,
      `trace` the numbers admitted so far. */
  datatype System = System(state: State, waiting: map<nat, Waiter>, tickets: map<nat, int>, trace: seq<int>)

  datatype Step =
    | Acquire(caller: nat, number: int, now: nat)
    | Retry(caller: nat, now: nat)
    | Abandon(caller: nat)
    | Release(caller: nat, now: nat)
    | Touch(now: nat)

  function Pass(sys: System, caller: nat, number: int, now: nat): System {
    var t := sys.(state := Attempted(sys.state, number, now));
    match Decide(sys.state, number)
    case Stale => t
    case Wait(channel) => t.(waiting := sys.waiting[caller := Waiter(number, channel)])
    case _ => t.(tickets := sys.tickets[caller := number], trace := sys.trace + [number])
  }

  /** A step that is not enabled changes nothing.  A ticket is released once, by its holder. */
  function Next(sys: System, step: Step): System {
    match step
    case Acquire(caller, number, now) =>
      if number <= 0 || caller in sys.waiting || caller in sys.tickets then sys else Pass(sys, caller, number, now)
    case Retry(caller, now) =>
      if caller !in sys.waiting || sys.waiting[caller].channel >= sys.state.ready then sys
      else Pass(sys.(waiting := sys.waiting - {caller}), caller, sys.waiting[caller].number, now)
    case Abandon(caller) => sys.(waiting := sys.waiting - {caller})
    case Release(caller, now) =>
      if caller !in sys.tickets then sys
      else sys.(state := Released(sys.state, sys.tickets[caller], now), tickets := sys.tickets - {caller})
    case Touch(now) => sys.(state := sys.state.(updatedAt := now))
  }

  function Run(sys: System, steps: seq<Step>): System
    decreases |steps|
  {
    if steps == [] then sys else Run(Next(sys, steps[0]), steps[1..])
  }

  /** The lock is held by exactly one ticket, for the number that is next. */
  ghost predicate OneTicket(sys: System) {
    && sys.state.next >= 1
    && (!sys.state.processing ==> sys.tickets == map[])
    && (sys.state.processing ==> exists caller :: sys.tickets == map[caller := sys.state.next])
  }

  /** A caller blocked on a channel that is still open has nothing it could do. */
  ghost predicate NoLostWakeup(sys: System) {
    forall caller :: caller in sys.waiting ==>
      sys.waiting[caller].number > 0 && sys.waiting[caller].channel <= sys.state.ready &&
      (sys.waiting[caller].channel == sys.state.ready ==> Decide(sys.state, sys.waiting[caller].number).Wait?)
  }

  /** Every admitted number is 1 or one more than the number admitted before it. */
  ghost predicate InOrder(trace: seq<int>) {
    forall i :: 0 <= i < |trace| ==> trace[i] == 1 || (i > 0 && trace[i] == trace[i - 1] + 1)
  }

  ghost predicate TraceOk(sys: System) {
    && InOrder(sys.trace)
    && if sys.state.processing then |sys.trace| > 0 && sys.trace[|sys.trace| - 1] == sys.state.next
       else if sys.trace == [] then sys.state.next == 1
       else sys.trace[|sys.trace| - 1] == sys.state.next - 1
  }

  ghost predicate Inv(sys: System) {
    OneTicket(sys) && NoLostWakeup(sys) && TraceOk(sys)
  }

  lemma PassKeepsInv(sys: System, caller: nat, number: int, now: nat)
    requires Inv(sys) && number > 0
    ensures Inv(Pass(sys, caller, number, now))
  {
    var next := Pass(sys, caller, number, now);
    if next.trace != sys.trace {
      assert sys.tickets == map[];
      assert next.tickets == map[caller := next.state.next];
    }
  }

  lemma NextKeepsInv(sys: System, step: Step)
    requires Inv(sys)
    ensures Inv(Next(sys, step))
  {
    match step
    case Acquire(caller, number, now) => if number > 0 { PassKeepsInv(sys, caller, number, now); }
    case Retry(caller, now) =>
      if caller in sys.waiting {
        var rest := sys.(waiting := sys.waiting - {caller});
        assert Inv(rest);
        PassKeepsInv(rest, caller, sys.waiting[caller].number, now);
      }
    case Abandon(caller) =>
    case Release(caller, now) =>
      if caller in sys.tickets { assert sys.tickets - {caller} == map[]; }
    case Touch(now) =>
  }

  /** In every interleaving one ticket at most is out, admissions are in order, and no wakeup is lost. */
  lemma {:induction false} RunKeepsInv(sys: System, steps: seq<Step>)
    requires Inv(sys)
    ensures Inv(Run(sys, steps))
    decreases |steps|
  {
    if steps != [] {
      NextKeepsInv(sys, steps[0]);
      RunKeepsInv(Next(sys, steps[0]), steps[1..]);
    }
  }

  lemma EveryRunKeepsInv(steps: seq<Step>, now: nat)
    ensures Inv(Run(System(Fresh(now), map[], map[], []), steps))
  {
    var start := System(Fresh(now), map[], map[], []);
    assert InOrder(start.trace);
    RunKeepsInv(start, steps);
  }

  /** The number after the last admitted one; 1 before any was. */
  function Due(trace: seq<int>): int { if trace == [] then 1 else trace[|trace| - 1] + 1 }

  /** Blocked in acquire, on the channel that the next release closes. */
  predicate Blocked(sys: System, caller: nat, number: int) {
    caller in sys.waiting && sys.waiting[caller] == Waiter(number, sys.state.ready)
  }

  /** It has the one ticket there is, and was admitted last. */
  predicate Holds(sys: System, caller: nat, number: int) {
    sys.tickets == map[caller := number] && sys.trace != [] && sys.trace[|sys.trace| - 1] == number
  }

  /** What a caller that tries finds: the one ticket if none is out and its number is due or starts over; a
      refusal if its number was passed; and otherwise it blocks, as everybody does who is not refused while a
      ticket is out. */
  ghost predicate Tried(s: System, caller: nat, number: int, t: System) {
    var due := if s.tickets == map[] then Due(s.trace) else Due(s.trace) - 1;
    && (if s.tickets == map[] && (number == 1 || number == due) then
          Holds(t, caller, number) && t.trace == s.trace + [number] && t.waiting == s.waiting
        else t.tickets == s.tickets && t.trace == s.trace
             && if 1 < number < due then t.waiting == s.waiting
                else Blocked(t, caller, number) && t.waiting == s.waiting[caller := t.waiting[caller]])
  }

  lemma PassTries(s: System, caller: nat, number: int, now: nat)
    requires Inv(s) && number > 0 && caller !in s.waiting && caller !in s.tickets
    ensures Tried(s, caller, number, Pass(s, caller, number, now))
  {
    if s.state.processing {
      var holder :| s.tickets == map[holder := s.state.next];
      assert holder in s.tickets;
    }
    assert map[][caller := number] == map[caller := number];
  }

  /** In every run: a caller with a positive number is admitted at once exactly if no ticket is out and its
      number is 1 or follows the last admitted one; it is refused exactly if its number lies strictly between 1
      and the number that is due; and it blocks otherwise.  So a number 1 is never lost. */
  lemma AcquireTries(steps: seq<Step>, start: nat, caller: nat, number: int, now: nat)
    requires var s := Run(System(Fresh(start), map[], map[], []), steps);
             number > 0 && caller !in s.waiting && caller !in s.tickets
    ensures var s := Run(System(Fresh(start), map[], map[], []), steps);
            Tried(s, caller, number, Next(s, Acquire(caller, number, now)))
  {
    EveryRunKeepsInv(steps, start);
    PassTries(Run(System(Fresh(start), map[], map[], []), steps), caller, number, now);
  }

  /** A blocked caller whose channel was closed tries again in the same way. */
  lemma RetryTries(steps: seq<Step>, start: nat, caller: nat, now: nat)
    requires var s := Run(System(Fresh(start), map[], map[], []), steps);
             caller in s.waiting && s.waiting[caller].channel < s.state.ready && caller !in s.tickets
    ensures var s := Run(System(Fresh(start), map[], map[], []), steps);
            Tried(s.(waiting := s.waiting - {caller}), caller, s.waiting[caller].number, Next(s, Retry(caller, now)))
  {
    EveryRunKeepsInv(steps, start);
    var s := Run(System(Fresh(start), map[], map[], []), steps);
    PassTries(s.(waiting := s.waiting - {caller}), caller, s.waiting[caller].number, now);
  }

  /** A release takes the ticket back and closes the channel all blocked callers wait on. */
  lemma ReleaseOpens(steps: seq<Step>, start: nat, caller: nat, now: nat)
    requires caller in Run(System(Fresh(start), map[], map[], []), steps).tickets
    ensures var s := Run(System(Fresh(start), map[], map[], []), steps);
            var t := Next(s, Release(caller, now));
            && t.tickets == map[] && t.trace == s.trace && t.waiting == s.waiting
            && forall other :: other in t.waiting ==> t.waiting[other].channel < t.state.ready
  {
    EveryRunKeepsInv(steps, start);
    var s := Run(System(Fresh(start), map[], map[], []), steps);
    assert s.tickets == map[caller := s.state.next];
  }

  /** Every call that reaches the object is a use of it. */
  lemma UsedNow(sys: System, step: Step)
    requires Inv(sys)
    requires match step
             case Acquire(caller, number, _) => number > 0 && caller !in sys.waiting && caller !in sys.tickets
             case Retry(caller, _) => caller in sys.waiting && sys.waiting[caller].channel < sys.state.ready
             case Release(caller, _) => caller in sys.tickets
             case Abandon(_) => false
             case Touch(_) => true
    ensures Next(sys, step).state.updatedAt == step.now
  {
  }

  /** A stretch of admissions without a restart counts up by one, so no number repeats in it. */
  lemma {:induction false} RunsCountUp(trace: seq<int>, i: nat, j: nat)
    requires InOrder(trace) && i <= j < |trace| && forall k :: i < k <= j ==> trace[k] != 1
    ensures trace[j] == trace[i] + (j - i)
  {
    if i < j { RunsCountUp(trace, i, j - 1); }
  }

  /** A step that makes a blocked caller admissible, restartable or stale closes its channel. */
  lemma EnablingStepClosesChannel(sys: System, step: Step, caller: nat)
    requires Inv(sys) && caller in sys.waiting && caller in Next(sys, step).waiting
    requires sys.waiting[caller] == Next(sys, step).waiting[caller]
    requires !Decide(Next(sys, step).state, sys.waiting[caller].number).Wait?
    ensures sys.waiting[caller].channel < Next(sys, step).state.ready
  {
    NextKeepsInv(sys, step);
  }

  /** Eviction never drops a state whose ticket is out.  It can drop one that callers are blocked on:
      those then wait for a number that is still to come, on an object no later call will find. */
  lemma EvictedStateIsIdle(sys: System, cutoff: int)
    requires Inv(sys) && Expired(sys.state, cutoff)
    ensures sys.tickets == map[]
    ensures forall caller :: caller in sys.waiting && sys.waiting[caller].channel == sys.state.ready
              ==> sys.waiting[caller].number > sys.state.next
  {
    forall caller | caller in sys.waiting && sys.waiting[caller].channel == sys.state.ready
      ensures sys.waiting[caller].number > sys.state.next
    {
      assert Decide(sys.state, sys.waiting[caller].number).Wait?;
    }
  }
}
