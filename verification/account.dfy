/** The Cursor account manager: each of its operations works in several locked sections with network
    calls between them, and a generation number decides whether a late section may still act. */
module Account {
  import opened Common

  /** Tokens are kept without surrounding blanks; a missing one is empty. */
  datatype Credentials = Credentials(access: string, refresh: string, authId: string, email: string)

  datatype State = SignedOut | AwaitingLogin | SignedIn | Failed

  /** `cancel` is the login whose cancel function is held. */
  datatype Account = Account(creds: Credentials, state: State, message: string, generation: nat, cancel: Option<nat>)

  const NO_CREDENTIALS := Credentials("", "", "", "")

  // ---------------------------------------------------------------- locked sections

  function LoginBegun(a: Account): Account {
    a.(generation := a.generation + 1, cancel := Some(a.generation + 1), state := AwaitingLogin, message := "")
  }

  function Disconnected(a: Account): Account { Account(NO_CREDENTIALS, SignedOut, "", a.generation + 1, None) }

  function ShutDown(a: Account): Account { a.(generation := a.generation + 1, cancel := None) }

  function FailedNow(a: Account, message: string): Account { a.(state := Failed, message := message) }

  /** finishWithError and setAuthorizationError. */
  function FailedAt(a: Account, g: nat, message: string): Account {
    if a.generation == g then FailedNow(a, message) else a
  }

  function Committed(a: Account, g: nat, value: Credentials, saveFails: bool): Account {
    if a.generation != g then a
    else if saveFails then FailedNow(a, "save failed")
    else a.(creds := value, state := SignedIn, message := "")
  }

  function Invalidated(a: Account, g: nat, message: string): Account {
    if a.generation == g then Account(NO_CREDENTIALS, Failed, message, g + 1, a.cancel) else a
  }

  function PollEnded(a: Account, g: nat): Account { if a.generation == g then a.(cancel := None) else a }

  function Loaded(disk: Option<Credentials>): Account {
    if disk.Some? && disk.value.access != "" then Account(disk.value, SignedIn, "", 0, None)
    else Account(NO_CREDENTIALS, SignedOut, "", 0, None)
  }

  class Manager {
    var creds: Credentials
    var state: State
    var lastError: string
    var loginCancel: Option<nat>
    var loginGeneration: nat

    ghost function Model(): Account
      reads this
    {
      Account(creds, state, lastError, loginGeneration, loginCancel)
    }

    /** NewManager over a readable credentials file. */
    constructor (disk: Option<Credentials>)
      ensures Model() == Loaded(disk)
    {
      creds, state, lastError, loginCancel, loginGeneration := NO_CREDENTIALS, SignedOut, "", None, 0;
      if disk.Some? && disk.value.access != "" {
        creds, state := disk.value, SignedIn;
      }
    }

    /** The locked section of StartLogin; `cancelled` is the login it cancels. */
    method BeginLogin() returns (generation: nat, cancelled: Option<nat>)
      modifies this
      ensures Model() == LoginBegun(old(Model())) && generation == loginGeneration && cancelled == old(loginCancel)
    {
      cancelled := loginCancel;
      loginGeneration := loginGeneration + 1;
      generation := loginGeneration;
      loginCancel := Some(generation);
      state, lastError := AwaitingLogin, "";
    }

    /** The locked section of Disconnect. */
    method BeginDisconnect() returns (cancelled: Option<nat>)
      modifies this
      ensures Model() == Disconnected(old(Model())) && cancelled == old(loginCancel)
    {
      loginGeneration := loginGeneration + 1;
      cancelled := loginCancel;
      if loginCancel.Some? { loginCancel := None; }
      creds, state, lastError := NO_CREDENTIALS, SignedOut, "";
    }

    /** The end of Disconnect when the file could not be removed.  It does not look at the generation. */
    method FailDisconnect(message: string)
      modifies this`state, this`lastError
      ensures Model() == FailedNow(old(Model()), message)
    {
      state, lastError := Failed, message;
    }

    method Shutdown() returns (cancelled: Option<nat>)
      modifies this`loginGeneration, this`loginCancel
      ensures Model() == ShutDown(old(Model())) && cancelled == old(loginCancel)
    {
      loginGeneration := loginGeneration + 1;
      cancelled := loginCancel;
      if loginCancel.Some? { loginCancel := None; }
    }

    method SnapshotCredentials() returns (value: Credentials, generation: nat)
      ensures value == Model().creds && generation == Model().generation
    {
      value, generation := creds, loginGeneration;
    }

    /** finishWithError and setAuthorizationError. */
    method FailWith(generation: nat, message: string)
      modifies this`state, this`lastError
      ensures Model() == FailedAt(old(Model()), generation, message)
    {
      if loginGeneration != generation { return; }
      state, lastError := Failed, message;
    }

    method CommitCredentials(generation: nat, value: Credentials, saveFails: bool) returns (ok: bool)
      modifies this`creds, this`state, this`lastError
      ensures Model() == Committed(old(Model()), generation, value, saveFails)
      ensures ok == (loginGeneration == generation && !saveFails)
    {
      if loginGeneration != generation { return false; }
      if saveFails {
        state, lastError := Failed, "save failed";
        return false;
      }
      creds, state, lastError := value, SignedIn, "";
      ok := true;
    }

    method InvalidateAuthorization(generation: nat, message: string)
      modifies this
      ensures Model() == Invalidated(old(Model()), generation, message)
    {
      if loginGeneration != generation { return; }
      loginGeneration := loginGeneration + 1;
      creds, state, lastError := NO_CREDENTIALS, Failed, message;
    }

    /** What pollLogin does when it returns. */
    method EndPoll(generation: nat)
      modifies this`loginCancel
      ensures Model() == PollEnded(old(Model()), generation)
    {
      if loginGeneration == generation { loginCancel := None; }
    }
  }

  // ---------------------------------------------------------------- operations in progress

  /** Where an operation stands between two locked sections.  An authorization has a caller if it is part
      of EnsureEmail: the generation that one read. */
  datatype Operation =
    | OpeningBrowser(g: nat)
    | Polling(g: nat)
    | PollDone(g: nat, value: Credentials)
    | PollEnding(g: nat)
    | RemovingFile(g: nat)
    | AuthBegun(caller: Option<nat>)
    | AuthExpired(g: nat, caller: Option<nat>)
    | AuthRefreshing(g: nat, current: Credentials, caller: Option<nat>)
    | AuthCommitting(g: nat, value: Credentials, caller: Option<nat>)
    | EmailChecked
    | EmailRead(g: nat)
    | EmailAuthorized(g: nat)
    | EmailFetched(g: nat, email: string)
    | EmailCommitting(g: nat, value: Credentials)

  /** `cancelled` are the logins whose context was cancelled; `refreshing` holds the refresh lock. */
  datatype System = System(account: Account, ops: map<nat, Operation>, cancelled: set<nat>, refreshing: Option<nat>)

  datatype Refreshed = RefreshFailed(message: string) | ShouldLogout | NewTokens(access: string, refresh: string)

  datatype Step =
    | StartLogin
    | BrowserOpened(ok: bool)
    | PollAnswered(value: Credentials)
    | PollFailed(message: string)
    | PollStops(deadline: bool)
    | PollCommit(saveFails: bool)
    | PollEnd
    | Disconnect
    | FileRemoved(ok: bool)
    | Stop
    | Authorize
    | AuthSnapshot(needsRefresh: bool)
    | AuthFail
    | RefreshAnswered(answer: Refreshed)
    | AuthCommit(saveFails: bool)
    | EnsureEmail
    | EmailSnapshot
    | EmailAuthorize
    | ProfileAnswered(email: string)
    | EmailReread
    | EmailCommit(saveFails: bool)

  function Cancel(s: System, login: Option<nat>): set<nat> {
    if login.Some? then s.cancelled + {login.value} else s.cancelled
  }

  /** The system after `who` moved on to `op`. */
  function With(s: System, account: Account, who: nat, op: Operation): System {
    s.(account := account, ops := s.ops[who := op])
  }

  function Without(s: System, account: Account, who: nat): System {
    s.(account := account, ops := s.ops - {who})
  }

  /** An authorization ends: the lock is free, and EnsureEmail goes on if there was a token. */
  function AuthDone(s: System, account: Account, who: nat, caller: Option<nat>, ok: bool): System {
    var t := if ok && caller.Some? then With(s, account, who, EmailAuthorized(caller.value))
             else Without(s, account, who);
    t.(refreshing := None)
  }

  function RefreshedCredentials(current: Credentials, access: string, refresh: string): Credentials {
    current.(access := access, refresh := if refresh != "" then refresh else current.refresh)
  }

  /** The steps that begin an operation. */
  predicate Begins(step: Step) {
    step.StartLogin? || step.Disconnect? || step.Stop? || step.Authorize? || step.EnsureEmail?
  }

  ghost predicate BeginStep(s: System, who: nat, step: Step, t: System) {
    && who !in s.ops
    && match step
       case StartLogin =>
         t == With(s, LoginBegun(s.account), who, OpeningBrowser(s.account.generation + 1))
              .(cancelled := Cancel(s, s.account.cancel))
       case Disconnect =>
         t == With(s, Disconnected(s.account), who, RemovingFile(s.account.generation + 1))
              .(cancelled := Cancel(s, s.account.cancel))
       case Stop => t == s.(account := ShutDown(s.account), cancelled := Cancel(s, s.account.cancel))
       case Authorize => s.refreshing.None? && t == With(s, s.account, who, AuthBegun(None)).(refreshing := Some(who))
       case EnsureEmail =>
         s.account.state.SignedIn? && s.account.creds.access != "" && t == With(s, s.account, who, EmailChecked)
       case _ => false
  }

  ghost predicate LoginStep(s: System, who: nat, step: Step, t: System)
    requires who in s.ops
  {
    var a := s.account;
    match s.ops[who]
    case OpeningBrowser(g) =>
      step.BrowserOpened?
      && t == (if step.ok then With(s, a, who, Polling(g))
               else Without(s, FailedAt(a, g, "browser"), who).(cancelled := s.cancelled + {g}))
    case Polling(g) =>
      || (step.PollAnswered?
          && t == if step.value.access == "" then With(s, FailedAt(a, g, "no access token"), who, PollEnding(g))
                  else With(s, a, who, PollDone(g, step.value)))
      || (step.PollFailed? && t == With(s, FailedAt(a, g, step.message), who, PollEnding(g)))
      || (step.PollStops? && (step.deadline || g in s.cancelled)
          && t == With(s, if step.deadline then FailedAt(a, g, "timeout") else a, who, PollEnding(g)))
    case PollDone(g, value) =>
      step.PollCommit? && t == With(s, Committed(a, g, value, step.saveFails), who, PollEnding(g))
    case PollEnding(g) => step.PollEnd? && t == Without(s, PollEnded(a, g), who)
    case RemovingFile(g) =>
      step.FileRemoved? && t == Without(s, if step.ok then a else FailedNow(a, "removal failed"), who)
    case _ => false
  }

  ghost predicate AuthStep(s: System, who: nat, step: Step, t: System)
    requires who in s.ops
  {
    var a := s.account;
    match s.ops[who]
    case AuthBegun(caller) =>
      step.AuthSnapshot?
      && t == if a.creds.access == "" then AuthDone(s, a, who, caller, false)
              else if !step.needsRefresh then AuthDone(s, a, who, caller, true)
              else if a.creds.refresh == "" then With(s, a, who, AuthExpired(a.generation, caller))
              else With(s, a, who, AuthRefreshing(a.generation, a.creds, caller))
    case AuthExpired(g, caller) =>
      step.AuthFail? && t == AuthDone(s, FailedAt(a, g, "expired"), who, caller, false)
    case AuthRefreshing(g, current, caller) =>
      && step.RefreshAnswered?
      && (match step.answer
          case RefreshFailed(message) => t == AuthDone(s, FailedAt(a, g, message), who, caller, false)
          case ShouldLogout => t == AuthDone(s, Invalidated(a, g, "logged out"), who, caller, false)
          case NewTokens(access, refresh) =>
            t == if access == "" then AuthDone(s, FailedAt(a, g, "no access token"), who, caller, false)
                 else With(s, a, who, AuthCommitting(g, RefreshedCredentials(current, access, refresh), caller)))
    case AuthCommitting(g, value, caller) =>
      step.AuthCommit?
      && t == AuthDone(s, Committed(a, g, value, step.saveFails), who, caller, a.generation == g && !step.saveFails)
    case _ => false
  }

  ghost predicate EmailStep(s: System, who: nat, step: Step, t: System)
    requires who in s.ops
  {
    var a := s.account;
    match s.ops[who]
    case EmailChecked =>
      step.EmailSnapshot?
      && t == if a.creds.email != "" then Without(s, a, who) else With(s, a, who, EmailRead(a.generation))
    case EmailRead(g) =>
      step.EmailAuthorize? && s.refreshing.None?
      && t == With(s, a, who, AuthBegun(Some(g))).(refreshing := Some(who))
    case EmailAuthorized(g) =>
      step.ProfileAnswered?
      && t == if step.email == "" then Without(s, a, who) else With(s, a, who, EmailFetched(g, step.email))
    case EmailFetched(g, email) =>
      step.EmailReread?
      && t == if a.generation != g then Without(s, a, who)
              else With(s, a, who, EmailCommitting(g, a.creds.(email := email)))
    case EmailCommitting(g, value) =>
      step.EmailCommit? && t == Without(s, Committed(a, g, value, step.saveFails), who)
    case _ => false
  }

  ghost predicate Next(s: System, who: nat, step: Step, t: System) {
    if Begins(step) then BeginStep(s, who, step, t)
    else who in s.ops && (LoginStep(s, who, step, t) || AuthStep(s, who, step, t) || EmailStep(s, who, step, t))
  }

  // ---------------------------------------------------------------- invariants

  predicate AccountOk(a: Account) { a.state.SignedIn? ==> a.creds.access != "" }

  /** What holds of the generation an operation began under. */
  function GenerationOf(op: Operation): Option<nat> {
    match op
    case AuthBegun(caller) => caller
    case EmailChecked => None
    case _ => Some(op.g)
  }

  /** Everything an operation may commit has a token, and one that has seen a token in the current
      generation still finds one. */
  predicate OperationOk(op: Operation, a: Account) {
    && (GenerationOf(op).Some? ==> GenerationOf(op).value <= a.generation)
    && (match op
        case PollDone(g, value) => value.access != ""
        case AuthExpired(g, caller) => caller.Some? ==> caller.value <= g
        case AuthRefreshing(g, current, caller) => caller.Some? ==> caller.value <= g
        case AuthCommitting(g, value, caller) => value.access != "" && (caller.Some? ==> caller.value <= g)
        case EmailAuthorized(g) => g == a.generation ==> a.creds.access != ""
        case EmailFetched(g, email) => g == a.generation ==> a.creds.access != ""
        case EmailCommitting(g, value) => value.access != ""
        case _ => true)
  }

  ghost predicate Inv(s: System) {
    AccountOk(s.account) && forall who :: who in s.ops ==> OperationOk(s.ops[who], s.account)
  }

  /** How a step may change the account: generations only grow, and within one a token never goes. */
  predicate Evolves(a: Account, b: Account) {
    && a.generation <= b.generation
    && (a.generation == b.generation && a.creds.access != "" ==> b.creds.access != "")
  }

  lemma EvolvingKeepsOperations(op: Operation, a: Account, b: Account)
    requires OperationOk(op, a) && Evolves(a, b)
    ensures OperationOk(op, b)
  {
  }

  /** Within one generation the token never becomes empty again. */
  lemma TokenStaysWithinGeneration(s: System, who: nat, step: Step, t: System)
    requires Inv(s) && Next(s, who, step, t)
    ensures Evolves(s.account, t.account)
  {
    if !Begins(step) { assert OperationOk(s.ops[who], s.account); }
  }

  ghost predicate MovedOk(who: nat, t: System) {
    AccountOk(t.account) && (who in t.ops ==> OperationOk(t.ops[who], t.account))
  }

  lemma AuthStepOk(s: System, who: nat, step: Step, t: System)
    requires AccountOk(s.account) && who in s.ops && OperationOk(s.ops[who], s.account) && AuthStep(s, who, step, t)
    ensures MovedOk(who, t)
  {
  }

  lemma OtherStepOk(s: System, who: nat, step: Step, t: System)
    requires AccountOk(s.account) && who in s.ops && OperationOk(s.ops[who], s.account)
    requires LoginStep(s, who, step, t) || EmailStep(s, who, step, t)
    ensures MovedOk(who, t)
  {
  }

  lemma MovedOperationOk(s: System, who: nat, step: Step, t: System)
    requires Inv(s) && Next(s, who, step, t)
    ensures MovedOk(who, t)
  {
    if !Begins(step) {
      assert OperationOk(s.ops[who], s.account);
      if AuthStep(s, who, step, t) { AuthStepOk(s, who, step, t); } else { OtherStepOk(s, who, step, t); }
    }
  }

  lemma OthersStay(s: System, who: nat, step: Step, t: System, other: nat)
    requires Next(s, who, step, t) && other != who
    ensures other in t.ops <==> other in s.ops
    ensures other in t.ops ==> t.ops[other] == s.ops[other]
  {
  }

  lemma NextKeepsInv(s: System, who: nat, step: Step, t: System)
    requires Inv(s) && Next(s, who, step, t)
    ensures Inv(t)
  {
    TokenStaysWithinGeneration(s, who, step, t);
    MovedOperationOk(s, who, step, t);
    forall other | other in t.ops ensures OperationOk(t.ops[other], t.account) {
      if other != who {
        OthersStay(s, who, step, t, other);
        EvolvingKeepsOperations(s.ops[other], s.account, t.account);
      }
    }
  }

  /** A locked section of an operation that began under an older generation changes nothing, unless it is
      the end of a Disconnect that could not remove the file: that one always fails the account. */
  lemma OldOperationChangesNothingIff(s: System, who: nat, step: Step, t: System)
    requires Inv(s) && Next(s, who, step, t) && !Begins(step)
    requires GenerationOf(s.ops[who]).Some? && GenerationOf(s.ops[who]).value < s.account.generation
    ensures t.account == s.account
            <==> !(step.FileRemoved? && !step.ok) || (s.account.state.Failed? && s.account.message == "removal failed")
    ensures t.account.creds == s.account.creds && t.account.generation == s.account.generation
  {
  }

  // ---------------------------------------------------------------- runs

  ghost predicate Run(states: seq<System>, whos: seq<nat>, steps: seq<Step>) {
    && |states| == |steps| + 1 && |whos| == |steps|
    && forall i :: 0 <= i < |steps| ==> Next(states[i], whos[i], steps[i], states[i + 1])
  }

  ghost predicate Started(s: System) {
    s.ops == map[] && s.refreshing.None? && exists disk :: s.account == Loaded(disk)
  }

  /** Signed in always means having a token, whatever runs at the same time. */
  lemma {:induction false} SignedInMeansToken(states: seq<System>, whos: seq<nat>, steps: seq<Step>, k: nat)
    requires Run(states, whos, steps) && Started(states[0]) && k <= |steps|
    ensures Inv(states[k])
    ensures states[k].account.state.SignedIn? ==> states[k].account.creds.access != ""
  {
    if k > 0 {
      SignedInMeansToken(states, whos, steps, k - 1);
      NextKeepsInv(states[k - 1], whos[k - 1], steps[k - 1], states[k]);
    }
  }

  /** An operation of the current generation that could still commit something. */
  predicate MayCommit(op: Operation, a: Account) {
    match op
    case OpeningBrowser(g) => g == a.generation
    case Polling(g) => g == a.generation
    case PollDone(g, _) => g == a.generation
    case AuthRefreshing(g, _, _) => g == a.generation
    case AuthCommitting(g, _, _) => g == a.generation
    case EmailAuthorized(g) => g == a.generation
    case EmailFetched(g, _) => g == a.generation
    case EmailCommitting(g, _) => g == a.generation
    case _ => false
  }

  /** Nobody is signed in and nothing in progress can change that. */
  ghost predicate Quiet(s: System) {
    && s.account.creds == NO_CREDENTIALS && !s.account.state.SignedIn?
    && forall who :: who in s.ops ==> !MayCommit(s.ops[who], s.account)
  }

  lemma NothingOldMayCommit(op: Operation, a: Account, b: Account)
    requires OperationOk(op, a) && a.generation < b.generation
    ensures !MayCommit(op, b)
  {
  }

  /** A Disconnect, and a logout the refresh service asks for, leave nothing that could sign in again. */
  lemma DisconnectIsQuiet(s: System, who: nat, step: Step, t: System)
    requires Inv(s) && Next(s, who, step, t)
    requires step.Disconnect? || (t.account.generation > s.account.generation && step.RefreshAnswered?)
    ensures Quiet(t)
  {
    forall other | other in t.ops ensures !MayCommit(t.ops[other], t.account) {
      if other != who {
        OthersStay(s, who, step, t, other);
        NothingOldMayCommit(s.ops[other], s.account, t.account);
      }
    }
  }

  lemma QuietStays(s: System, who: nat, step: Step, t: System)
    requires Inv(s) && Quiet(s) && Next(s, who, step, t) && !step.StartLogin?
    ensures Quiet(t)
  {
    QuietMove(s, who, step, t);
    forall other | other in t.ops ensures !MayCommit(t.ops[other], t.account) {
      if other != who {
        OthersStay(s, who, step, t, other);
        StillMayNot(s.ops[other], s.account, t.account);
      }
    }
  }

  lemma StillMayNot(op: Operation, a: Account, b: Account)
    requires OperationOk(op, a) && !MayCommit(op, a) && a.generation <= b.generation
    ensures !MayCommit(op, b)
  {
  }

  lemma QuietMove(s: System, who: nat, step: Step, t: System)
    requires Inv(s) && Quiet(s) && Next(s, who, step, t) && !step.StartLogin?
    ensures t.account.creds == NO_CREDENTIALS && !t.account.state.SignedIn?
    ensures s.account.generation <= t.account.generation
    ensures who in t.ops ==> !MayCommit(t.ops[who], t.account)
  {
    if !Begins(step) { assert OperationOk(s.ops[who], s.account) && !MayCommit(s.ops[who], s.account); }
  }

  /** After a Disconnect nothing but a new login brings credentials back, however many polls, refreshes and
      profile lookups were under way. */
  lemma {:induction false} DisconnectSticks(states: seq<System>, whos: seq<nat>, steps: seq<Step>, j: nat, k: nat)
    requires Run(states, whos, steps) && Started(states[0]) && j < k <= |steps| && steps[j].Disconnect?
    requires forall i :: j <= i < k ==> !steps[i].StartLogin?
    ensures Quiet(states[k])
    decreases k
  {
    SignedInMeansToken(states, whos, steps, k - 1);
    if k == j + 1 {
      DisconnectIsQuiet(states[j], whos[j], steps[j], states[k]);
    } else {
      DisconnectSticks(states, whos, steps, j, k - 1);
      QuietStays(states[k - 1], whos[k - 1], steps[k - 1], states[k]);
    }
  }

  lemma AppendStep(states: seq<System>, whos: seq<nat>, steps: seq<Step>, who: nat, step: Step, t: System)
    requires Run(states, whos, steps) && Next(states[|steps|], who, step, t)
    ensures Run(states + [t], whos + [who], steps + [step])
  {
    forall i | 0 <= i < |steps| + 1
      ensures Next((states + [t])[i], (whos + [who])[i], (steps + [step])[i], (states + [t])[i + 1])
    {
      assert i < |steps| ==> Next(states[i], whos[i], steps[i], states[i + 1]);
    }
  }

  /** A state some run reaches. */
  ghost predicate Reachable(s: System) {
    exists states: seq<System>, whos: seq<nat>, steps: seq<Step> ::
      Run(states, whos, steps) && Started(states[0]) && states[|steps|] == s
  }

  lemma ReachesNext(s: System, who: nat, step: Step, t: System)
    requires Reachable(s) && Next(s, who, step, t)
    ensures Reachable(t)
  {
    var states: seq<System>, whos: seq<nat>, steps: seq<Step> :|
      Run(states, whos, steps) && Started(states[0]) && states[|steps|] == s;
    AppendStep(states, whos, steps, who, step, t);
    assert (states + [t])[0] == states[0] && (states + [t])[|steps + [step]|] == t;
  }

  lemma LoadedIsReachable(disk: Option<Credentials>)
    ensures Reachable(System(Loaded(disk), map[], {}, None))
  {
    var s := System(Loaded(disk), map[], {}, None);
    assert Run([s], [], []) && Started([s][0]);
  }

  /** An account that is loaded, and a login that waits for its answer. */
  lemma LoginUnderWay(older: Credentials) returns (s: System)
    requires older.access != ""
    ensures Reachable(s)
    ensures s == System(LoginBegun(Loaded(Some(older))), map[0 := Polling(1)], {}, None)
  {
    LoadedIsReachable(Some(older));
    var s0 := System(Loaded(Some(older)), map[], {}, None);
    var s1 := With(s0, LoginBegun(s0.account), 0, OpeningBrowser(1));
    ReachesNext(s0, 0, StartLogin, s1);
    s := With(s1, s1.account, 0, Polling(1));
    ReachesNext(s1, 0, BrowserOpened(true), s);
  }

  /** An account whose token expired is refreshed while a new login is under way. */
  lemma RefreshDuringLogin(older: Credentials, kept: Credentials) returns (s: System)
    requires older.access != "" && older.refresh != "" && kept == RefreshedCredentials(older, "o2", "")
    ensures Reachable(s)
    ensures s.account == LoginBegun(Loaded(Some(older)))
            && s.ops == map[0 := Polling(1), 1 := AuthCommitting(1, kept, None)]
  {
    var s2 := LoginUnderWay(older);
    var s3 := With(s2, s2.account, 1, AuthBegun(None)).(refreshing := Some(1));
    ReachesNext(s2, 1, Authorize, s3);
    var s4 := With(s3, s3.account, 1, AuthRefreshing(1, older, None));
    ReachesNext(s3, 1, AuthSnapshot(true), s4);
    s := With(s4, s4.account, 1, AuthCommitting(1, kept, None));
    ReachesNext(s4, 1, RefreshAnswered(NewTokens("o2", "")), s);
  }

  /** The generation does not order commits within one login: a refresh that began before a login finished
      can put the old account back over the new one. */
  lemma RefreshCanUndoLogin()
    ensures exists s, t, refresher ::
      && Reachable(s) && s.account.creds.authId == "new"
      && Next(s, refresher, AuthCommit(false), t) && t.account.creds.authId == "old" && t.account.state.SignedIn?
  {
    var newer, older := Credentials("n", "", "new", ""), Credentials("o", "r", "old", "");
    var kept := RefreshedCredentials(older, "o2", "");
    var s0 := RefreshDuringLogin(older, kept);
    var s1 := With(s0, s0.account, 0, PollDone(1, newer));
    ReachesNext(s0, 0, PollAnswered(newer), s1);
    var s2 := With(s1, Committed(s1.account, 1, newer, false), 0, PollEnding(1));
    ReachesNext(s1, 0, PollCommit(false), s2);
    var t := AuthDone(s2, Committed(s2.account, 1, kept, false), 1, None, true);
    assert Next(s2, 1, AuthCommit(false), t);
  }
}
