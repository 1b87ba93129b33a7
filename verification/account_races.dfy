/** What the generation does not guard: operations of one generation that each read the account, work over
    the network and commit.  Over every run, when does a commit keep the account that is signed in? */
module AccountRaces {
  import opened Common
  import opened Account

  /** Whose account it is, and the address shown for it. */
  predicate SameAccount(a: Credentials, b: Credentials) { a.authId == b.authId && a.email == b.email }

  /** The steps that may store credentials. */
  predicate Stores(step: Step) { step.PollCommit? || step.AuthCommit? || step.EmailCommit? }

  /** Within a generation only these change the credentials; generations only grow. */
  lemma OnlyStoresChange(s: System, who: nat, step: Step, t: System)
    requires Inv(s) && Next(s, who, step, t)
    ensures s.account.generation <= t.account.generation
    ensures s.account.generation == t.account.generation && !Stores(step) ==> t.account.creds == s.account.creds
  {
    if !Begins(step) { assert OperationOk(s.ops[who], s.account); }
  }

  // ---------------------------------------------------------------- the refresh lock

  predicate HoldsLock(op: Operation) { op.AuthBegun? || op.AuthExpired? || op.AuthRefreshing? || op.AuthCommitting? }

  /** One authorization at a time, and the lock is free when there is none. */
  ghost predicate LockOk(s: System) {
    && (forall who :: who in s.ops && HoldsLock(s.ops[who]) ==> s.refreshing == Some(who))
    && (s.refreshing.Some? ==> s.refreshing.value in s.ops && HoldsLock(s.ops[s.refreshing.value]))
  }

  lemma MoverKeepsLock(s: System, who: nat, step: Step, t: System)
    requires LockOk(s) && Next(s, who, step, t)
    ensures who in t.ops && HoldsLock(t.ops[who]) ==> t.refreshing == Some(who)
    ensures t.refreshing == s.refreshing || s.refreshing == None || s.refreshing == Some(who)
  {
  }

  lemma NextKeepsLock(s: System, who: nat, step: Step, t: System)
    requires LockOk(s) && Next(s, who, step, t)
    ensures LockOk(t)
  {
    MoverKeepsLock(s, who, step, t);
    forall other | other in t.ops && HoldsLock(t.ops[other]) ensures t.refreshing == Some(other) {
      if other != who {
        OthersStay(s, who, step, t, other);
      }
    }
  }

  lemma {:induction false} RunKeepsLock(states: seq<System>, whos: seq<nat>, steps: seq<Step>, k: nat)
    requires Run(states, whos, steps) && Started(states[0]) && k <= |steps|
    ensures Inv(states[k]) && LockOk(states[k])
  {
    SignedInMeansToken(states, whos, steps, k);
    if k > 0 {
      RunKeepsLock(states, whos, steps, k - 1);
      NextKeepsLock(states[k - 1], whos[k - 1], steps[k - 1], states[k]);
    }
  }

  // ---------------------------------------------------------------- stretches of a run

  /** Step `i` replaced the account by another. */
  predicate Changes(states: seq<System>, i: nat)
    requires i + 1 < |states|
  {
    !SameAccount(states[i].account.creds, states[i + 1].account.creds)
  }

  lemma {:induction false} GenerationsGrow(states: seq<System>, whos: seq<nat>, steps: seq<Step>, j: nat, k: nat)
    requires Run(states, whos, steps) && Started(states[0]) && j <= k <= |steps|
    ensures states[j].account.generation <= states[k].account.generation
    decreases k
  {
    if j < k {
      GenerationsGrow(states, whos, steps, j, k - 1);
      SignedInMeansToken(states, whos, steps, k - 1);
      OnlyStoresChange(states[k - 1], whos[k - 1], steps[k - 1], states[k]);
    }
  }

  /** Between two moments of one generation the account differs only if some commit replaced it. */
  lemma {:induction false} ChangedBySome(states: seq<System>, whos: seq<nat>, steps: seq<Step>, j: nat, k: nat)
    requires Run(states, whos, steps) && Started(states[0]) && j <= k <= |steps|
    requires states[j].account.generation == states[k].account.generation
    ensures SameAccount(states[j].account.creds, states[k].account.creds)
            || exists i :: j <= i < k && Stores(steps[i]) && Changes(states, i)
    decreases k
  {
    if j < k {
      GenerationsGrow(states, whos, steps, j, k - 1);
      GenerationsGrow(states, whos, steps, k - 1, k);
      ChangedBySome(states, whos, steps, j, k - 1);
      SignedInMeansToken(states, whos, steps, k - 1);
      OnlyStoresChange(states[k - 1], whos[k - 1], steps[k - 1], states[k]);
      if Changes(states, k - 1) {
        assert Stores(steps[k - 1]);
      }
    }
  }

  // ---------------------------------------------------------------- refreshing

  predicate Refreshing(op: Operation) { op.AuthRefreshing? || op.AuthCommitting? }

  /** From state `from` to state `to` the operation `who` is refreshing. */
  ghost predicate RefreshesFrom(states: seq<System>, who: nat, from: nat, to: nat)
    requires to < |states|
  {
    forall i :: from <= i <= to ==> who in states[i].ops && Refreshing(states[i].ops[who])
  }

  function Carried(op: Operation): Credentials
    requires Refreshing(op)
  {
    if op.AuthRefreshing? then op.current else op.value
  }

  lemma RefreshStepCarries(s: System, who: nat, step: Step, t: System, mine: nat)
    requires Next(s, who, step, t)
    requires mine in s.ops && mine in t.ops && Refreshing(s.ops[mine]) && Refreshing(t.ops[mine])
    ensures t.ops[mine].g == s.ops[mine].g && SameAccount(Carried(t.ops[mine]), Carried(s.ops[mine]))
  {
    if who != mine { OthersStay(s, who, step, t, mine); }
  }

  lemma {:induction false} RefreshCarries(states: seq<System>, whos: seq<nat>, steps: seq<Step>, who: nat,
                                          j: nat, k: nat)
    requires Run(states, whos, steps) && j <= k <= |steps| && RefreshesFrom(states, who, j, k)
    ensures states[k].ops[who].g == states[j].ops[who].g
    ensures SameAccount(Carried(states[k].ops[who]), Carried(states[j].ops[who]))
    decreases k
  {
    if j < k {
      RefreshCarries(states, whos, steps, who, j, k - 1);
      RefreshStepCarries(states[k - 1], whos[k - 1], steps[k - 1], states[k], who);
    }
  }

  /** While one operation is refreshing no other one commits a refresh. */
  lemma NoOtherRefresh(states: seq<System>, whos: seq<nat>, steps: seq<Step>, who: nat, i: nat)
    requires Run(states, whos, steps) && Started(states[0]) && i < |steps|
    requires who in states[i].ops && Refreshing(states[i].ops[who])
    requires who in states[i + 1].ops && Refreshing(states[i + 1].ops[who])
    ensures !steps[i].AuthCommit?
  {
    RunKeepsLock(states, whos, steps, i);
  }

  /** A refresh stores the account it read at its snapshot.  It keeps the account that is signed in exactly
      if that still is the one it read; and it is, unless a login or a profile lookup of the same generation
      stored another one in between. */
  lemma RefreshKeepsAccountIff(states: seq<System>, whos: seq<nat>, steps: seq<Step>, who: nat, j: nat, k: nat)
    requires Run(states, whos, steps) && Started(states[0]) && j < k < |steps|
    requires whos[j] == who && steps[j].AuthSnapshot? && whos[k] == who && steps[k] == AuthCommit(false)
    requires RefreshesFrom(states, who, j + 1, k) && states[j].account.generation == states[k].account.generation
    ensures SameAccount(states[k + 1].account.creds, states[j].account.creds)
    ensures !Changes(states, k) <==> SameAccount(states[j].account.creds, states[k].account.creds)
    ensures Changes(states, k)
            ==> exists i :: j < i < k && (steps[i].PollCommit? || steps[i].EmailCommit?) && Changes(states, i)
  {
    RefreshCarries(states, whos, steps, who, j + 1, k);
    assert Next(states[j], who, steps[j], states[j + 1]) && Next(states[k], who, steps[k], states[k + 1]);
    GenerationsGrow(states, whos, steps, j + 1, k);
    ChangedBySome(states, whos, steps, j + 1, k);
    if Changes(states, k) {
      var i :| j + 1 <= i < k && Stores(steps[i]) && Changes(states, i);
      NoOtherRefresh(states, whos, steps, who, i);
    }
  }

  // ---------------------------------------------------------------- looking up the profile

  /** Between two moments of one generation the credentials differ only if some commit changed them. */
  lemma {:induction false} StoredBySome(states: seq<System>, whos: seq<nat>, steps: seq<Step>, j: nat, k: nat)
    requires Run(states, whos, steps) && Started(states[0]) && j <= k <= |steps|
    requires states[j].account.generation == states[k].account.generation
    ensures states[j].account.creds == states[k].account.creds || exists i :: j <= i < k && Stores(steps[i])
    decreases k
  {
    if j < k {
      GenerationsGrow(states, whos, steps, j, k - 1);
      GenerationsGrow(states, whos, steps, k - 1, k);
      StoredBySome(states, whos, steps, j, k - 1);
      SignedInMeansToken(states, whos, steps, k - 1);
      OnlyStoresChange(states[k - 1], whos[k - 1], steps[k - 1], states[k]);
      if !Stores(steps[k - 1]) { assert states[k].account.creds == states[k - 1].account.creds; }
    }
  }

  predicate LooksUp(op: Operation) { op.EmailAuthorized? || op.EmailFetched? }

  ghost predicate LooksUpFrom(states: seq<System>, who: nat, from: nat, to: nat)
    requires to < |states|
  {
    forall i :: from <= i <= to ==> who in states[i].ops && LooksUp(states[i].ops[who])
  }

  ghost predicate CommitsFrom(states: seq<System>, who: nat, from: nat, to: nat)
    requires to < |states|
  {
    forall i :: from <= i <= to ==> who in states[i].ops && states[i].ops[who].EmailCommitting?
  }

  lemma LookupStepKeeps(s: System, who: nat, step: Step, t: System, mine: nat)
    requires Next(s, who, step, t) && mine in s.ops && mine in t.ops
    ensures LooksUp(s.ops[mine]) && LooksUp(t.ops[mine]) ==> t.ops[mine].g == s.ops[mine].g
    ensures s.ops[mine].EmailCommitting? && t.ops[mine].EmailCommitting? ==> t.ops[mine] == s.ops[mine]
  {
    if who != mine { OthersStay(s, who, step, t, mine); }
  }

  lemma {:induction false} LookupKeepsGeneration(states: seq<System>, whos: seq<nat>, steps: seq<Step>, who: nat,
                                                 j: nat, k: nat)
    requires Run(states, whos, steps) && j <= k <= |steps| && LooksUpFrom(states, who, j, k)
    ensures states[k].ops[who].g == states[j].ops[who].g
    decreases k
  {
    if j < k {
      LookupKeepsGeneration(states, whos, steps, who, j, k - 1);
      LookupStepKeeps(states[k - 1], whos[k - 1], steps[k - 1], states[k], who);
    }
  }

  lemma {:induction false} CommitKeepsValue(states: seq<System>, whos: seq<nat>, steps: seq<Step>, who: nat,
                                            j: nat, k: nat)
    requires Run(states, whos, steps) && j <= k <= |steps| && CommitsFrom(states, who, j, k)
    ensures states[k].ops[who] == states[j].ops[who]
    decreases k
  {
    if j < k {
      CommitKeepsValue(states, whos, steps, who, j, k - 1);
      LookupStepKeeps(states[k - 1], whos[k - 1], steps[k - 1], states[k], who);
    }
  }

  /** Two credentials that differ at most in the address. */
  predicate SameButEmail(a: Credentials, b: Credentials) { a.(email := b.email) == b }

  lemma RereadIs(s: System, who: nat, t: System)
    requires Next(s, who, EmailReread, t) && who in t.ops
    ensures t.ops[who].EmailCommitting? && t.ops[who].g == s.account.generation && t.account == s.account
    ensures SameButEmail(t.ops[who].value, s.account.creds)
  {
  }

  /** EnsureEmail stores the credentials it read last, with the address it fetched.  Besides the address it
      keeps what is stored exactly if that still is what it read; and it is, unless a login, a refresh or
      another lookup of the same generation stored something in between. */
  lemma EmailKeepsCredentialsIff(states: seq<System>, whos: seq<nat>, steps: seq<Step>, who: nat, r: nat, k: nat)
    requires Run(states, whos, steps) && Started(states[0]) && r < k < |steps|
    requires whos[r] == who && steps[r] == EmailReread && whos[k] == who && steps[k] == EmailCommit(false)
    requires CommitsFrom(states, who, r + 1, k) && states[r].account.generation == states[k].account.generation
    ensures SameButEmail(states[k + 1].account.creds, states[r].account.creds)
    ensures SameButEmail(states[k + 1].account.creds, states[k].account.creds)
            <==> SameButEmail(states[r].account.creds, states[k].account.creds)
    ensures !SameButEmail(states[k + 1].account.creds, states[k].account.creds)
            ==> exists i :: r < i < k && Stores(steps[i])
  {
    CommitKeepsValue(states, whos, steps, who, r + 1, k);
    assert Next(states[r], who, steps[r], states[r + 1]) && Next(states[k], who, steps[k], states[k + 1]);
    RereadIs(states[r], who, states[r + 1]);
    StoredBySome(states, whos, steps, r + 1, k);
  }

  /** The account whose token was used to fetch the address is the one signed in when the authorization
      ended. */
  lemma AuthorizedIs(s: System, who: nat, step: Step, t: System)
    requires Next(s, who, step, t) && who in t.ops && t.ops[who].EmailAuthorized?
    ensures who in s.ops && (step.AuthSnapshot? || step.AuthCommit?)
    ensures step.AuthSnapshot? ==> t.account == s.account
    ensures step.AuthCommit? ==> s.ops[who].AuthCommitting? && t.account.creds == s.ops[who].value
  {
  }

  /** The address that is stored belongs to the account it is stored with exactly if the account at the last
      reading is the one that was authorized; and it is, unless a commit of the same generation replaced it
      in between. */
  lemma EmailFitsAccountIff(states: seq<System>, whos: seq<nat>, steps: seq<Step>, who: nat, a: nat, r: nat, k: nat)
    requires Run(states, whos, steps) && Started(states[0]) && a < r < k < |steps|
    requires whos[a] == who && who in states[a + 1].ops && states[a + 1].ops[who].EmailAuthorized?
    requires LooksUpFrom(states, who, a + 1, r)
    requires whos[r] == who && steps[r] == EmailReread && whos[k] == who && steps[k] == EmailCommit(false)
    requires CommitsFrom(states, who, r + 1, k) && states[r].account.generation == states[k].account.generation
    ensures states[k + 1].account.creds.authId == states[a + 1].account.creds.authId
            <==> states[r].account.creds.authId == states[a + 1].account.creds.authId
    ensures states[k + 1].account.creds.authId != states[a + 1].account.creds.authId
            ==> exists i :: a < i < r && Stores(steps[i]) && Changes(states, i)
  {
    EmailKeepsCredentialsIff(states, whos, steps, who, r, k);
    LookupKeepsGeneration(states, whos, steps, who, a + 1, r);
    assert Next(states[r], who, steps[r], states[r + 1]);
    RereadIs(states[r], who, states[r + 1]);
    SignedInMeansToken(states, whos, steps, a + 1);
    assert OperationOk(states[a + 1].ops[who], states[a + 1].account);
    GenerationsGrow(states, whos, steps, a + 1, r);
    ChangedBySome(states, whos, steps, a + 1, r);
  }

  /** It happens: a lookup that began on the old account stores its address with the new one. */
  lemma EmailCanMixAccounts()
    ensures exists s :: Reachable(s) && s.account.state.SignedIn?
                        && s.account.creds == Credentials("n", "", "new", "old@x")
  {
    var newer, older := Credentials("n", "", "new", ""), Credentials("o", "", "old", "");
    var s := LookupAuthorized(older);
    var fetched := LookupFetched(s, older);
    var stored := LoginStored(fetched, older, newer);
    var mixed := EmailStored(stored, newer);
  }

  /** What was fetched before is stored with what was signed in since. */
  lemma EmailStored(s: System, newer: Credentials) returns (t: System)
    requires Reachable(s) && s.account == Account(newer, SignedIn, "", 1, Some(1))
    requires 0 in s.ops && s.ops[0] == EmailFetched(1, "old@x")
    ensures Reachable(t) && t.account.creds == newer.(email := "old@x") && t.account.state.SignedIn?
  {
    var read := With(s, s.account, 0, EmailCommitting(1, newer.(email := "old@x")));
    ReachesNext(s, 0, EmailReread, read);
    t := Without(read, Committed(read.account, 1, newer.(email := "old@x"), false), 0);
    ReachesNext(read, 0, EmailCommit(false), t);
  }

  lemma LoginStored(s: System, older: Credentials, newer: Credentials) returns (t: System)
    requires Reachable(s) && newer.access != "" && older.access != ""
    requires s == System(LoginBegun(Loaded(Some(older))), map[0 := EmailFetched(1, "old@x"), 1 := Polling(1)], {}, None)
    ensures Reachable(t)
    ensures t.account == Account(newer, SignedIn, "", 1, Some(1)) && t.refreshing == None
    ensures t.ops == map[0 := EmailFetched(1, "old@x"), 1 := PollEnding(1)]
  {
    var s2 := With(s, s.account, 1, PollDone(1, newer));
    ReachesNext(s, 1, PollAnswered(newer), s2);
    t := With(s2, Committed(s2.account, 1, newer, false), 1, PollEnding(1));
    ReachesNext(s2, 1, PollCommit(false), t);
  }

  /** A lookup that starts just before a login, and reads the account just after. */
  lemma LookupAuthorized(older: Credentials) returns (s: System)
    requires older.access != "" && older.email == ""
    ensures Reachable(s)
    ensures s == System(LoginBegun(Loaded(Some(older))), map[0 := EmailRead(1), 1 := OpeningBrowser(1)], {}, None)
  {
    LoadedIsReachable(Some(older));
    var s0 := System(Loaded(Some(older)), map[], {}, None);
    var s1 := With(s0, s0.account, 0, EmailChecked);
    ReachesNext(s0, 0, EnsureEmail, s1);
    var s2 := With(s1, LoginBegun(s1.account), 1, OpeningBrowser(1));
    ReachesNext(s1, 1, StartLogin, s2);
    s := With(s2, s2.account, 0, EmailRead(1));
    ReachesNext(s2, 0, EmailSnapshot, s);
  }

  lemma LookupFetched(s: System, older: Credentials) returns (t: System)
    requires older.access != "" && Reachable(s)
    requires s == System(LoginBegun(Loaded(Some(older))), map[0 := EmailRead(1), 1 := OpeningBrowser(1)], {}, None)
    ensures Reachable(t)
    ensures t == System(LoginBegun(Loaded(Some(older))), map[0 := EmailFetched(1, "old@x"), 1 := Polling(1)], {}, None)
  {
    var s1 := With(s, s.account, 0, AuthBegun(Some(1))).(refreshing := Some(0));
    ReachesNext(s, 0, EmailAuthorize, s1);
    var s2 := With(s1, s1.account, 0, EmailAuthorized(1)).(refreshing := None);
    ReachesNext(s1, 0, AuthSnapshot(false), s2);
    var s3 := With(s2, s2.account, 0, EmailFetched(1, "old@x"));
    ReachesNext(s2, 0, ProfileAnswered("old@x"), s3);
    t := With(s3, s3.account, 1, Polling(1));
    ReachesNext(s3, 1, BrowserOpened(true), t);
  }
}
