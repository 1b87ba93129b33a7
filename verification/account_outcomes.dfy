/** What each operation of the account manager leads to: when a commit counts, what a failure shows, and when a
    login signs in. */
module AccountOutcomes {
  import opened Common
  import opened Account
  import opened AccountRaces

  /** The operation `who` is about to store `value` for generation `g`. */
  predicate Committing(op: Operation, step: Step, g: nat, value: Credentials, saveFails: bool) {
    || (op == PollDone(g, value) && step == PollCommit(saveFails))
    || (op.AuthCommitting? && op.g == g && op.value == value && step == AuthCommit(saveFails))
    || (op == EmailCommitting(g, value) && step == EmailCommit(saveFails))
  }

  /** A commit signs in with what it stores exactly if its generation is the current one and the save
      succeeds; a failing save only shows an error, and a commit of another generation changes nothing. */
  lemma CommitOutcome(s: System, who: nat, step: Step, t: System, g: nat, value: Credentials, saveFails: bool)
    requires Next(s, who, step, t) && who in s.ops && Committing(s.ops[who], step, g, value, saveFails)
    ensures t.account.generation == s.account.generation && t.account.cancel == s.account.cancel
    ensures if g != s.account.generation then t.account == s.account
            else if saveFails then t.account.creds == s.account.creds && t.account.state.Failed?
            else t.account.creds == value && t.account.state.SignedIn? && t.account.message == ""
  {
  }

  /** A failure of an operation, and the generation it belongs to. */
  predicate Failing(op: Operation, step: Step, g: nat, message: string) {
    || (op == OpeningBrowser(g) && step == BrowserOpened(false) && message == "browser")
    || (op == Polling(g) && step.PollAnswered? && step.value.access == "" && message == "no access token")
    || (op == Polling(g) && step == PollFailed(message))
    || (op == Polling(g) && step == PollStops(true) && message == "timeout")
    || (op.AuthExpired? && op.g == g && step.AuthFail? && message == "expired")
    || (op.AuthRefreshing? && op.g == g && step == RefreshAnswered(RefreshFailed(message)))
    || (op.AuthRefreshing? && op.g == g && step.RefreshAnswered? && step.answer.NewTokens? && step.answer.access == ""
        && message == "no access token")
  }

  /** A failure shows its error and keeps the credentials exactly if its generation is the current one. */
  lemma FailureOutcome(s: System, who: nat, step: Step, t: System, g: nat, message: string)
    requires Next(s, who, step, t) && who in s.ops && Failing(s.ops[who], step, g, message)
    ensures t.account == if g != s.account.generation then s.account
                         else s.account.(state := Failed, message := message)
  {
  }

  /** The refresh of the current generation found that Cursor logged the account out. */
  predicate LogsOut(s: System, who: nat, step: Step) {
    && who in s.ops && s.ops[who].AuthRefreshing? && s.ops[who].g == s.account.generation
    && step == RefreshAnswered(ShouldLogout)
  }

  /** A generation begins exactly with a login, a disconnect, a shutdown and a logout found by a refresh; the
      credentials stay at a login and a shutdown, and go at a disconnect and a logout. */
  lemma GenerationOutcome(s: System, who: nat, step: Step, t: System)
    requires Next(s, who, step, t)
    ensures t.account.generation
            == s.account.generation
               + if step.StartLogin? || step.Disconnect? || step.Stop? || LogsOut(s, who, step) then 1 else 0
    ensures step.StartLogin? ==> t.account.state.AwaitingLogin? && t.account.creds == s.account.creds
                                 && t.account.cancel == Some(t.account.generation) && t.account.message == ""
    ensures step.Disconnect? ==> t.account.state.SignedOut? && t.account.creds == NO_CREDENTIALS
                                 && t.account.cancel.None? && t.account.message == ""
    ensures step.Stop? ==> t.account.creds == s.account.creds && t.account.state == s.account.state
                           && t.account.cancel.None?
    ensures step.PollEnd? && s.ops[who].PollEnding?
            ==> t.account == if s.ops[who].g == s.account.generation then s.account.(cancel := None) else s.account
    ensures LogsOut(s, who, step) ==> t.account.state.Failed? && t.account.creds == NO_CREDENTIALS
    ensures (step.StartLogin? || step.Disconnect? || step.Stop?) && s.account.cancel.Some?
            ==> s.account.cancel.value in t.cancelled
  {
  }

  // ---------------------------------------------------------------- when a login signs in

  predicate IsLogin(op: Operation, g: nat) {
    op == OpeningBrowser(g) || op == Polling(g) || op == PollEnding(g) || (op.PollDone? && op.g == g)
  }

  /** Between its beginning and its commit `who` does nothing but this login. */
  predicate OneLogin(whos: seq<nat>, steps: seq<Step>, who: nat, i: nat, k: nat)
    requires i < k <= |steps| && |whos| == |steps|
  {
    forall j :: i < j < k && whos[j] == who ==> !Begins(steps[j])
  }

  lemma LoginStepCarries(s: System, who: nat, step: Step, t: System, mine: nat, g: nat)
    requires Next(s, who, step, t) && (who == mine ==> !Begins(step))
    requires mine in s.ops ==> IsLogin(s.ops[mine], g)
    ensures mine in t.ops ==> IsLogin(t.ops[mine], g)
    ensures mine in t.ops && t.ops[mine].PollDone?
            ==> || (who == mine && step == PollAnswered(t.ops[mine].value))
                || (mine in s.ops && s.ops[mine] == t.ops[mine])
  {
    if who != mine { OthersStay(s, who, step, t, mine); }
  }

  /** The login keeps its generation, and what it is about to commit is what the poll answered. */
  lemma {:induction false} LoginCarries(states: seq<System>, whos: seq<nat>, steps: seq<Step>, who: nat, i: nat, k: nat)
    requires Run(states, whos, steps) && i < k <= |steps| && whos[i] == who && steps[i].StartLogin?
    requires OneLogin(whos, steps, who, i, k)
    ensures who in states[k].ops ==> IsLogin(states[k].ops[who], states[i + 1].account.generation)
    ensures who in states[k].ops && states[k].ops[who].PollDone?
            ==> exists j :: i < j < k && whos[j] == who && steps[j] == PollAnswered(states[k].ops[who].value)
  {
    assert Next(states[i], whos[i], steps[i], states[i + 1]);
    if i + 1 < k {
      LoginCarries(states, whos, steps, who, i, k - 1);
      LoginStepCarries(states[k - 1], whos[k - 1], steps[k - 1], states[k], who, states[i + 1].account.generation);
    }
  }

  /** In every run a login that commits signs in, with the credentials its poll was answered, exactly if the save
      succeeds and no generation began since. */
  lemma LoginSignsInIff(states: seq<System>, whos: seq<nat>, steps: seq<Step>, who: nat, i: nat, k: nat,
                        saveFails: bool)
    requires Run(states, whos, steps) && Started(states[0]) && i < k < |steps|
    requires whos[i] == who && steps[i].StartLogin? && whos[k] == who && steps[k] == PollCommit(saveFails)
    requires OneLogin(whos, steps, who, i, k)
    ensures exists j :: i < j < k && whos[j] == who && steps[j].PollAnswered?
                        && var account := states[k + 1].account;
                           if !saveFails && (forall m :: i < m < k ==> SameGeneration(states, m)) then
                             account.state.SignedIn? && account.creds == steps[j].value
                           else account.creds == states[k].account.creds
  {
    LoginCarries(states, whos, steps, who, i, k);
    assert Next(states[k], whos[k], steps[k], states[k + 1]);
    var op := states[k].ops[who];
    CommitOutcome(states[k], who, steps[k], states[k + 1], op.g, op.value, saveFails);
    SameThroughout(states, whos, steps, i + 1, k);
    var j :| i < j < k && whos[j] == who && steps[j] == PollAnswered(op.value);
  }

  predicate SameGeneration(states: seq<System>, m: nat)
    requires m + 1 < |states|
  {
    states[m].account.generation == states[m + 1].account.generation
  }

  lemma {:induction false} SameThroughout(states: seq<System>, whos: seq<nat>, steps: seq<Step>, j: nat, k: nat)
    requires Run(states, whos, steps) && Started(states[0]) && j <= k <= |steps|
    ensures states[j].account.generation == states[k].account.generation
            <==> forall m :: j <= m < k ==> SameGeneration(states, m)
    decreases k
  {
    if j < k {
      SameThroughout(states, whos, steps, j, k - 1);
      GenerationsGrow(states, whos, steps, j, k - 1);
      GenerationsGrow(states, whos, steps, k - 1, k);
      assert SameGeneration(states, k - 1)
             <==> states[k - 1].account.generation == states[k].account.generation;
    }
  }
}
