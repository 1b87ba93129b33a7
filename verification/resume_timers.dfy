/** Resume timers of the stream actor across runs: a new run starts the tokens anew, so a timer that was armed
    before it may carry a current token again. */
module ResumeTimers {
  import opened Common
  import opened TurnActor

  /** The timer was armed before the tokens began anew, and starts a pass. */
  predicate ActsLate(s: State, fired: Timer) {
    fired in s.armed && fired.epoch < s.epoch && !s.active && Next(s, DoResume(fired, Runs)).active
  }

  /** Every timer was armed with an odd token: each is armed on an even count, and used up by one more
      before the next. */
  ghost predicate Paired(s: State) {
    && (forall t :: t in s.armed ==> t.token % 2 == 1 && t.epoch <= s.epoch)
    && (s.status.Open? && !s.active ==> s.token !in s.running)
    && (s.status.Open? && s.timer % 2 == 1
        ==> s.action.Resume? && !s.active && !s.Pending() && s.compaction.NoCompaction?)
  }

  lemma DriveKeepsPaired(s: State, outcome: Outcome)
    requires Paired(s) && TokensOk(s) && s.timer % 2 == 0
    ensures Paired(Drive(s, outcome))
  {
  }

  lemma ScheduleKeepsPaired(s: State)
    requires Paired(s) && s.timer % 2 == 0
    requires s.action.Resume? && !s.active && !s.Pending() && s.compaction.NoCompaction?
    ensures Paired(ScheduleResume(s))
  {
  }

  lemma UseKeepsPaired(s: State)
    requires Paired(s) && s.timer % 2 == 0 && s.completion.Some? && !s.action.Start?
    requires !s.active && !s.Pending() && s.compaction.NoCompaction?
    ensures Paired(UseCompletion(s))
  {
    var t := ConsumeCompletion(s);
    if s.completion.value.ResumeAfterExternal? {
      ScheduleKeepsPaired(t.(action := Resume, phase := WaitingExternal));
    }
  }

  lemma ActKeepsPaired(s: State, outcome: Outcome)
    requires Paired(s) && TokensOk(s) && s.timer % 2 == 0
    requires !s.active && !s.Pending() && s.compaction.NoCompaction?
    ensures Paired(Act(s, outcome))
  {
    match s.action
    case Start => DriveKeepsPaired(s, outcome);
    case Resume => ScheduleKeepsPaired(s.(phase := WaitingExternal));
    case NoAction =>
  }

  lemma ReconcileKeepsPaired(s: State, outcome: Outcome)
    requires Paired(s) && TokensOk(s) && s.timer % 2 == 0 && (s.completion.Some? ==> !s.action.Start?)
    ensures Paired(Reconcile(s, outcome))
  {
    if !s.Terminal() && !s.active && !s.Pending() && s.compaction.NoCompaction? {
      if s.completion.Some? { UseKeepsPaired(s); } else { ActKeepsPaired(s, outcome); }
    }
  }

  lemma RunIntentKeepsPaired(s: State, hasWork: bool, prewarm: bool, outcome: Outcome)
    requires Inv(s) && Paired(s)
    ensures Paired(NewRun(s, hasWork, prewarm, outcome))
  {
    var t := if s.active || s.Pending() || s.phase.WaitingExternal? then Superseded(s) else s;
    SupersededIsPaired(s);
    FreshIsPaired(t);
    if s.status.Open? { NewTurnIsClean(s); }
    StartKeepsPaired(FreshTurn(t), outcome);
  }

  lemma StartKeepsPaired(s: State, outcome: Outcome)
    requires Paired(s) && TokensOk(s) && s.timer == 0 && (s.status.Open? ==> s.completion.None?)
    ensures Paired(Request(s, Start, outcome))
  {
    if s.status.Open? { ReconcileKeepsPaired(s.(action := Start), outcome); }
  }

  lemma SupersededIsPaired(s: State)
    requires Paired(s) && TokensOk(s)
    ensures Paired(Superseded(s)) && TokensOk(Superseded(s))
  {
  }

  lemma FreshIsPaired(s: State)
    requires Paired(s) && TokensOk(s)
    ensures Paired(FreshTurn(s)) && TokensOk(FreshTurn(s)) && FreshTurn(s).timer == 0
  {
  }

  lemma ConcludeKeepsPaired(s: State, ending: Ending, outcome: Outcome)
    requires Paired(s) && TokensOk(s) && s.timer % 2 == 0 && s.action.NoAction? && ending.Ended?
    requires s.status.Open? ==> !s.claimed
    ensures Paired(Conclude(s, ending, outcome))
  {
    var t := if s.completion.Some? then ConsumeCompletion(s) else s;
    ReconcileKeepsPaired(t.(action := Resume), outcome);
  }

  lemma DoneKeepsPaired(s: State, token: nat, ending: Ending, outcome: Outcome)
    requires Inv(s) && Paired(s) && token in s.running
    ensures Paired(ProviderDone(s.(running := s.running - {token}), token, ending, outcome))
  {
    if s.status.Open? && token == s.token {
      var t := s.(running := s.running - {token}, active := false, action := NoAction);
      assert Paired(t) && TokensOk(t);
      if ending.Ended? && !s.Pending() { ConcludeKeepsPaired(t, ending, outcome); }
    }
  }

  lemma ExecKeepsPaired(s: State, id: string, outcome: Outcome)
    requires Inv(s) && Paired(s)
    ensures Paired(ExecResult(s, id, outcome))
  {
    if s.status.Open? && id in s.execs { ReconcileKeepsPaired(s.(execs := s.execs - {id}), outcome); }
  }

  lemma InteractionKeepsPaired(s: State, id: string, outcome: Outcome)
    requires Inv(s) && Paired(s)
    ensures Paired(InteractionResult(s, id, outcome))
  {
    if s.status.Open? && id in s.interactions {
      var t := s.(interactions := s.interactions - {id});
      ReconcileKeepsPaired(t, outcome);
      ReconcileKeepsPaired(Remember(t, CompleteAfterExternal), outcome);
    }
  }

  lemma CompactionKeepsPaired(s: State, token: nat, failed: bool, manual: bool, outcome: Outcome)
    requires Inv(s) && Paired(s) && token in s.summaries
    ensures Paired(CompactionDone(s.(summaries := s.summaries - {token}), token, failed, manual, outcome))
  {
    if s.status.Open? && token == s.compactionToken {
      var t := s.(summaries := s.summaries - {token}, active := false, action := Resume, compaction := NoCompaction);
      ReconcileKeepsPaired(t, outcome);
    }
  }

  lemma UsedUpKeepsPaired(s: State, fired: Timer)
    requires Paired(s) && fired in s.armed
    ensures Paired(s.(armed := s.armed - multiset{fired}))
    ensures fired.token == s.timer ==> Paired(s.(armed := s.armed - multiset{fired}, timer := s.timer + 1))
  {
    assert forall u :: u in s.armed - multiset{fired} ==> u in s.armed;
  }

  lemma ResumeFiredIs(s: State, fired: Timer, outcome: Outcome) returns (t: State)
    requires fired in s.armed
    ensures t == if fired.token == s.timer then s.(armed := s.armed - multiset{fired}, timer := s.timer + 1)
                 else s.(armed := s.armed - multiset{fired})
    ensures ResumeFired(s.(armed := s.armed - multiset{fired}), fired, outcome) in {t, Drive(t, outcome)}
    ensures fired.token != s.timer ==> ResumeFired(s.(armed := s.armed - multiset{fired}), fired, outcome) == t
  {
    t := if fired.token == s.timer then s.(armed := s.armed - multiset{fired}, timer := s.timer + 1)
         else s.(armed := s.armed - multiset{fired});
  }

  lemma ResumeKeepsPaired(s: State, fired: Timer, outcome: Outcome)
    requires Paired(s) && TokensOk(s) && fired in s.armed
    ensures Paired(ResumeFired(s.(armed := s.armed - multiset{fired}), fired, outcome))
  {
    UsedUpKeepsPaired(s, fired);
    var t := ResumeFiredIs(s, fired, outcome);
    if fired.token == s.timer { DriveKeepsPaired(t, outcome); }
  }

  /** While an edit is being finished the count is even. */
  ghost predicate EvenAtEdits(s: State) {
    && (forall t :: t in s.armed ==> t.token % 2 == 1 && t.epoch <= s.epoch)
    && (s.status.Open? && s.execs != {} ==> s.timer % 2 == 0)
  }

  lemma EditKeepsEven(s: State, edit: string)
    requires EvenAtEdits(s) && !s.action.Start?
    ensures EvenAtEdits(EditFinished(s, edit)) && !EditFinished(s, edit).action.Start?
  {
  }

  lemma {:induction false} EditsKeepEven(s: State, edits: seq<string>)
    requires EvenAtEdits(s) && !s.action.Start?
    ensures EvenAtEdits(EditsFinished(s, edits)) && !EditsFinished(s, edits).action.Start?
  {
    if edits != [] {
      EditsKeepEven(s, edits[..|edits| - 1]);
      EditKeepsEven(EditsFinished(s, edits[..|edits| - 1]), edits[|edits| - 1]);
    }
  }

  lemma CancelKeepsPaired(s: State, edits: seq<string>)
    requires Paired(s)
    ensures Paired(Cancel(s, edits))
  {
    EditsKeepEven(Stopped(s), edits);
  }

  lemma NextKeepsPaired(s: State, step: Step)
    requires Inv(s) && Paired(s)
    ensures Paired(Next(s, step))
  {
    match step
    case DoRun(hasWork, prewarm, outcome) => RunIntentKeepsPaired(s, hasWork, prewarm, outcome);
    case DoDone(token, ending, outcome) => if token in s.running { DoneKeepsPaired(s, token, ending, outcome); }
    case DoExecResult(id, outcome) => ExecKeepsPaired(s, id, outcome);
    case DoInteractionResult(id, outcome) => InteractionKeepsPaired(s, id, outcome);
    case DoCompaction(token, failed, manual, outcome) =>
      if token in s.summaries { CompactionKeepsPaired(s, token, failed, manual, outcome); }
    case DoResume(fired, outcome) => if fired in s.armed { ResumeKeepsPaired(s, fired, outcome); }
    case DoCancel(edits) => CancelKeepsPaired(s, edits);
    case _ =>
  }

  lemma {:induction false} RunKeepsPaired(s: State, steps: seq<Step>)
    requires Inv(s) && Paired(s)
    ensures Inv(Run(s, steps)) && Paired(Run(s, steps))
    decreases |steps|
  {
    if steps != [] {
      NextKeepsInv(s, steps[0]);
      NextKeepsPaired(s, steps[0]);
      RunKeepsPaired(Next(s, steps[0]), steps[1..]);
    }
  }

  lemma {:induction false} EndedStays(s: State, steps: seq<Step>)
    requires s.Terminal()
    ensures Run(s, steps).Terminal()
    decreases |steps|
  {
    if steps != [] { EndedStays(Next(s, steps[0]), steps[1..]); }
  }

  /** A pass runs with nothing else going on, on an even count. */
  ghost predicate Cruising(s: State) {
    && s.status.Open? && s.active && s.token > 0 && s.token in s.running && !s.Pending()
    && s.compaction.NoCompaction? && s.completion.None? && s.action.NoAction? && s.timer % 2 == 0
  }

  /** The pass ends and asks for another. */
  lemma PassAsksForMore(s: State) returns (t: State)
    requires Cruising(s)
    ensures t == Next(s, DoDone(s.token, Ended(true, false, false, false), Runs))
    ensures t.status.Open? && !t.active && !t.Pending() && t.compaction.NoCompaction? && t.completion.None?
    ensures t.action.Resume? && t.timer == s.timer + 1 && t.epoch == s.epoch
    ensures t.armed == s.armed + multiset{Timer(s.timer + 1, s.epoch)}
  {
    t := Next(s, DoDone(s.token, Ended(true, false, false, false), Runs));
  }

  /** Its timer fires and the next pass runs. */
  lemma TimerGivesMore(s: State, fired: Timer) returns (t: State)
    requires s.status.Open? && !s.active && !s.Pending() && s.compaction.NoCompaction? && s.completion.None?
    requires s.action.Resume? && fired in s.armed && fired.token == s.timer && s.timer % 2 == 1
    ensures t == Next(s, DoResume(fired, Runs)) && Cruising(t)
    ensures t.timer == s.timer + 1 && t.epoch == s.epoch && t.armed == s.armed - multiset{fired}
  {
    t := Next(s, DoResume(fired, Runs));
  }

  /** Passes that ask for more bring the count of the resume timer to any odd token. */
  lemma {:induction false} CountsUpTo(s: State, late: Timer) returns (steps: seq<Step>)
    requires Cruising(s) && late in s.armed && late.epoch < s.epoch && late.token % 2 == 1 && s.timer < late.token
    ensures ActsLate(Run(s, steps), late)
    decreases late.token - s.timer
  {
    var done := DoDone(s.token, Ended(true, false, false, false), Runs);
    var t := PassAsksForMore(s);
    if t.timer == late.token {
      steps := [done];
      var u := TimerGivesMore(t, late);
      assert Run(s, steps) == Run(t, steps[1..]) == t;
    } else {
      var fired := Timer(t.timer, t.epoch);
      var u := TimerGivesMore(t, fired);
      var rest := CountsUpTo(u, late);
      steps := [done, DoResume(fired, Runs)] + rest;
      assert steps[1..][1..] == rest && steps[1..][0] == DoResume(fired, Runs);
      assert Run(s, steps) == Run(t, steps[1..]) == Run(u, rest);
    }
  }

  lemma NewRunCruises(before: seq<Step>) returns (t: State)
    requires Run(Initial, before).status.Open?
    ensures var s := Run(Initial, before);
            && t == Next(s, DoRun(true, false, Runs)) && Cruising(t)
            && t.epoch > s.epoch && t.armed == s.armed && t.timer == 0
  {
    EveryRunKeepsInv(before);
    var s := Run(Initial, before);
    StartBeginsPassIff(before);
    NewTurnIsClean(s);
    t := Next(s, DoRun(true, false, Runs));
  }

  /** The timer starts a pass at the end of some continuation. */
  ghost predicate CanAct(s: State, late: Timer) {
    exists steps :: ActsLate(Run(s, steps), late)
  }

  lemma StepThenActs(s: State, step: Step, rest: seq<Step>, late: Timer)
    requires ActsLate(Run(Next(s, step), rest), late)
    ensures CanAct(s, late)
  {
    var steps := [step] + rest;
    assert steps[0] == step && steps[1..] == rest;
    assert Run(s, steps) == Run(Next(s, step), rest);
  }

  lemma OpenLetsItAct(before: seq<Step>, late: Timer)
    requires late in Run(Initial, before).armed && late.epoch < Run(Initial, before).epoch
    requires Run(Initial, before).status.Open?
    ensures CanAct(Run(Initial, before), late)
  {
    ArmedOnOddTokens(before, late);
    var t := NewRunCruises(before);
    var rest := CountsUpTo(t, late);
    StepThenActs(Run(Initial, before), DoRun(true, false, Runs), rest, late);
  }

  lemma ArmedOnOddTokens(before: seq<Step>, fired: Timer)
    requires fired in Run(Initial, before).armed
    ensures fired.token % 2 == 1
  {
    RunKeepsPaired(Initial, before);
  }

  lemma EndedLetsNoneAct(s: State, late: Timer)
    requires s.Terminal()
    ensures !CanAct(s, late)
  {
    forall steps ensures !ActsLate(Run(s, steps), late) {
      EndedStays(s, steps);
      EndedActsNoMore(Run(s, steps), late);
    }
  }

  /** A resume timer armed before the tokens began anew can start a pass of a later run exactly if the stream
      has not ended. */
  lemma OldResumeTimerCanActIff(before: seq<Step>, late: Timer)
    requires late in Run(Initial, before).armed && late.epoch < Run(Initial, before).epoch
    ensures CanAct(Run(Initial, before), late) <==> Run(Initial, before).status.Open?
  {
    if Run(Initial, before).status.Open? {
      OpenLetsItAct(before, late);
    } else {
      EndedLetsNoneAct(Run(Initial, before), late);
    }
  }

  lemma EndedActsNoMore(s: State, late: Timer)
    requires s.Terminal()
    ensures !ActsLate(s, late)
  {
  }

  /** A run intent with work leaves such a timer behind exactly if one was armed. */
  lemma RunLeavesOldTimersIff(before: seq<Step>, prewarm: bool, outcome: Outcome)
    ensures var s := Run(Initial, before);
            var t := Next(s, DoRun(true, prewarm, outcome));
            (exists late :: late in t.armed && late.epoch < t.epoch) <==> s.armed != multiset{}
  {
    RunKeepsPaired(Initial, before);
    var s := Run(Initial, before);
    var t := Next(s, DoRun(true, prewarm, outcome));
    NewRunKeepsTimers(s, prewarm, outcome);
    if s.armed != multiset{} {
      var late :| late in s.armed;
      assert late in t.armed && late.epoch < t.epoch;
    }
  }

  lemma NewRunKeepsTimers(s: State, prewarm: bool, outcome: Outcome)
    requires Inv(s)
    ensures var t := NewRun(s, true, prewarm, outcome);
            t.epoch > s.epoch && t.armed == s.armed
  {
    if s.status.Open? { NewTurnIsClean(s); }
  }
}
