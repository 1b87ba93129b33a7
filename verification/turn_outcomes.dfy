/** What each command of the stream actor leads to, after any run of commands: which one completes the turn,
    fails it, starts a pass, arms a resume, or leaves it waiting. */
module TurnOutcomes {
  import opened Common
  import opened TurnActor

  /** The terminal event is claimed now. */
  predicate TurnCompletes(s: State, t: State) {
    && t.status.Completed? && t.phase.PhaseCompleted? && t.claimed && !t.active
    && |s.log| < |t.log| && s.log <= t.log && t.log[|t.log| - 1] == TurnCompleted
  }

  predicate TurnFails(s: State, t: State) {
    && t.status.Failed? && t.phase.PhaseFailed? && !t.active && t.action.NoAction? && t.completion.None?
    && t.log == s.log + [Forgotten]
  }

  predicate NotCompletedSince(s: State, t: State) {
    s.log <= t.log && TurnCompleted !in t.log[|s.log|..]
  }

  /** The turn goes on by itself: a resume is pending, and a new timer that carries the current token. */
  predicate ResumeIsArmed(s: State, t: State) {
    && t.status.Open? && t.phase.WaitingExternal? && !t.active && !t.Pending() && t.action.Resume?
    && t.completion.None? && t.timer == s.timer + 1 && t.epoch == s.epoch
    && t.armed == s.armed + multiset{Timer(t.timer, t.epoch)}
    && t.token == s.token && NotCompletedSince(s, t)
  }

  /** What becomes of an attempt to begin a pass. */
  predicate PassBegins(s: State, outcome: Outcome, t: State) {
    && t.token == s.token + 1 && t.timer == s.timer && t.armed == s.armed
    && match outcome
       case Runs =>
         && t.status.Open? && t.phase.ProviderRunning? && t.active && t.action.NoAction?
         && t.running == s.running + {t.token}
         && t.log == s.log + [Started(t.token, true)]
       case CannotPrepare => TurnFails(s, t) && t.running == s.running
       case Compacts(hook) =>
         && t.status.Open? && t.phase.Compacting? && !t.active
         && t.compaction == AwaitingHook(hook) && t.execs == s.execs + {hook}
         && t.running == s.running && t.log == s.log
       case NothingToCompact =>
         t.status.Open? && t.phase.Idle? && !t.active && t.action.NoAction? && t.running == s.running && t.log == s.log
  }

  // ---------------------------------------------------------------- the end of a pass

  /** Whether the normal end of a pass that left nothing pending completes the turn: a remembered completion
      decides; without one, the recovery of an empty stop and tool calls or a stop that asks for more go on,
      unless a tool ended the turn. */
  predicate Finishes(completion: Option<Disposition>, ending: Ending)
    requires ending.Ended?
  {
    if completion.Some? then completion.value != ResumeAfterExternal
    else !ending.retried && (ending.terminalTool || !(ending.hadTool || ending.resumes))
  }

  /** After any run, the report of the current pass of an open stream with nothing pending: an error fails the
      turn, and a normal end completes it or else arms a resume. */
  lemma DoneOutcome(before: seq<Step>, ending: Ending, outcome: Outcome)
    requires var s := Run(Initial, before);
             s.status.Open? && s.token in s.running && !s.Pending() && !ending.Interrupted?
    ensures var s := Run(Initial, before);
            var t := Next(s, DoDone(s.token, ending, outcome));
            && t.running == s.running - {s.token}
            && (if ending.Errored? then TurnFails(s, t)
                else if Finishes(s.completion, ending) then TurnCompletes(s, t)
                else ResumeIsArmed(s, t))
  {
    EveryRunKeepsInv(before);
    var s := Run(Initial, before);
    var u := s.(running := s.running - {s.token}, active := false, action := NoAction);
    if ending.Ended? { QuietDone(u, ending, outcome); }
  }

  /** An open stream on which nothing goes on. */
  predicate Still(u: State) {
    u.status.Open? && !u.claimed && !u.active && !u.Pending() && u.compaction.NoCompaction? && u.action.NoAction?
  }

  lemma ResumesQuietly(u: State, outcome: Outcome)
    requires Still(u) && u.completion.None?
    ensures ResumeIsArmed(u, Request(u, Resume, outcome)) && Request(u, Resume, outcome).running == u.running
  {
  }

  lemma ConsumedFirst(u: State, t: State)
    requires u.completion.Some? && ResumeIsArmed(ConsumeCompletion(u), t)
    ensures ResumeIsArmed(u, t)
  {
    var more := t.log[|u.log| + 1..];
    assert t.log[|u.log|..] == [Consumed(u.completion.value)] + more;
  }

  /** `u` is what is left of the state when the report is taken. */
  lemma QuietDone(u: State, ending: Ending, outcome: Outcome)
    requires Still(u) && ending.Ended?
    ensures var t := Conclude(u, ending, outcome);
            && t.running == u.running
            && if Finishes(u.completion, ending) then TurnCompletes(u, t) else ResumeIsArmed(u, t)
  {
    if u.completion.Some? {
      if u.completion.value.ResumeAfterExternal? {
        ResumesQuietly(ConsumeCompletion(u), outcome);
        ConsumedFirst(u, Conclude(u, ending, outcome));
      }
    } else if !Finishes(u.completion, ending) {
      ResumesQuietly(u, outcome);
    }
  }

  /** With something pending the end of the pass is remembered, and the turn waits: it will resume exactly if
      nothing waits for the user, there was a tool call or a stop that asks for more, and nothing remembered
      asks to complete. */
  lemma DoneWhilePending(before: seq<Step>, ending: Ending, outcome: Outcome)
    requires var s := Run(Initial, before);
             s.status.Open? && s.token in s.running && s.Pending() && !ending.Interrupted?
    ensures var s := Run(Initial, before);
            var t := Next(s, DoDone(s.token, ending, outcome));
            if ending.Errored? then TurnFails(s, t)
            else && t.status.Open? && !t.active && t.action.NoAction? && t.running == s.running - {s.token}
                 && t.execs == s.execs && t.interactions == s.interactions && NotCompletedSince(s, t)
                 && t.phase == (if exists i :: i in s.interactions && !s.interactions[i] then AwaitingUser
                                else WaitingExternal)
                 && t.completion.Some? && !t.completion.value.Unset?
                 && (t.completion.value == ResumeAfterExternal
                     <==> && (ending.hadTool || ending.resumes)
                          && (forall id :: id in s.interactions ==> s.interactions[id])
                          && s.completion != Some(CompleteAfterExternal))
  {
    EveryRunKeepsInv(before);
  }

  // ---------------------------------------------------------------- results

  /** The phase a stream shows while it waits. */
  predicate Waits(t: State) {
    t.phase == if exists id :: id in t.interactions && !t.interactions[id] then AwaitingUser
               else if !t.compaction.NoCompaction? then Compacting
               else WaitingExternal
  }

  /** What the last thing that was pending leads to: a remembered completion decides, then a pending action. */
  predicate Settles(s: State, completion: Option<Disposition>, t: State) {
    if completion.Some? && completion.value != ResumeAfterExternal then TurnCompletes(s, t)
    else if completion.Some? || s.action.Resume? then ResumeIsArmed(s, t)
    else t.status.Open? && !t.active && t.phase.Idle? && t.armed == s.armed && t.log == s.log
  }

  /** After any run, the result of an execution: the hook of a compaction starts its summary; beside others, or
      under a pass, nothing else changes; and the last one settles. */
  lemma ExecOutcome(before: seq<Step>, id: string, outcome: Outcome)
    requires Run(Initial, before).status.Open? && id in Run(Initial, before).execs
    ensures var s := Run(Initial, before);
            var t := Next(s, DoExecResult(id, outcome));
            && t.execs == s.execs - {id} && t.interactions == s.interactions
            && (if s.compaction == AwaitingHook(id) then
                  && t.status.Open? && t.compaction.Summarising? && t.active
                  && t.compactionToken in t.summaries && t.log == s.log
                else if s.active || s.execs != {id} || s.interactions != map[] then
                  t == s.(execs := t.execs, phase := t.phase) && if s.active then t.phase == s.phase else Waits(t)
                else Settles(s, s.completion, t))
  {
    EveryRunKeepsInv(before);
    var s := Run(Initial, before);
    if s.compaction != AwaitingHook(id) { LastExec(s, id, outcome); }
  }

  /** Reconciling an open stream with no start pending: it waits, or it settles. */
  lemma ReconcileOutcome(u: State, outcome: Outcome)
    requires u.status.Open? && !u.claimed && !u.action.Start?
    ensures var t := Reconcile(u, outcome);
            && t.execs == u.execs && t.interactions == u.interactions
            && (u.active ==> t == u)
            && (!u.active && u.Pending() ==> t == u.(phase := t.phase) && Waits(t))
            && (!u.active && !u.Pending() && u.compaction.NoCompaction? ==> Settles(u, u.completion, t))
  {
  }

  lemma LastExec(s: State, id: string, outcome: Outcome)
    requires Inv(s) && s.status.Open? && id in s.execs && s.compaction != AwaitingHook(id)
    ensures var t := ExecResult(s, id, outcome);
            if s.active || s.execs != {id} || s.interactions != map[] then
              t == s.(execs := s.execs - {id}, phase := t.phase) && if s.active then t.phase == s.phase else Waits(t)
            else Settles(s, s.completion, t) && t.execs == {} && t.interactions == map[]
  {
    ReconcileOutcome(s.(execs := s.execs - {id}), outcome);
    if s.execs == {id} {
      assert s.execs - {id} == {};
    } else {
      var other :| other in s.execs && other != id;
      assert other in s.execs - {id};
    }
  }

  /** The same for an answered interaction; one that does not resume by itself is remembered to complete. */
  lemma InteractionOutcome(before: seq<Step>, id: string, outcome: Outcome)
    requires Run(Initial, before).status.Open? && id in Run(Initial, before).interactions
    ensures var s := Run(Initial, before);
            var t := Next(s, DoInteractionResult(id, outcome));
            var completion := if s.interactions[id] then s.completion else Some(CompleteAfterExternal);
            && t.interactions == s.interactions - {id} && t.execs == s.execs
            && (if s.active || s.execs != {} || s.interactions.Keys != {id} then
                  && t == s.(interactions := t.interactions, phase := t.phase, completion := completion, log := t.log)
                  && NotCompletedSince(s, t) && if s.active then t.phase == s.phase else Waits(t)
                else Settles(s, completion, t))
  {
    EveryRunKeepsInv(before);
    AnsweredInteraction(Run(Initial, before), id, outcome);
  }

  lemma AnsweredInteraction(s: State, id: string, outcome: Outcome)
    requires Inv(s) && s.status.Open? && id in s.interactions
    ensures var t := InteractionResult(s, id, outcome);
            var completion := if s.interactions[id] then s.completion else Some(CompleteAfterExternal);
            && t.interactions == s.interactions - {id} && t.execs == s.execs
            && (if s.active || s.execs != {} || s.interactions.Keys != {id} then
                  && t == s.(interactions := t.interactions, phase := t.phase, completion := completion, log := t.log)
                  && NotCompletedSince(s, t) && if s.active then t.phase == s.phase else Waits(t)
                else Settles(s, completion, t))
  {
    var u := s.(interactions := s.interactions - {id});
    OthersPending(s.interactions, id);
    if s.interactions[id] {
      ReconcileOutcome(u, outcome);
    } else {
      ReconcileOutcome(Remember(u, CompleteAfterExternal), outcome);
    }
  }

  lemma OthersPending(interactions: map<string, bool>, id: string)
    requires id in interactions
    ensures interactions - {id} == map[] <==> interactions.Keys == {id}
  {
    var rest := interactions - {id};
    assert rest.Keys == interactions.Keys - {id};
    assert rest == map[] <==> rest.Keys == {};
  }

  // ---------------------------------------------------------------- compaction, timers, checkpoints

  /** After any run, the report of the current compaction: an error fails the turn, a manual compaction leaves
      it to its checkpoint, and any other one resumes. */
  lemma CompactionOutcome(before: seq<Step>, failed: bool, manual: bool, outcome: Outcome)
    requires var s := Run(Initial, before);
             s.status.Open? && s.compactionToken in s.summaries && !s.Pending()
    ensures var s := Run(Initial, before);
            var t := Next(s, DoCompaction(s.compactionToken, failed, manual, outcome));
            && t.compaction.NoCompaction? && s.compactionToken !in t.summaries
            && (if failed then TurnFails(s, t)
                else if manual then t.status.Open? && !t.active && t.phase.Checkpointing? && t.log == s.log
                else ResumeIsArmed(s, t))
  {
    EveryRunKeepsInv(before);
  }

  /** After any run, a resume timer that fires: with the current token, on an open stream with a resume pending
      and nothing else going on, a pass begins; the token is used up in any case, and an old one does nothing. */
  lemma TimerOutcome(before: seq<Step>, fired: Timer, outcome: Outcome)
    requires fired in Run(Initial, before).armed
    ensures var s := Run(Initial, before);
            var t := Next(s, DoResume(fired, outcome));
            var used := s.(armed := s.armed - multiset{fired},
                           timer := if fired.token == s.timer then s.timer + 1 else s.timer);
            if fired.token == s.timer && s.status.Open? && !s.active && s.action.Resume? && !s.Pending() then
              PassBegins(used, outcome, t)
            else t == used
  {
    EveryRunKeepsInv(before);
    FiredOutcome(Run(Initial, before), fired, outcome);
  }

  lemma FiredOutcome(s: State, fired: Timer, outcome: Outcome)
    requires Inv(s) && fired in s.armed
    ensures var t := Next(s, DoResume(fired, outcome));
            var used := s.(armed := s.armed - multiset{fired},
                           timer := if fired.token == s.timer then s.timer + 1 else s.timer);
            if fired.token == s.timer && s.status.Open? && !s.active && s.action.Resume? && !s.Pending() then
              PassBegins(used, outcome, t)
            else t == used
  {
    var used := s.(armed := s.armed - multiset{fired});
    if fired.token == s.timer { assert used.(timer := used.timer + 1) == used.(timer := s.timer + 1); }
  }

  /** After any run, a run intent with work on an open stream begins a pass, whatever was going on before. */
  lemma StartOutcome(before: seq<Step>, outcome: Outcome)
    requires Run(Initial, before).status.Open?
    ensures var s := Run(Initial, before);
            var busy := s.active || s.Pending() || s.phase.WaitingExternal?;
            var t := Next(s, DoRun(true, false, outcome));
            && PassBegins(FreshTurn(if busy then Superseded(s) else s), outcome, t)
            && t.token > s.token && t.compactionToken > s.compactionToken && t.completion.None?
            && t.interactions == map[] && t.execs == if outcome.Compacts? then {outcome.hook} else {}
  {
    EveryRunKeepsInv(before);
    var s := Run(Initial, before);
    NewTurnIsClean(s);
    FreshStart(FreshTurn(if s.active || s.Pending() || s.phase.WaitingExternal? then Superseded(s) else s), outcome);
  }

  lemma FreshStart(s: State, outcome: Outcome)
    requires s.status.Open? && Clean(s) && s.completion.None?
    ensures var t := Request(s, Start, outcome);
            && PassBegins(s, outcome, t) && t.completion.None? && t.compactionToken == s.compactionToken
            && t.interactions == s.interactions && t.execs == s.execs + if outcome.Compacts? then {outcome.hook} else {}
  {
  }

  /** After any run, a run intent without work only stops what was going on, a report of which is then no longer
      accepted; a prewarming one leaves the stream ready, whatever was going on. */
  lemma NoPassOutcome(before: seq<Step>, hasWork: bool, outcome: Outcome)
    ensures var s := Run(Initial, before);
            var busy, t := s.active || s.Pending() || s.phase.WaitingExternal?, Next(s, DoRun(hasWork, true, outcome));
            && t.status == s.status && t.log == s.log + (if busy then [Forgotten] else [])
            && (!hasWork && !busy ==> t == s)
            && (hasWork || busy ==> && !t.active && !t.Pending() && t.compaction.NoCompaction? && t.action.NoAction?
                                    && t.token > s.token && t.compactionToken > s.compactionToken
                                    && t.completion == if busy then None else s.completion)
  {
    EveryRunKeepsInv(before);
  }

  /** After any run, a tool call of the current pass of an open stream is pending until its result; one of
      another pass changes nothing. */
  lemma ToolOutcome(before: seq<Step>, token: nat, id: string, interaction: Option<bool>)
    requires token in Run(Initial, before).running
    ensures var s := Run(Initial, before);
            var t := Next(s, DoTool(token, id, interaction));
            if token != s.token || s.Terminal() then t == s
            else if interaction.None? then t == s.(execs := s.execs + {id})
            else t == s.(interactions := s.interactions[id := interaction.value])
  {
    EveryRunKeepsInv(before);
  }

  /** After any run, a published checkpoint that carries the completion completes an open turn, and an error
      fails it; neither changes an ended one. */
  lemma CheckpointOutcome(before: seq<Step>)
    ensures var s := Run(Initial, before);
            && (s.status.Open? && s.action.NoAction? && !s.active ==> TurnCompletes(s, Next(s, DoCheckpoint)))
            && (s.status.Open? ==> Next(s, DoCheckpoint).status.Completed? && TurnFails(s, Next(s, DoFail)))
            && (s.Terminal() ==> Next(s, DoCheckpoint) == s && Next(s, DoFail).status == s.status)
  {
    EveryRunKeepsInv(before);
  }
}
