/** The actor of a stream: its commands run one at a time, and it decides when a provider pass
    starts, resumes or completes the turn.  Conversation storage is taken to succeed. */
module TurnActor {
  import opened Common

  datatype Status = Open | Completed | Canceled | Failed

  datatype Phase = Idle | ProviderRunning | WaitingExternal | AwaitingUser | Compacting | Checkpointing
                 | PhaseCompleted | PhaseFailed | PhaseCanceled

  datatype Action = NoAction | Start | Resume

  datatype Disposition = Unset | ResumeAfterExternal | CompleteAfterExternal

  /** A compaction first waits for a hook execution and then for the summary it started. */
  datatype Compaction = NoCompaction | AwaitingHook(hook: string) | Summarising

  /** What happened to passes and to the remembered completion. */
  datatype Event =
    | Started(token: nat, clean: bool)
    | Remembered(disposition: Disposition)
    | Consumed(disposition: Disposition)
    | Forgotten
    | TurnCompleted

  /** A resume timer carries the token it was given, and the epoch it was given in. */
  datatype Timer = Timer(token: nat, epoch: nat)

  /** `interactions` maps a pending interaction to whether the turn resumes by itself after it;
      `running` and `summaries` are the tokens of the provider passes and summaries that still have
      to report; `timer` is the current token of the resume timer, `armed` are the timers to fire, and
      `epoch` counts how often the tokens began anew. */
  datatype State = State(
    status: Status, phase: Phase, claimed: bool, active: bool, token: nat, compactionToken: nat,
    execs: set<string>, interactions: map<string, bool>, compaction: Compaction,
    action: Action, completion: Option<Disposition>, timer: nat, epoch: nat, armed: multiset<Timer>,
    running: set<nat>, summaries: set<nat>, log: seq<Event>)
  {
    predicate Terminal() { !status.Open? }

    predicate Pending() { execs != {} || interactions != map[] }

    predicate AwaitsUser() { exists id :: id in interactions && !interactions[id] }
  }

  const Initial :=
    State(Open, Idle, false, false, 0, 0, {}, map[], NoCompaction, NoAction, None, 0, 0, multiset{}, {}, {}, [])

  // ---------------------------------------------------------------- completions

  function MergeDisposition(existing: Disposition, incoming: Disposition): Disposition {
    if existing.CompleteAfterExternal? || incoming.CompleteAfterExternal? then CompleteAfterExternal
    else if existing.ResumeAfterExternal? || incoming.ResumeAfterExternal? then ResumeAfterExternal
    else CompleteAfterExternal
  }

  function MergeCompletion(existing: Option<Disposition>, incoming: Disposition): Disposition {
    if existing.None? then (if incoming.Unset? then CompleteAfterExternal else incoming)
    else MergeDisposition(existing.value, incoming)
  }

  function MergeAll(incoming: seq<Disposition>): Option<Disposition> {
    if incoming == [] then None
    else Some(MergeCompletion(MergeAll(incoming[..|incoming| - 1]), incoming[|incoming| - 1]))
  }

  function ExternalDisposition(resumes: bool, forceComplete: bool, hadTool: bool): Disposition {
    if forceComplete then CompleteAfterExternal
    else if hadTool || resumes then ResumeAfterExternal
    else CompleteAfterExternal
  }

  /** Whatever was remembered in whatever order, the turn resumes exactly when the first report asked
      for it and none asked to complete. */
  lemma {:induction false} MergedDispositionResumesIff(incoming: seq<Disposition>)
    requires incoming != []
    ensures var merged := MergeAll(incoming).value;
            && !merged.Unset?
            && (merged.ResumeAfterExternal? <==>
                  incoming[0].ResumeAfterExternal? && CompleteAfterExternal !in incoming)
  {
    var front, last := incoming[..|incoming| - 1], incoming[|incoming| - 1];
    if front != [] {
      MergedDispositionResumesIff(front);
      assert incoming == front + [last];
    }
  }

  // ---------------------------------------------------------------- what the handlers do

  function Remember(s: State, incoming: Disposition): State {
    s.(completion := Some(MergeCompletion(s.completion, incoming)), log := s.log + [Remembered(incoming)])
  }

  function Forget(s: State): State {
    s.(completion := None, log := s.log + [Forgotten])
  }

  /** finishSuccessfulTurnAfterCheckpoint: claimed once, and only on an open stream. */
  function CompleteTurn(s: State): State {
    if s.claimed || s.Terminal() then s
    else s.(claimed := true, status := Completed, phase := PhaseCompleted, log := s.log + [TurnCompleted])
  }

  /** failStream */
  function Fail(s: State): State {
    Forget(s).(active := false, action := NoAction, phase := PhaseFailed,
               status := if s.Terminal() then s.status else Failed)
  }

  function ScheduleResume(s: State): State {
    s.(timer := s.timer + 1, armed := s.armed + multiset{Timer(s.timer + 1, s.epoch)})
  }

  /** How a provider pass begins: it cannot be prepared, the context is compacted first, a manual
      compaction finds nothing to do, or the pass runs. */
  datatype Outcome = CannotPrepare | Compacts(hook: string) | NothingToCompact | Runs

  predicate Clean(s: State) {
    !s.active && !s.Pending() && !s.Terminal() && s.compaction.NoCompaction?
  }

  /** After a manual compaction that finds nothing to do, the turn is completed by its checkpoint. */
  function Begin(s: State, outcome: Outcome): State {
    match outcome
    case CannotPrepare => Fail(s)
    case Compacts(hook) => s.(compaction := AwaitingHook(hook), execs := s.execs + {hook}, phase := Compacting)
    case NothingToCompact => s.(phase := Idle)
    case Runs =>
      s.(active := true, phase := ProviderRunning, running := s.running + {s.token},
         log := s.log + [Started(s.token, Clean(s))])
  }

  /** driveProvider */
  function Drive(s: State, outcome: Outcome): State {
    if s.active || s.Terminal() then s else Begin(s.(action := NoAction, token := s.token + 1), outcome)
  }

  function ConsumeCompletion(s: State): State
    requires s.completion.Some?
  {
    s.(completion := None, log := s.log + [Consumed(s.completion.value)])
  }

  /** What reconcileStream does with a remembered completion.  A pending start is not acted on. */
  function UseCompletion(s: State): State
    requires s.completion.Some?
  {
    var t := ConsumeCompletion(s);
    if s.completion.value.ResumeAfterExternal? then
      ScheduleResume(t.(action := if t.action.Start? then Start else Resume, phase := WaitingExternal))
    else CompleteTurn(t)
  }

  function Act(s: State, outcome: Outcome): State {
    match s.action
    case Start => Drive(s, outcome)
    case Resume => ScheduleResume(s.(phase := WaitingExternal))
    case NoAction => s.(phase := Idle)
  }

  function Reconcile(s: State, outcome: Outcome): State {
    if s.Terminal() || s.active then s
    else if s.Pending() then
      s.(phase := if s.AwaitsUser() then AwaitingUser
                  else if !s.compaction.NoCompaction? then Compacting else WaitingExternal)
    else if !s.compaction.NoCompaction? then s.(phase := Compacting)
    else if s.completion.Some? then UseCompletion(s)
    else Act(s, outcome)
  }

  function Request(s: State, action: Action, outcome: Outcome): State {
    Reconcile(s.(action := match action
                           case Start => Start
                           case Resume => if s.action.Start? then Start else Resume
                           case NoAction => NoAction), outcome)
  }

  /** How a pass ended: interrupted, with an error, or normally. `resumes` tells whether its finish
      reason asks for another pass, `terminalTool` whether a tool ended the turn, `retried` whether
      the empty-stop recovery took over. */
  datatype Ending = Interrupted | Errored | Ended(resumes: bool, hadTool: bool, terminalTool: bool, retried: bool)

  /** The end of handleProviderDoneEvent, when the pass left nothing pending. */
  function Conclude(s: State, ending: Ending, outcome: Outcome): State
    requires ending.Ended?
  {
    if s.completion.Some? then
      if s.completion.value.ResumeAfterExternal? then Request(ConsumeCompletion(s), Resume, outcome)
      else CompleteTurn(ConsumeCompletion(s))
    else if ending.retried then Request(s, Resume, outcome)
    else if (ending.hadTool || ending.resumes) && !ending.terminalTool then Request(s, Resume, outcome)
    else CompleteTurn(Forget(s))
  }

  /** handleProviderDoneEvent behind the token check of handleProviderEvent. */
  function ProviderDone(s: State, token: nat, ending: Ending, outcome: Outcome): State {
    if token == 0 || token != s.token then s
    else
      var t := s.(active := false, action := NoAction);
      if ending.Interrupted? || s.Terminal() then t
      else if ending.Errored? then Fail(t)
      else if s.Pending() then
        Remember(t, ExternalDisposition(ending.resumes, s.AwaitsUser(), ending.hadTool))
          .(phase := if s.AwaitsUser() then AwaitingUser else WaitingExternal)
      else Conclude(t, ending, outcome)
  }

  /** The resume timer behind the token check of handleTimerEvent. */
  function ResumeFired(s: State, fired: Timer, outcome: Outcome): State {
    if fired.token != s.timer then s
    else
      var t := s.(timer := s.timer + 1);
      if t.active || t.Terminal() || !t.action.Resume? || t.Pending() then t else Drive(t, outcome)
  }

  /** A tool call of the current pass leaves something for the client to do. */
  function ToolOpened(s: State, token: nat, id: string, interaction: Option<bool>): State {
    if token == 0 || token != s.token || s.Terminal() then s
    else if interaction.Some? then s.(interactions := s.interactions[id := interaction.value])
    else s.(execs := s.execs + {id})
  }

  /** The result of the hook starts the summary; any other result may let the turn go on. */
  function ExecResult(s: State, id: string, outcome: Outcome): State {
    if s.Terminal() || id !in s.execs then s
    else
      var t := s.(execs := s.execs - {id});
      if s.compaction != AwaitingHook(id) then Reconcile(t, outcome)
      else
        t.(compaction := Summarising, compactionToken := t.compactionToken + 1, active := true, action := NoAction,
           phase := Compacting, summaries := t.summaries + {t.compactionToken + 1})
  }

  /** A result that opens the next execution of a file edit in place of the one that ended. */
  function ExecChained(s: State, id: string, next: string): State {
    if s.Terminal() || id !in s.execs || s.compaction == AwaitingHook(id) then s
    else s.(execs := s.execs - {id} + {next})
  }

  function InteractionResult(s: State, id: string, outcome: Outcome): State {
    if s.Terminal() || id !in s.interactions then s
    else
      var t := s.(interactions := s.interactions - {id});
      Reconcile(if s.interactions[id] then t else Remember(t, CompleteAfterExternal), outcome)
  }

  /** handleCompactionEvent; after a manual compaction the turn is completed by its checkpoint. */
  function CompactionDone(s: State, token: nat, failed: bool, manual: bool, outcome: Outcome): State {
    if token != s.compactionToken then s
    else
      var t := s.(active := false, action := NoAction, compaction := NoCompaction);
      if s.Terminal() then t
      else if failed then Fail(t)
      else if manual then t.(phase := Checkpointing)
      else Request(t, Resume, outcome)
  }

  /** supersedeActiveRunWithSameRequest, for a run that is still going on. */
  function Superseded(s: State): State {
    Forget(s).(active := false, token := s.token + 1, compactionToken := s.compactionToken + 1, action := NoAction,
               compaction := NoCompaction, execs := {}, interactions := map[], timer := 0,
               epoch := s.epoch + 1)
  }

  function FreshTurn(s: State): State {
    s.(action := NoAction, compaction := NoCompaction, execs := {}, interactions := map[], timer := 0,
       epoch := s.epoch + 1, token := s.token + 1, compactionToken := s.compactionToken + 1, phase := Idle)
  }

  /** handleRunIntent */
  function NewRun(s: State, hasWork: bool, prewarm: bool, outcome: Outcome): State {
    var t := if s.active || s.Pending() || s.phase.WaitingExternal? then Superseded(s) else s;
    if !hasWork then t
    else if prewarm then FreshTurn(t)
    else Request(FreshTurn(t), Start, outcome)
  }

  /** The first half of handleCancelIntent. */
  function Stopped(s: State): State {
    s.(active := false, token := s.token + 1, compactionToken := s.compactionToken + 1, action := NoAction,
       compaction := NoCompaction)
  }

  /** completePendingEditAfterCancel: an edit that is under way gets its result, which reconciles.  No pass
      begins there, as no start is pending. */
  function EditFinished(s: State, edit: string): State {
    if edit !in s.execs then s else Reconcile(s.(execs := s.execs - {edit}), Runs)
  }

  function EditsFinished(s: State, edits: seq<string>): State {
    if edits == [] then s else EditFinished(EditsFinished(s, edits[..|edits| - 1]), edits[|edits| - 1])
  }

  /** The second half, which finds the stream ended if the last edit completed the turn. */
  function Aborted(s: State): State {
    Forget(s).(action := NoAction, phase := PhaseCanceled, status := if s.Terminal() then s.status else Canceled)
  }

  /** handleCancelIntent, where `edits` are the pending executions of file edits. */
  function Cancel(s: State, edits: seq<string>): State {
    Aborted(EditsFinished(Stopped(s), edits))
  }

  // ---------------------------------------------------------------- the object

  class Stream {
    var status: Status
    var phase: Phase
    var claimed: bool
    var active: bool
    var token: nat
    var compactionToken: nat
    var execs: set<string>
    var interactions: map<string, bool>
    var compaction: Compaction
    var action: Action
    var completion: Option<Disposition>
    var timer: nat
    ghost var epoch: nat
    ghost var armed: multiset<Timer>
    ghost var running: set<nat>
    ghost var summaries: set<nat>
    ghost var log: seq<Event>

    ghost function View(): State
      reads this
    {
      State(status, phase, claimed, active, token, compactionToken, execs, interactions, compaction, action, completion,
            timer, epoch, armed, running, summaries, log)
    }

    constructor ()
      ensures View() == Initial
    {
      status, phase, claimed, active, token, compactionToken := Open, Idle, false, false, 0, 0;
      execs, interactions, compaction, action, completion := {}, map[], NoCompaction, NoAction, None;
      timer, epoch, armed, running, summaries, log := 0, 0, multiset{}, {}, {}, [];
    }

    /** pendingBridgeCount is not zero. */
    method IsWaiting() returns (waiting: bool)
      ensures waiting == View().Pending()
    {
      waiting := |execs| + |interactions| > 0;
      if interactions != map[] { assert |interactions.Keys| > 0; }
      if execs != {} { assert |execs| > 0; }
    }

    method HasPendingAwaitingUserInteraction() returns (found: bool)
      ensures found == View().AwaitsUser()
    {
      var todo := interactions.Keys;
      while todo != {}
        invariant todo <= interactions.Keys
        invariant forall id :: id in interactions && id !in todo ==> interactions[id]
        decreases todo
      {
        var id :| id in todo;
        if !interactions[id] { return true; }
        todo := todo - {id};
      }
      found := false;
    }

    method RememberPendingProviderCompletion(incoming: Disposition)
      modifies this`completion, this`log
      ensures View() == Remember(old(View()), incoming)
    {
      completion := Some(MergeCompletion(completion, incoming));
      log := log + [Remembered(incoming)];
    }

    method CompleteSuccessfulTurn()
      modifies this`claimed, this`status, this`phase, this`log
      ensures View() == CompleteTurn(old(View()))
    {
      if claimed || !status.Open? { return; }
      claimed, status, phase := true, Completed, PhaseCompleted;
      log := log + [TurnCompleted];
    }

    /** clearPendingProviderCompletion */
    method ForgetCompletion()
      modifies this`completion, this`log
      ensures View() == Forget(old(View()))
    {
      completion, log := None, log + [Forgotten];
    }

    method FailStream()
      modifies this`completion, this`active, this`action, this`phase, this`status, this`log
      ensures View() == Fail(old(View()))
    {
      ForgetCompletion();
      active, action, phase, status := false, NoAction, PhaseFailed, if status.Open? then Failed else status;
    }

    method BeginPass(outcome: Outcome)
      modifies this
      ensures View() == Begin(old(View()), outcome)
    {
      ghost var clean := Clean(View());
      match outcome
      case CannotPrepare => FailStream();
      case Compacts(hook) => compaction, execs, phase := AwaitingHook(hook), execs + {hook}, Compacting;
      case NothingToCompact => phase := Idle;
      case Runs =>
        active, phase := true, ProviderRunning;
        running := running + {token};
        log := log + [Started(token, clean)];
    }

    method DriveProvider(outcome: Outcome)
      modifies this
      ensures View() == Drive(old(View()), outcome)
    {
      if active || !status.Open? { return; }
      action := NoAction;
      token := token + 1;
      BeginPass(outcome);
    }

    method ScheduleResumeTimer()
      modifies this`timer, this`armed
      ensures View() == ScheduleResume(old(View()))
    {
      timer := timer + 1;
      armed := armed + multiset{Timer(timer, epoch)};
    }

    method TakeCompletion() returns (disposition: Disposition)
      requires completion.Some?
      modifies this`completion, this`log
      ensures disposition == old(completion.value)
      ensures View() == ConsumeCompletion(old(View()))
    {
      disposition := completion.value;
      completion := None;
      log := log + [Consumed(disposition)];
    }

    method UseRememberedCompletion()
      requires completion.Some?
      modifies this`completion, this`log, this`action, this`phase, this`timer, this`armed, this`claimed, this`status
      ensures View() == UseCompletion(old(View()))
    {
      ghost var taken := ConsumeCompletion(View());
      var disposition := TakeCompletion();
      if disposition.ResumeAfterExternal? {
        action, phase := if action.Start? then Start else Resume, WaitingExternal;
        assert View() == taken.(action := if taken.action.Start? then Start else Resume, phase := WaitingExternal);
        ScheduleResumeTimer();
      } else {
        CompleteSuccessfulTurn();
      }
    }

    method ActOnPendingAction(outcome: Outcome)
      modifies this
      ensures View() == Act(old(View()), outcome)
    {
      match action
      case Start => DriveProvider(outcome);
      case Resume =>
        phase := WaitingExternal;
        ScheduleResumeTimer();
      case NoAction => phase := Idle;
    }

    method ReconcileStream(outcome: Outcome)
      modifies this
      ensures View() == Reconcile(old(View()), outcome)
    {
      if !status.Open? || active { return; }
      var waiting := IsWaiting();
      if waiting {
        var awaiting := HasPendingAwaitingUserInteraction();
        if awaiting {
          phase := AwaitingUser;
        } else if !compaction.NoCompaction? {
          phase := Compacting;
        } else {
          phase := WaitingExternal;
        }
        return;
      }
      if !compaction.NoCompaction? {
        phase := Compacting;
        return;
      }
      if completion.Some? {
        UseRememberedCompletion();
      } else {
        ActOnPendingAction(outcome);
      }
    }

    method RequestProviderAction(requested: Action, outcome: Outcome)
      modifies this
      ensures View() == Request(old(View()), requested, outcome)
    {
      match requested {
        case Start => action := Start;
        case Resume => if !action.Start? { action := Resume; }
        case NoAction => action := NoAction;
      }
      ReconcileStream(outcome);
    }

    method ConcludePass(ending: Ending, outcome: Outcome)
      requires ending.Ended?
      modifies this
      ensures View() == Conclude(old(View()), ending, outcome)
    {
      if completion.Some? {
        var disposition := TakeCompletion();
        if disposition.ResumeAfterExternal? {
          RequestProviderAction(Resume, outcome);
        } else {
          CompleteSuccessfulTurn();
        }
      } else if ending.retried || ((ending.hadTool || ending.resumes) && !ending.terminalTool) {
        RequestProviderAction(Resume, outcome);
      } else {
        ForgetCompletion();
        CompleteSuccessfulTurn();
      }
    }

    method HandleProviderDone(eventToken: nat, ending: Ending, outcome: Outcome)
      modifies this
      ensures View() == ProviderDone(old(View()), eventToken, ending, outcome)
    {
      if eventToken == 0 || eventToken != token { return; }
      ghost var ended := View().(active := false, action := NoAction);
      active, action := false, NoAction;
      assert View() == ended;
      if ending.Interrupted? || !status.Open? { return; }
      if ending.Errored? {
        FailStream();
      } else {
        var waiting := IsWaiting();
        if waiting { AwaitExternal(ending); } else { ConcludePass(ending, outcome); }
      }
    }

    /** A pass ended while something is pending: how it ended is remembered. */
    method AwaitExternal(ending: Ending)
      requires ending.Ended?
      modifies this`completion, this`log, this`phase
      ensures View()
              == Remember(old(View()), ExternalDisposition(ending.resumes, old(View()).AwaitsUser(), ending.hadTool))
                 .(phase := if old(View()).AwaitsUser() then AwaitingUser else WaitingExternal)
    {
      var awaiting := HasPendingAwaitingUserInteraction();
      RememberPendingProviderCompletion(ExternalDisposition(ending.resumes, awaiting, ending.hadTool));
      phase := if awaiting then AwaitingUser else WaitingExternal;
    }

    /** completePendingEditAfterCancel, for each pending edit. */
    method CompletePendingEdits(edits: seq<string>)
      modifies this
      ensures View() == EditsFinished(old(View()), edits)
    {
      for i := 0 to |edits|
        invariant View() == EditsFinished(old(View()), edits[..i])
      {
        assert edits[..i + 1][..i] == edits[..i];
        if edits[i] in execs {
          ghost var before := View();
          execs := execs - {edits[i]};
          assert View() == before.(execs := before.execs - {edits[i]});
          ReconcileStream(Runs);
        }
      }
      assert edits[..|edits|] == edits;
    }

    method StopPass()
      modifies this`active, this`token, this`compactionToken, this`action, this`compaction
      ensures View() == Stopped(old(View()))
    {
      active, token, compactionToken := false, token + 1, compactionToken + 1;
      action, compaction := NoAction, NoCompaction;
    }

    method Abort()
      modifies this`completion, this`action, this`phase, this`status, this`log
      ensures View() == Aborted(old(View()))
    {
      ForgetCompletion();
      action, phase, status := NoAction, PhaseCanceled, if status.Open? then Canceled else status;
    }

    method HandleCancel(edits: seq<string>)
      modifies this
      ensures View() == Cancel(old(View()), edits)
    {
      StopPass();
      CompletePendingEdits(edits);
      Abort();
    }

    method HandleResumeTimer(fired: Timer, outcome: Outcome)
      modifies this
      ensures View() == ResumeFired(old(View()), fired, outcome)
    {
      if timer != fired.token { return; }
      ghost var before := View();
      timer := timer + 1;
      assert View() == before.(timer := before.timer + 1);
      if active || !status.Open? || !action.Resume? { return; }
      var waiting := IsWaiting();
      if !waiting { DriveProvider(outcome); }
    }
  }

  // ---------------------------------------------------------------- every run of commands

  datatype Step =
    | DoRun(hasWork: bool, prewarm: bool, outcome: Outcome)
    | DoTool(token: nat, id: string, interaction: Option<bool>)
    | DoDone(token: nat, ending: Ending, outcome: Outcome)
    | DoExecResult(id: string, outcome: Outcome)
    | DoExecChains(id: string, next: string)
    | DoInteractionResult(id: string, outcome: Outcome)
    | DoCompaction(token: nat, failed: bool, manual: bool, outcome: Outcome)
    | DoResume(fired: Timer, outcome: Outcome)
    | DoCheckpoint
    | DoCancel(edits: seq<string>)
    | DoFail

  /** A pass, a summary or a timer reports once; a step nobody can take changes nothing.  A pass is
      interrupted only after its token was retired or the stream ended. */
  function Next(s: State, step: Step): State {
    match step
    case DoRun(hasWork, prewarm, outcome) => NewRun(s, hasWork, prewarm, outcome)
    case DoTool(token, id, interaction) => if token in s.running then ToolOpened(s, token, id, interaction) else s
    case DoDone(token, ending, outcome) =>
      if token !in s.running || (ending.Interrupted? && s.status.Open? && token == s.token) then s
      else ProviderDone(s.(running := s.running - {token}), token, ending, outcome)
    case DoExecResult(id, outcome) => ExecResult(s, id, outcome)
    case DoExecChains(id, next) => ExecChained(s, id, next)
    case DoInteractionResult(id, outcome) => InteractionResult(s, id, outcome)
    case DoCompaction(token, failed, manual, outcome) =>
      if token !in s.summaries then s
      else CompactionDone(s.(summaries := s.summaries - {token}), token, failed, manual, outcome)
    case DoResume(fired, outcome) =>
      if fired !in s.armed then s else ResumeFired(s.(armed := s.armed - multiset{fired}), fired, outcome)
    case DoCheckpoint => CompleteTurn(s)
    case DoCancel(edits) => Cancel(s, edits)
    case DoFail => Fail(s)
  }

  function Run(s: State, steps: seq<Step>): State
    decreases |steps|
  {
    if steps == [] then s else Run(Next(s, steps[0]), steps[1..])
  }

  /** Whether a completion is remembered and neither consumed nor forgotten. */
  function Held(log: seq<Event>): bool {
    log != [] &&
    match log[|log| - 1]
    case Remembered(_) => true
    case Consumed(_) => false
    case Forgotten => false
    case _ => Held(log[..|log| - 1])
  }

  /** The token of the last pass that started. */
  function LastStarted(log: seq<Event>): nat {
    if log == [] then 0
    else if log[|log| - 1].Started? then log[|log| - 1].token
    else LastStarted(log[..|log| - 1])
  }

  /** Passes start clean and with ever higher tokens, and only a held completion is consumed. */
  predicate Justified(before: seq<Event>, event: Event) {
    match event
    case Started(token, clean) => clean && token > LastStarted(before)
    case Consumed(_) => Held(before)
    case _ => true
  }

  predicate Sound(log: seq<Event>) {
    log == [] || (Sound(log[..|log| - 1]) && Justified(log[..|log| - 1], log[|log| - 1]))
  }

  ghost predicate LogOk(s: State) {
    && Sound(s.log)
    && Held(s.log) == s.completion.Some?
    && LastStarted(s.log) <= s.token
  }

  /** Reports that are still to come carry tokens that were handed out. */
  ghost predicate TokensOk(s: State) {
    && (forall t :: t in s.running ==> 0 < t <= s.token)
    && (forall t :: t in s.summaries ==> t <= s.compactionToken)
  }

  /** Somebody will move an open stream on: an active one has a pass or a summary whose report will
      be accepted; a compaction waits for its hook or is active, and no pass runs beside it. */
  ghost predicate Attended(s: State) {
    s.status.Open? ==>
      && !s.claimed
      && (s.active ==> if s.compaction.Summarising? then s.compactionToken in s.summaries else s.token in s.running)
      && (s.compaction.Summarising? ==> s.active)
      && (s.compaction.AwaitingHook? ==> s.compaction.hook in s.execs && !s.active)
      && (!s.compaction.NoCompaction? ==> s.token !in s.running && s.completion.None? && s.interactions == map[])
      && (s.compactionToken in s.summaries ==> s.compaction.Summarising?)
      && (s.completion.Some? ==> s.active || s.Pending())
  }

  /** No start is left pending, and a pending resume of an idle stream has its timer armed. */
  ghost predicate NotStuck(s: State) {
    s.status.Open? ==>
      && !s.action.Start?
      && (s.action.Resume? && !s.active && !s.Pending() ==> Timer(s.timer, s.epoch) in s.armed && s.completion.None?)
  }

  ghost predicate Inv(s: State) {
    LogOk(s) && TokensOk(s) && Attended(s) && NotStuck(s)
  }

  lemma AddEvent(log: seq<Event>, event: Event)
    requires Sound(log) && Justified(log, event)
    ensures var after := log + [event];
            && Sound(after)
            && Held(after) == (if event.Remembered? then true
                               else if event.Consumed? || event.Forgotten? then false else Held(log))
            && LastStarted(after) == if event.Started? then event.token else LastStarted(log)
  {
    assert (log + [event])[..|log|] == log;
  }

  /** Ready for a decision: the log and the tokens are in order and nothing else is going on. */
  ghost predicate Quiet(s: State) {
    LogOk(s) && TokensOk(s) && s.status.Open? && !s.claimed && Clean(s) && s.compactionToken !in s.summaries
  }

  lemma FailKeepsInv(s: State)
    requires LogOk(s) && TokensOk(s)
    ensures Inv(Fail(s))
  {
    AddEvent(s.log, Forgotten);
  }

  lemma DriveKeepsInv(s: State, outcome: Outcome)
    requires Quiet(s) && s.completion.None?
    ensures Inv(Drive(s, outcome))
  {
    var t := s.(action := NoAction, token := s.token + 1);
    match outcome
    case CannotPrepare => FailKeepsInv(t);
    case Runs => AddEvent(s.log, Started(t.token, true));
    case _ =>
  }

  lemma CompleteKeepsInv(s: State)
    requires LogOk(s) && TokensOk(s) && (!s.claimed || s.Terminal())
    ensures Inv(CompleteTurn(s))
  {
    AddEvent(s.log, TurnCompleted);
  }

  lemma RequestKeepsInv(s: State, action: Action, outcome: Outcome)
    requires Quiet(s) && !s.action.Start? && (action.Start? ==> s.completion.None?)
    ensures Inv(Request(s, action, outcome))
  {
    if s.completion.Some? {
      UseKeepsInv(s.(action := action));
    } else if action.Start? {
      DriveKeepsInv(s.(action := Start), outcome);
    }
  }

  /** A remembered completion of a quiet stream is used. */
  lemma UseKeepsInv(s: State)
    requires Quiet(s) && !s.action.Start? && s.completion.Some?
    ensures Inv(UseCompletion(s))
  {
    AddEvent(s.log, Consumed(s.completion.value));
    CompleteKeepsInv(ConsumeCompletion(s));
  }

  /** Reconciling restores the invariant after something pending went away. */
  lemma ReconcileKeepsInv(s: State, outcome: Outcome)
    requires LogOk(s) && TokensOk(s)
    requires s.status.Open? && !s.action.Start?
    requires Attended(if s.active || s.Pending() then s else s.(completion := None))
    ensures Inv(Reconcile(s, outcome))
  {
    if Clean(s) { RequestKeepsInv(s, s.action, outcome); }
  }

  lemma SupersededKeepsInv(s: State)
    requires Inv(s)
    ensures Inv(Superseded(s))
  {
    AddEvent(s.log, Forgotten);
  }

  lemma FreshTurnKeepsInv(s: State, outcome: Outcome)
    requires Inv(s) && !s.active && !s.Pending()
    ensures Inv(FreshTurn(s)) && Inv(Request(FreshTurn(s), Start, outcome))
  {
    var t := FreshTurn(s);
    if s.status.Open? {
      assert Quiet(t);
      RequestKeepsInv(t, Start, outcome);
    }
  }

  lemma NewRunKeepsInv(s: State, hasWork: bool, prewarm: bool, outcome: Outcome)
    requires Inv(s)
    ensures Inv(NewRun(s, hasWork, prewarm, outcome))
  {
    var superseded := s.active || s.Pending() || s.phase.WaitingExternal?;
    if superseded { SupersededKeepsInv(s); }
    FreshTurnKeepsInv(if superseded then Superseded(s) else s, outcome);
  }

  lemma ProviderDoneKeepsInv(s: State, token: nat, ending: Ending, outcome: Outcome)
    requires Inv(s) && token in s.running && !(ending.Interrupted? && s.status.Open? && token == s.token)
    ensures Inv(ProviderDone(s.(running := s.running - {token}), token, ending, outcome))
  {
    if token == s.token && s.status.Open? {
      CurrentDoneKeepsInv(s.(running := s.running - {token}, active := false, action := NoAction), ending, outcome);
    }
  }

  /** What is left of the state when the report of the current pass is taken. */
  lemma CurrentDoneKeepsInv(t: State, ending: Ending, outcome: Outcome)
    requires LogOk(t) && TokensOk(t) && t.status.Open? && !t.claimed && !t.active && !ending.Interrupted?
    requires t.compaction.NoCompaction? && t.compactionToken !in t.summaries && t.action.NoAction?
    ensures Inv(if ending.Errored? then Fail(t)
                else if t.Pending() then
                  Remember(t, ExternalDisposition(ending.resumes, t.AwaitsUser(), ending.hadTool))
                    .(phase := if t.AwaitsUser() then AwaitingUser else WaitingExternal)
                else Conclude(t, ending, outcome))
  {
    if ending.Errored? {
      FailKeepsInv(t);
    } else if t.Pending() {
      RememberKeepsInv(t, ExternalDisposition(ending.resumes, t.AwaitsUser(), ending.hadTool),
                       if t.AwaitsUser() then AwaitingUser else WaitingExternal);
    } else {
      ConcludeKeepsInv(t, ending, outcome);
    }
  }

  lemma RememberKeepsInv(s: State, disposition: Disposition, phase: Phase)
    requires LogOk(s) && TokensOk(s) && s.status.Open? && !s.claimed && !s.active && s.Pending()
    requires s.compaction.NoCompaction? && s.compactionToken !in s.summaries && s.action.NoAction?
    ensures Inv(Remember(s, disposition).(phase := phase))
  {
    AddEvent(s.log, Remembered(disposition));
  }

  lemma ConcludeKeepsInv(s: State, ending: Ending, outcome: Outcome)
    requires Quiet(s) && s.action.NoAction? && ending.Ended?
    ensures Inv(Conclude(s, ending, outcome))
  {
    if s.completion.Some? {
      AddEvent(s.log, Consumed(s.completion.value));
      if s.completion.value.ResumeAfterExternal? {
        RequestKeepsInv(ConsumeCompletion(s), Resume, outcome);
      } else {
        CompleteKeepsInv(ConsumeCompletion(s));
      }
    } else if ending.retried || ((ending.hadTool || ending.resumes) && !ending.terminalTool) {
      RequestKeepsInv(s, Resume, outcome);
    } else {
      AddEvent(s.log, Forgotten);
      CompleteKeepsInv(Forget(s));
    }
  }

  lemma ResultKeepsInv(s: State, id: string, outcome: Outcome)
    requires Inv(s)
    ensures Inv(ExecResult(s, id, outcome)) && Inv(InteractionResult(s, id, outcome))
  {
    if s.status.Open? {
      if id in s.execs && s.compaction != AwaitingHook(id) {
        ReconcileKeepsInv(s.(execs := s.execs - {id}), outcome);
      }
      if id in s.interactions {
        var t := s.(interactions := s.interactions - {id});
        if s.interactions[id] {
          ReconcileKeepsInv(t, outcome);
        } else {
          AddEvent(s.log, Remembered(CompleteAfterExternal));
          ReconcileKeepsInv(Remember(t, CompleteAfterExternal), outcome);
        }
      }
    }
  }

  lemma CompactionDoneKeepsInv(s: State, token: nat, failed: bool, manual: bool, outcome: Outcome)
    requires Inv(s) && token in s.summaries
    ensures Inv(CompactionDone(s.(summaries := s.summaries - {token}), token, failed, manual, outcome))
  {
    var t := s.(summaries := s.summaries - {token}, active := false, action := NoAction, compaction := NoCompaction);
    if token == s.compactionToken && s.status.Open? {
      if failed {
        FailKeepsInv(t);
      } else if !manual {
        ReconcileKeepsInv(t.(action := Resume), outcome);
      }
    }
  }

  lemma StaleTimerKeepsInv(s: State, fired: Timer)
    requires Inv(s) && fired in s.armed && fired.token != s.timer
    ensures Inv(s.(armed := s.armed - multiset{fired}))
  {
    var t := s.(armed := s.armed - multiset{fired});
    assert t.armed[Timer(s.timer, s.epoch)] == s.armed[Timer(s.timer, s.epoch)];
  }

  /** The current timer is used up; `t` is what the handler then looks at. */
  lemma CurrentTimerKeepsInv(s: State, t: State, outcome: Outcome)
    requires Inv(s) && t == s.(armed := t.armed, timer := t.timer)
    ensures var resumes := !(t.active || t.Terminal() || !t.action.Resume? || t.Pending());
            Inv(if resumes then Drive(t, outcome) else t)
  {
    assert LogOk(t) && TokensOk(t);
    if t.status.Open? && !t.active && t.action.Resume? && !t.Pending() { DriveKeepsInv(t, outcome); }
  }

  lemma ResumeFiredKeepsInv(s: State, fired: Timer, outcome: Outcome)
    requires Inv(s) && fired in s.armed
    ensures Inv(ResumeFired(s.(armed := s.armed - multiset{fired}), fired, outcome))
  {
    if fired.token != s.timer {
      StaleTimerKeepsInv(s, fired);
    } else {
      var t := s.(armed := s.armed - multiset{fired}, timer := s.timer + 1);
      CurrentTimerKeepsInv(s, t, outcome);
      CurrentFiredIs(s, fired, outcome, t);
    }
  }

  lemma CurrentFiredIs(s: State, fired: Timer, outcome: Outcome, t: State)
    requires fired in s.armed && fired.token == s.timer
             && t == s.(armed := s.armed - multiset{fired}, timer := s.timer + 1)
    ensures ResumeFired(s.(armed := s.armed - multiset{fired}), fired, outcome)
         == if t.active || t.Terminal() || !t.action.Resume? || t.Pending() then t else Drive(t, outcome)
  {
    assert t == s.(armed := s.armed - multiset{fired}).(timer := s.timer + 1);
  }

  lemma NextKeepsInv(s: State, step: Step)
    requires Inv(s)
    ensures Inv(Next(s, step))
  {
    match step
    case DoRun(hasWork, prewarm, outcome) => NewRunKeepsInv(s, hasWork, prewarm, outcome);
    case DoTool(token, id, interaction) => ToolKeepsInv(s, token, id, interaction);
    case DoDone(token, ending, outcome) =>
      if token in s.running && !(ending.Interrupted? && s.status.Open? && token == s.token) {
        ProviderDoneKeepsInv(s, token, ending, outcome);
      }
    case DoExecResult(id, outcome) => ResultKeepsInv(s, id, outcome);
    case DoExecChains(id, next) => ChainKeepsInv(s, id, next);
    case DoInteractionResult(id, outcome) => ResultKeepsInv(s, id, outcome);
    case DoCompaction(token, failed, manual, outcome) =>
      if token in s.summaries { CompactionDoneKeepsInv(s, token, failed, manual, outcome); }
    case DoResume(fired, outcome) => if fired in s.armed { ResumeFiredKeepsInv(s, fired, outcome); }
    case DoCheckpoint => CompleteKeepsInv(s);
    case DoCancel(edits) => CancelKeepsInv(s, edits);
    case DoFail => FailKeepsInv(s);
  }

  lemma ToolKeepsInv(s: State, token: nat, id: string, interaction: Option<bool>)
    requires Inv(s)
    ensures token in s.running ==> Inv(ToolOpened(s, token, id, interaction))
  {
  }

  lemma ChainKeepsInv(s: State, id: string, next: string)
    requires Inv(s)
    ensures Inv(ExecChained(s, id, next))
  {
  }

  lemma CancelKeepsInv(s: State, edits: seq<string>)
    requires Inv(s)
    ensures Inv(Cancel(s, edits))
  {
    var t := EditsFinished(Stopped(s), edits);
    EditsKeepLog(Stopped(s), edits);
    AddEvent(t.log, Forgotten);
  }

  lemma {:induction false} EditsKeepLog(s: State, edits: seq<string>)
    requires LogOk(s) && TokensOk(s) && !s.action.Start?
    ensures var t := EditsFinished(s, edits);
            LogOk(t) && TokensOk(t) && !t.action.Start?
  {
    if edits != [] {
      EditsKeepLog(s, edits[..|edits| - 1]);
      EditKeepsLog(EditsFinished(s, edits[..|edits| - 1]), edits[|edits| - 1]);
    }
  }

  lemma EditKeepsLog(s: State, edit: string)
    requires LogOk(s) && TokensOk(s) && !s.action.Start?
    ensures var t := EditFinished(s, edit);
            LogOk(t) && TokensOk(t) && !t.action.Start?
  {
    if s.completion.Some? { UseKeepsLog(s.(execs := s.execs - {edit})); }
  }

  lemma UseKeepsLog(s: State)
    requires LogOk(s) && TokensOk(s) && !s.action.Start? && s.completion.Some?
    ensures var t := UseCompletion(s);
            LogOk(t) && TokensOk(t) && !t.action.Start?
  {
    AddEvent(s.log, Consumed(s.completion.value));
    AddEvent(s.log + [Consumed(s.completion.value)], TurnCompleted);
  }

  lemma {:induction false} RunKeepsInv(s: State, steps: seq<Step>)
    requires Inv(s)
    ensures Inv(Run(s, steps))
    decreases |steps|
  {
    if steps != [] {
      NextKeepsInv(s, steps[0]);
      RunKeepsInv(Next(s, steps[0]), steps[1..]);
    }
  }

  lemma EveryRunKeepsInv(steps: seq<Step>)
    ensures Inv(Run(Initial, steps))
  {
    RunKeepsInv(Initial, steps);
  }

  // ---------------------------------------------------------------- what the invariant means

  lemma {:induction false} SoundAt(log: seq<Event>, i: nat)
    requires Sound(log) && i < |log|
    ensures Justified(log[..i], log[i])
  {
    var front := log[..|log| - 1];
    if i < |front| {
      SoundAt(front, i);
      assert front[..i] == log[..i];
    }
  }

  lemma {:induction false} LastStartedIsHighest(log: seq<Event>, i: nat)
    requires Sound(log) && i < |log| && log[i].Started?
    ensures log[i].token <= LastStarted(log)
  {
    var front := log[..|log| - 1];
    SoundAt(log, |log| - 1);
    if i < |front| { LastStartedIsHighest(front, i); }
  }

  /** No pass starts while one is active, while anything is pending, during a compaction or after the
      end. */
  lemma EveryStartIsClean(steps: seq<Step>, i: nat)
    requires i < |Run(Initial, steps).log| && Run(Initial, steps).log[i].Started?
    ensures Run(Initial, steps).log[i].clean
  {
    EveryRunKeepsInv(steps);
    SoundAt(Run(Initial, steps).log, i);
  }

  /** No two passes share a token, so a report of an earlier pass is never taken for a report of a later
      one. */
  lemma StartsAreDistinct(steps: seq<Step>, i: nat, j: nat)
    requires var log := Run(Initial, steps).log;
             i < j < |log| && log[i].Started? && log[j].Started?
    ensures Run(Initial, steps).log[i].token < Run(Initial, steps).log[j].token
  {
    EveryRunKeepsInv(steps);
    var log := Run(Initial, steps).log;
    SoundAt(log, j);
    assert log[..j][i] == log[i];
    assert Sound(log[..j]) by { SoundPrefix(log, j); }
    LastStartedIsHighest(log[..j], i);
  }

  lemma {:induction false} SoundPrefix(log: seq<Event>, j: nat)
    requires Sound(log) && j <= |log|
    ensures Sound(log[..j])
    decreases |log|
  {
    if j < |log| {
      SoundPrefix(log[..|log| - 1], j);
      assert log[..|log| - 1][..j] == log[..j];
    } else {
      assert log[..j] == log;
    }
  }

  lemma {:induction false} HeldSince(log: seq<Event>) returns (r: nat)
    requires Held(log)
    ensures r < |log| && log[r].Remembered?
    ensures forall i :: r < i < |log| ==> !log[i].Consumed? && !log[i].Forgotten?
  {
    var front, last := log[..|log| - 1], log[|log| - 1];
    if last.Remembered? {
      r := |log| - 1;
    } else {
      r := HeldSince(front);
      forall i | r < i < |log| ensures !log[i].Consumed? && !log[i].Forgotten? {
        if i < |front| { assert front[i] == log[i]; }
      }
    }
  }

  /** A remembered completion is consumed at most once. */
  lemma ConsumedWasRemembered(log: seq<Event>, c: nat) returns (r: nat)
    requires Sound(log) && c < |log| && log[c].Consumed?
    ensures r < c && log[r].Remembered?
    ensures forall i :: r < i < c ==> !log[i].Consumed? && !log[i].Forgotten?
  {
    SoundAt(log, c);
    r := HeldSince(log[..c]);
    forall i | r < i < c ensures !log[i].Consumed? && !log[i].Forgotten? {
      assert log[..c][i] == log[i];
    }
  }

  lemma DriveTokenGrows(s: State, outcome: Outcome)
    ensures s.token <= Drive(s, outcome).token
  {
  }

  lemma ReconcileTokenGrows(s: State, outcome: Outcome)
    ensures s.token <= Reconcile(s, outcome).token
  {
    DriveTokenGrows(s, outcome);
  }

  lemma DoneTokenGrows(s: State, token: nat, ending: Ending, outcome: Outcome)
    ensures s.token <= ProviderDone(s, token, ending, outcome).token
  {
    var t := s.(active := false, action := NoAction);
    ReconcileTokenGrows(t.(action := Resume), outcome);
    if s.completion.Some? { ReconcileTokenGrows(ConsumeCompletion(t).(action := Resume), outcome); }
  }

  lemma NewRunTokenGrows(s: State, hasWork: bool, prewarm: bool, outcome: Outcome)
    ensures s.token <= NewRun(s, hasWork, prewarm, outcome).token
  {
    ReconcileTokenGrows(FreshTurn(s).(action := Start), outcome);
    ReconcileTokenGrows(FreshTurn(Superseded(s)).(action := Start), outcome);
  }

  lemma InteractionTokenGrows(s: State, id: string, outcome: Outcome)
    ensures s.token <= InteractionResult(s, id, outcome).token
  {
    var t := s.(interactions := s.interactions - {id});
    ReconcileTokenGrows(t, outcome);
    ReconcileTokenGrows(Remember(t, CompleteAfterExternal), outcome);
  }

  lemma CompactionTokenGrows(s: State, token: nat, failed: bool, manual: bool, outcome: Outcome)
    ensures s.token <= CompactionDone(s.(summaries := s.summaries - {token}), token, failed, manual, outcome).token
  {
    var t := s.(summaries := s.summaries - {token}, active := false, action := Resume, compaction := NoCompaction);
    ReconcileTokenGrows(t, outcome);
  }

  lemma {:induction false} EditsTokenGrows(s: State, edits: seq<string>)
    ensures s.token <= EditsFinished(s, edits).token
  {
    if edits != [] {
      EditsTokenGrows(s, edits[..|edits| - 1]);
      var t, edit := EditsFinished(s, edits[..|edits| - 1]), edits[|edits| - 1];
      ReconcileTokenGrows(t.(execs := t.execs - {edit}), Runs);
    }
  }

  lemma NextTokenGrows(s: State, step: Step)
    ensures s.token <= Next(s, step).token
  {
    match step
    case DoRun(hasWork, prewarm, outcome) => NewRunTokenGrows(s, hasWork, prewarm, outcome);
    case DoDone(token, ending, outcome) => DoneTokenGrows(s.(running := s.running - {token}), token, ending, outcome);
    case DoExecResult(id, outcome) => ReconcileTokenGrows(s.(execs := s.execs - {id}), outcome);
    case DoInteractionResult(id, outcome) => InteractionTokenGrows(s, id, outcome);
    case DoCompaction(token, failed, manual, outcome) => CompactionTokenGrows(s, token, failed, manual, outcome);
    case DoResume(fired, outcome) =>
      DriveTokenGrows(s.(armed := s.armed - multiset{fired}, timer := s.timer + 1), outcome);
    case DoCancel(edits) => EditsTokenGrows(Stopped(s), edits);
    case _ =>
  }

  /** A retired token stays retired: whatever happens in between, the report of a pass whose token
      is no longer the current one only uses itself up. */
  lemma {:induction false} RetiredReportChangesNothing(s: State, steps: seq<Step>, token: nat, ending: Ending,
                                                       outcome: Outcome)
    requires token < s.token
    ensures var t := Run(s, steps);
            token < t.token && Next(t, DoDone(token, ending, outcome)) == t.(running := t.running - {token})
    decreases |steps|
  {
    if steps != [] {
      NextTokenGrows(s, steps[0]);
      RetiredReportChangesNothing(Next(s, steps[0]), steps[1..], token, ending, outcome);
    }
  }

  /** What a new run with work finds, once a run that was going on has been superseded: nothing is left of
      it, in particular no completion is remembered. */
  lemma NewTurnIsClean(s: State)
    requires Inv(s) && s.status.Open?
    ensures var t := FreshTurn(if s.active || s.Pending() || s.phase.WaitingExternal? then Superseded(s) else s);
            Clean(t) && t.completion.None? && t.token !in t.running
  {
  }

  /** In no run does a start meet a remembered completion or anything else in its way: a run intent with
      work begins a pass at once exactly if the stream has not ended. */
  lemma StartBeginsPassIff(before: seq<Step>)
    ensures var s := Run(Initial, before);
            var t := NewRun(s, true, false, Runs);
            && (t.active && t.log != [] && t.log[|t.log| - 1] == Started(t.token, true) <==> s.status.Open?)
            && (s.status.Open? ==> t.token in t.running && t.completion.None? && t.timer == 0 && t.armed == s.armed)
  {
    EveryRunKeepsInv(before);
    var s := Run(Initial, before);
    if s.status.Open? { NewTurnIsClean(s); }
  }

  // ---------------------------------------------------------------- what a cancellation does

  /** A stream that is being canceled, before its last edit is finished. */
  predicate Stopping(s: State) {
    s.status.Open? && !s.claimed && !s.active && s.action.NoAction? && s.compaction.NoCompaction?
  }

  /** As long as anything else is pending, finishing edits changes nothing that lasts. */
  lemma {:induction false} EditsBesideOthers(s: State, edits: seq<string>)
    requires Stopping(s) && (s.interactions != map[] || !(forall id :: id in s.execs ==> id in edits))
    ensures var t := EditsFinished(s, edits);
            t == s.(execs := t.execs, phase := t.phase) && forall id :: id in t.execs <==> id in s.execs && id !in edits
  {
    if edits != [] {
      var front, last := edits[..|edits| - 1], edits[|edits| - 1];
      assert edits == front + [last];
      EditsBesideOthers(s, front);
      EditBesideOthers(EditsFinished(s, front), last);
    }
  }

  lemma EditBesideOthers(s: State, edit: string)
    requires Stopping(s) && (s.interactions != map[] || exists id :: id in s.execs && id != edit)
    ensures var t := EditFinished(s, edit);
            t == s.(execs := s.execs - {edit}, phase := t.phase)
  {
    if edit !in s.execs {
      assert s.execs - {edit} == s.execs;
    } else if s.interactions == map[] {
      var id :| id in s.execs && id != edit;
      assert id in s.execs - {edit};
    }
  }

  /** Nothing is pending any more: what was remembered has been used. */
  lemma {:induction false} LastEdit(s: State, edits: seq<string>)
    requires Stopping(s) && s.interactions == map[] && s.execs != {} && forall id :: id in s.execs ==> id in edits
    ensures EditsFinished(s, edits).status.Completed?
            <==> s.completion.Some? && !s.completion.value.ResumeAfterExternal?
    ensures EditsFinished(s, edits).status.Completed? || EditsFinished(s, edits).status.Open?
    ensures EditsFinished(s, edits).execs == {}
  {
    var front, last := edits[..|edits| - 1], edits[|edits| - 1];
    assert edits == front + [last];
    if forall id :: id in s.execs ==> id in front {
      LastEdit(s, front);
    } else {
      EditsBesideOthers(s, front);
      var t := EditsFinished(s, front);
      assert t.execs == {last};
      assert EditsFinished(s, edits) == Reconcile(t.(execs := t.execs - {last}), Runs);
      NothingIsPending(t.(execs := t.execs - {last}));
    }
  }

  lemma NothingIsPending(s: State)
    requires Stopping(s) && s.interactions == map[] && s.execs == {}
    ensures var t := Reconcile(s, Runs);
            && (t.status.Completed? <==> s.completion.Some? && !s.completion.value.ResumeAfterExternal?)
            && (t.status.Completed? || t.status.Open?) && t.execs == {}
  {
  }

  lemma {:induction false} EditsStayStopped(s: State, edits: seq<string>)
    requires !s.active && s.compaction.NoCompaction? && !s.action.Start?
    ensures var t := EditsFinished(s, edits);
            && !t.active && t.compaction.NoCompaction? && !t.action.Start?
            && t.token == s.token && t.compactionToken == s.compactionToken
  {
    if edits != [] {
      EditsStayStopped(s, edits[..|edits| - 1]);
      EditStaysStopped(EditsFinished(s, edits[..|edits| - 1]), edits[|edits| - 1]);
    }
  }

  lemma EditStaysStopped(s: State, edit: string)
    requires !s.active && s.compaction.NoCompaction? && !s.action.Start?
    ensures var t := EditFinished(s, edit);
            && !t.active && t.compaction.NoCompaction? && !t.action.Start?
            && t.token == s.token && t.compactionToken == s.compactionToken
  {
  }

  /** In every run, canceling an open stream completes the turn instead exactly if finishing the pending edits
      leaves nothing pending and a completion is remembered that does not resume. */
  lemma CancelCompletesIff(before: seq<Step>, edits: seq<string>)
    requires Run(Initial, before).status.Open?
    ensures var s := Run(Initial, before);
            var t := Cancel(s, edits);
            && (t.status.Completed? || t.status.Canceled?) && t.phase.PhaseCanceled?
            && !t.active && t.action.NoAction? && t.compaction.NoCompaction? && t.completion.None?
            && t.token > s.token && t.compactionToken > s.compactionToken
            && (t.status.Completed? <==> && s.completion.Some? && !s.completion.value.ResumeAfterExternal?
                                         && s.execs != {} && s.interactions == map[]
                                         && forall id :: id in s.execs ==> id in edits)
  {
    EveryRunKeepsInv(before);
    var s := Run(Initial, before);
    EditsStayStopped(Stopped(s), edits);
    if s.interactions == map[] && s.execs != {} && forall id :: id in s.execs ==> id in edits {
      LastEdit(Stopped(s), edits);
    } else if s.interactions == map[] && s.execs == {} {
      NoEdits(Stopped(s), edits);
    } else {
      EditsBesideOthers(Stopped(s), edits);
    }
  }

  lemma {:induction false} NoEdits(s: State, edits: seq<string>)
    requires s.execs == {}
    ensures EditsFinished(s, edits) == s
  {
    if edits != [] { NoEdits(s, edits[..|edits| - 1]); }
  }
}
