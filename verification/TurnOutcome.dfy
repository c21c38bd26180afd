/** What becomes of a Codex app-server task, told from the steps of its run alone: which messages
    wait to be handled, what has been answered, what the turn settled on, what makes the native
    task fail, and which requests it has behind it. */
module TurnOutcome {
  import opened Options
  import opened CodexAppServer

  function StateAt(config: Config, steps: seq<Step>, k: int): State
    requires 0 <= k <= |steps|
  {
    After(config, steps[..k])
  }

  // The messages that have come and are not handled yet, oldest first.
  function Waiting(config: Config, steps: seq<Step>): seq<Message> {
    if steps == [] then []
    else
      var (init, last) := (steps[..|steps| - 1], steps[|steps| - 1]);
      var before := Waiting(config, init);
      match last
      case Arrives(m) => if After(config, init).native.connected then before + [m] else before
      case Handled(i) => if i < |before| then before[..i] + before[i + 1..] else before
      case _ => before
  }

  // The process is gone.
  function Gone(config: Config, steps: seq<Step>): bool {
    steps != [] &&
    var (init, last) := (steps[..|steps| - 1], steps[|steps| - 1]);
    Gone(config, init) || (last.Exits? && After(config, init).native.connected)
  }

  const REQUESTS := {Opening, Initializing, Threading, StartingReview, StartingTurn}
  const CALLBACKS := {Announcing, Completing, NotingBlocked, NotingFallback, Erroring}

  // How what the task is waiting for has been answered, if it has been.
  function Given(config: Config, steps: seq<Step>): Option<Answer> {
    if steps == [] then None
    else
      var (init, last) := (steps[..|steps| - 1], steps[|steps| - 1]);
      var (before, pc) := (Given(config, init), After(config, init).pc);
      match last
      case Answers(a) =>
        if before.Some? || pc !in REQUESTS + CALLBACKS then before
        else if pc in REQUESTS && Gone(config, init) then Some(Failed)
        else Some(a)
      case Exits =>
        var live := After(config, init).native.connected && !Gone(config, init);
        if before.None? && pc in REQUESTS && live then Some(Failed) else before
      case Resume => if After(config, steps).pc == pc then before else None
      case _ => before
  }

  const FINAL := {"completed", "failed", "interrupted"}

  // What a step tells about the turn: a message that is handled, the exit, or the response to the
  // request that starts it.
  function Tells(config: Config, steps: seq<Step>, step: Step): Option<string> {
    match step
    case Handled(i) =>
      if i >= |Waiting(config, steps)| then None
      else (match Waiting(config, steps)[i]
            case TurnCompleted(status) => Some(status)
            case ErrorNotice => Some("failed")
            case _ => None)
    case Exits => if After(config, steps).native.connected && !Gone(config, steps) then Some("failed") else None
    case Resume =>
      var (pc, given) := (After(config, steps).pc, Given(config, steps));
      if pc in {StartingReview, StartingTurn} && given.Some? && given.value.Ok? && given.value.status in FINAL
      then Some(given.value.status) else None
    case _ => None
  }

  // The first that is told.
  function FirstTold(config: Config, steps: seq<Step>): Option<string> {
    if steps == [] then None
    else
      var init := steps[..|steps| - 1];
      if FirstTold(config, init).Some? then FirstTold(config, init) else Tells(config, init, steps[|steps| - 1])
  }

  // ----- the state is what the steps say

  predicate Follows(config: Config, steps: seq<Step>, s: State) {
    && s.native.queue == Waiting(config, steps)
    && s.native.exited == Gone(config, steps)
    && s.answer == Given(config, steps)
    && s.native.settled == FirstTold(config, steps)
  }

  lemma ResumedNative(config: Config, s: State)
    ensures Resumed(config, s).native.queue == s.native.queue
    ensures Resumed(config, s).native.exited == s.native.exited
    ensures Resumed(config, s).answer == if Resumed(config, s).pc == s.pc then s.answer else None
  {
    hide TurnOver, Blocked, GoTo, End, FallBack, Throw, TurnStarted;
  }

  lemma ResumedSettled(config: Config, s: State)
    ensures Resumed(config, s).native.settled ==
            if s.native.settled.None? && s.pc in {StartingReview, StartingTurn} && s.answer.Some? && s.answer.value.Ok?
               && s.answer.value.status in FINAL
            then Some(s.answer.value.status) else s.native.settled
  {
    hide FallBack, Throw, End, GoTo, TurnStarted;
    if s.answer.Some? && s.answer.value.Ok? {
      TurnStartedSettled(s, s.answer.value.status);
    }
  }

  lemma TurnStartedSettled(s: State, status: string)
    ensures TurnStarted(s, status).native.settled ==
            if s.native.settled.None? && status in FINAL then Some(status) else s.native.settled
  {
  }

  lemma OutsideStep(config: Config, s: State, step: Step)
    requires !step.Resume?
    ensures Do(config, s, step).pc == s.pc
    ensures var (n, after) := (s.native, Do(config, s, step).native);
            && after.exited == (n.exited || (step.Exits? && n.connected))
            && after.queue == (if step.Arrives? && n.connected then n.queue + [step.message]
                               else if step.Handled? && step.index < |n.queue|
                               then n.queue[..step.index] + n.queue[step.index + 1..] else n.queue)
  {
    hide Registered, Handle;
    if step.Handled? && step.index < |s.native.queue| {
      HandledQueue(s.native, step.index);
    }
  }

  lemma HandledQueue(n: Native, i: nat)
    requires i < |n.queue|
    ensures Handle(n, i).queue == n.queue[..i] + n.queue[i + 1..] && Handle(n, i).exited == n.exited
  {
  }

  lemma OutsideAnswer(config: Config, s: State, step: Step)
    requires !step.Resume?
    ensures Do(config, s, step).answer ==
            if step.Answers? && s.answer.None? && s.pc in REQUESTS + CALLBACKS
            then Some(if s.pc in REQUESTS && s.native.exited then Failed else step.answer)
            else if step.Exits? && s.answer.None? && s.pc in REQUESTS && s.native.connected && !s.native.exited
            then Some(Failed) else s.answer
  {
    hide Registered, Settle, Handle;
  }

  lemma OutsideSettled(config: Config, s: State, step: Step)
    requires !step.Resume?
    ensures Do(config, s, step).native.settled ==
            if s.native.settled.Some? then s.native.settled
            else match step
              case Handled(i) =>
                if i >= |s.native.queue| then None
                else (match s.native.queue[i]
                      case TurnCompleted(status) => Some(status)
                      case ErrorNotice => Some("failed")
                      case _ => None)
              case Exits => if s.native.connected && !s.native.exited then Some("failed") else None
              case _ => None
  {
    hide Registered;
    match step
    case Handled(i) =>
    case Exits =>
    case _ =>
  }

  lemma {:induction false} RunFollows(config: Config, steps: seq<Step>)
    ensures Follows(config, steps, After(config, steps))
  {
    hide Do, Resumed;
    if steps != [] {
      hide Follows;
      var (init, last) := (steps[..|steps| - 1], steps[|steps| - 1]);
      assert steps == init + [last];
      RunFollows(config, init);
      StepFollows(config, init, last);
    }
  }

  lemma StepFollows(config: Config, steps: seq<Step>, step: Step)
    requires Follows(config, steps, After(config, steps))
    ensures Follows(config, steps + [step], After(config, steps + [step]))
  {
    hide Do, Resumed;
    var (s, longer) := (After(config, steps), steps + [step]);
    assert longer[..|steps|] == steps && longer[|steps|] == step;
    if step.Resume? {
      ResumeStep(config, s);
      ResumedNative(config, s);
      ResumedSettled(config, s);
    } else {
      OutsideStep(config, s, step);
      OutsideAnswer(config, s, step);
      OutsideSettled(config, s, step);
    }
  }

  // Whatever the order of steps: the turn settles on what is told first, and stays unsettled as
  // long as nothing is.
  lemma SettledByFirst(config: Config, steps: seq<Step>)
    ensures After(config, steps).native.settled == FirstTold(config, steps)
  {
    hide After, FirstTold, Waiting, Given, Gone;
    RunFollows(config, steps);
  }

  // ----- completion

  predicate CompletesAt(config: Config, steps: seq<Step>, k: int, status: string) {
    && 0 <= k < |steps| && steps[k].Resume? && StateAt(config, steps, k).pc.AwaitingTurn?
    && FirstTold(config, steps[..k]) == Some(status) && status != "failed"
  }

  lemma ResumedOutcomes(config: Config, s: State, status: string)
    ensures Completed(status) in Resumed(config, s).outcomes <==>
            Completed(status) in s.outcomes ||
            (s.pc.AwaitingTurn? && s.native.settled == Some(status) && status != "failed")
  {
    hide TurnOver, Blocked, FallBack, Throw;
    NoCompletion(config, s, status);
  }

  // Failing completes nothing.
  lemma NoCompletion(config: Config, s: State, status: string)
    ensures Completed(status) in Throw(config, s).outcomes <==> Completed(status) in s.outcomes
    ensures Completed(status) in FallBack(config, Decide(s)).outcomes <==> Completed(status) in s.outcomes
  {
  }

  lemma OutsideOutcomes(config: Config, s: State, step: Step)
    requires !step.Resume?
    ensures Do(config, s, step).outcomes == s.outcomes
  {
    hide Registered, Settle;
  }

  // A task is reported complete with a status exactly if its turn was taken up when that was what
  // had been told first, and it was not `failed`.
  lemma {:induction false} CompletedExactly(config: Config, steps: seq<Step>, status: string)
    ensures Completed(status) in After(config, steps).outcomes <==> exists k :: CompletesAt(config, steps, k, status)
  {
    hide Do, Resumed, FirstTold;
    if steps != [] {
      var (init, last) := (steps[..|steps| - 1], steps[|steps| - 1]);
      var s := After(config, init);
      CompletedExactly(config, init, status);
      SettledByFirst(config, init);
      CompletesMore(config, steps, status);
      if last.Resume? {
        ResumeStep(config, s);
        ResumedOutcomes(config, s, status);
      } else {
        OutsideOutcomes(config, s, last);
      }
    }
  }

  lemma CompletesMore(config: Config, steps: seq<Step>, status: string)
    requires steps != []
    ensures var (init, n) := (steps[..|steps| - 1], |steps| - 1);
            (exists k :: CompletesAt(config, steps, k, status)) <==>
            (exists k :: CompletesAt(config, init, k, status)) || CompletesAt(config, steps, n, status)
  {
    hide After, FirstTold;
    var init := steps[..|steps| - 1];
    forall k | 0 <= k < |init|
      ensures CompletesAt(config, steps, k, status) <==> CompletesAt(config, init, k, status)
    {
      assert steps[..k] == init[..k];
    }
  }

  // ----- failure

  // What makes the native task fail, or keeps it from starting.
  predicate Fails(config: Config, pc: Pc, given: Option<Answer>, told: Option<string>) {
    match pc
    case Starting => !config.cliFound && !config.commandGiven
    case Threading => given.Some? && (given.value.Failed? || (!given.value.threadId && !config.resumes))
    case AwaitingTurn => told == Some("failed")
    case _ => pc in {Opening, Initializing, Announcing, StartingTurn, Completing} && given == Some(Failed)
  }

  lemma ResumedDecision(config: Config, s: State)
    requires s.decision.None? && s.pc !in {NotingBlocked, NotingFallback, Erroring}
    ensures Resumed(config, s).decision.Some? <==> Fails(config, s.pc, s.answer, s.native.settled)
  {
    hide TurnOver, Blocked, Settle;
  }

  lemma OutsideDecision(config: Config, s: State, step: Step)
    requires !step.Resume?
    ensures Do(config, s, step).decision == s.decision
  {
    hide Registered, Settle;
  }

  // Over whole runs: it is decided how to go on at exactly the steps at which the task takes up a
  // failure. A review that cannot be started is none, and neither is a lack of a thread id in a
  // resumed thread.
  lemma DecidesExactly(config: Config, steps: seq<Step>, d: int)
    requires 0 <= d < |steps|
    ensures DecidesAt(config, steps, d) <==>
            && steps[d].Resume? && StateAt(config, steps, d).decision.None?
            && Fails(config, StateAt(config, steps, d).pc, Given(config, steps[..d]), FirstTold(config, steps[..d]))
  {
    hide After, Do, Resumed, Given, FirstTold, Waiting, Gone, Fails;
    var s := StateAt(config, steps, d);
    OneStep(config, steps, d);
    RunFollows(config, steps[..d]);
    RunSound(config, steps[..d]);
    if s.decision.None? {
      UndecidedPlace(config, s);
      if steps[d].Resume? {
        ResumeStep(config, s);
        ResumedDecision(config, s);
      } else {
        OutsideDecision(config, s, steps[d]);
      }
    }
  }

  lemma UndecidedPlace(config: Config, s: State)
    requires Sound(config, s) && s.decision.None?
    ensures s.pc !in {NotingBlocked, NotingFallback, Erroring}
  {
    hide Orderly, SoundOutcomes;
  }

  // ... and then an error is reported if a message has been seen or there is no fallback, a missing
  // approval bridge is noted if that is why the fallback may not run, and otherwise the fallback is
  // announced. Nothing has been seen where nothing could be started.
  lemma DecidedGoesOn(config: Config, steps: seq<Step>, d: int)
    requires DecidesAt(config, steps, d)
    ensures var (s, after) := (StateAt(config, steps, d), StateAt(config, steps, d + 1));
            var blocked := config.bridgeRequired && !config.overrideOn;
            && after.pc == (if s.pc.Starting? then
                              if blocked then NotingBlocked else if config.hasFallback then NotingFallback else Erroring
                            else if ArrivedBefore(config, steps, d) || !config.hasFallback then Erroring
                            else if blocked then NotingBlocked
                            else NotingFallback)
            && after.outcomes == if after.pc.Erroring? then s.outcomes + [Errored] else s.outcomes
  {
    hide After, Do, Resumed, Given, FirstTold, ArrivedBefore;
    var s := StateAt(config, steps, d);
    DecidesExactly(config, steps, d);
    OneStep(config, steps, d);
    ResumeStep(config, s);
    SawMeansArrived(config, steps, d);
    RunFollows(config, steps[..d]);
    ResumedGoesOn(config, s);
  }

  lemma ResumedGoesOn(config: Config, s: State)
    requires s.decision.None? && Fails(config, s.pc, s.answer, s.native.settled)
    ensures var (after, blocked) := (Resumed(config, s), config.bridgeRequired && !config.overrideOn);
            && after.pc == (if s.pc.Starting? then
                              if blocked then NotingBlocked else if config.hasFallback then NotingFallback else Erroring
                            else if s.native.saw || !config.hasFallback then Erroring
                            else if blocked then NotingBlocked
                            else NotingFallback)
            && after.outcomes == if after.pc.Erroring? then s.outcomes + [Errored] else s.outcomes
  {
    hide FallBack, Throw, GoTo, Connect, KnowThread, TurnStarted;
    FallsBack(config, Decide(s));
    Throws(config, s);
  }

  lemma FallsBack(config: Config, s: State)
    ensures var (after, blocked) := (FallBack(config, s), config.bridgeRequired && !config.overrideOn);
            && after.pc == (if blocked then NotingBlocked else if config.hasFallback then NotingFallback else Erroring)
            && after.outcomes == if after.pc.Erroring? then s.outcomes + [Errored] else s.outcomes
  {
  }

  lemma Throws(config: Config, s: State)
    ensures var (after, blocked) := (Throw(config, s), config.bridgeRequired && !config.overrideOn);
            && after.pc == (if s.native.saw || !config.hasFallback then Erroring
                            else if blocked then NotingBlocked else NotingFallback)
            && after.outcomes == if after.pc.Erroring? then s.outcomes + [Errored] else s.outcomes
  {
    hide FallBack;
    FallsBack(config, Decide(s));
  }

  // ----- what a task has behind it

  // This was answered, and the task took the answer up.
  predicate DoneAt(config: Config, steps: seq<Step>, pc: Pc, k: int) {
    && 0 <= k < |steps| && steps[k].Resume? && StateAt(config, steps, k).pc == pc
    && Given(config, steps[..k]).Some? && Given(config, steps[..k]).value.Ok?
    && (pc.Threading? ==> Given(config, steps[..k]).value.threadId || config.resumes)
  }

  ghost predicate Did(config: Config, steps: seq<Step>, pc: Pc) {
    exists k :: DoneAt(config, steps, pc, k)
  }

  predicate ReviewRefusedAt(config: Config, steps: seq<Step>, k: int) {
    && 0 <= k < |steps| && steps[k].Resume? && StateAt(config, steps, k).pc.StartingReview?
    && Given(config, steps[..k]) == Some(Failed)
  }

  ghost predicate ReviewRefused(config: Config, steps: seq<Step>) {
    exists k :: ReviewRefusedAt(config, steps, k)
  }

  ghost predicate ThreadOpen(config: Config, steps: seq<Step>) {
    Did(config, steps, Opening) && Did(config, steps, Initializing) && Did(config, steps, Threading)
  }

  ghost predicate Announced(config: Config, steps: seq<Step>) {
    ThreadOpen(config, steps) && Did(config, steps, Announcing)
  }

  ghost predicate TurnBegun(config: Config, steps: seq<Step>) {
    && Announced(config, steps)
    && (Did(config, steps, StartingTurn) || (config.reviews && Did(config, steps, StartingReview)))
  }

  ghost predicate Completes(config: Config, steps: seq<Step>) {
    exists k, status :: CompletesAt(config, steps, k, status)
  }

  ghost predicate Prepared(config: Config, steps: seq<Step>, pc: Pc) {
    match pc
    case Initializing => Did(config, steps, Opening)
    case Threading => Did(config, steps, Opening) && Did(config, steps, Initializing)
    case Announcing => ThreadOpen(config, steps)
    case StartingReview => Announced(config, steps) && config.reviews
    case StartingTurn => Announced(config, steps) && (config.reviews ==> ReviewRefused(config, steps))
    case AwaitingTurn => TurnBegun(config, steps)
    case Completing => TurnBegun(config, steps) && Completes(config, steps)
    case _ => true
  }

  // Whatever the order of steps: a turn is awaited only after the connection was opened and
  // initialized, a thread was opened, with an id unless it was resumed, and announced, and the turn
  // was started, by a review if one is asked for and can be started.
  lemma {:induction false} RunPrepared(config: Config, steps: seq<Step>)
    ensures Prepared(config, steps, After(config, steps).pc)
  {
    hide Do, Resumed, Given, FirstTold, Prepared;
    if steps == [] {
      NothingPrepared(config);
    } else {
      var (init, last) := (steps[..|steps| - 1], steps[|steps| - 1]);
      assert steps == init + [last];
      var s := After(config, init);
      RunPrepared(config, init);
      PreparedStill(config, init, last, s.pc);
      if last.Resume? {
        RunFollows(config, init);
        ResumeStep(config, s);
        ResumedPc(config, s);
        assert steps[..|init|] == init;
        MovesOn(config, steps, s, After(config, steps).pc);
      } else {
        OutsideStep(config, s, last);
      }
    }
  }

  lemma NothingPrepared(config: Config)
    ensures After(config, []).pc.Starting? && Prepared(config, [], Starting)
  {
  }

  lemma DidStill(config: Config, steps: seq<Step>, last: Step, pc: Pc)
    ensures Did(config, steps, pc) ==> Did(config, steps + [last], pc)
  {
    hide After, Given;
    if k :| DoneAt(config, steps, pc, k) {
      assert (steps + [last])[..k] == steps[..k];
      assert DoneAt(config, steps + [last], pc, k);
    }
  }

  lemma ReviewStill(config: Config, steps: seq<Step>, last: Step)
    ensures ReviewRefused(config, steps) ==> ReviewRefused(config, steps + [last])
  {
    hide After, Given;
    if k :| ReviewRefusedAt(config, steps, k) {
      assert (steps + [last])[..k] == steps[..k];
      assert ReviewRefusedAt(config, steps + [last], k);
    }
  }

  lemma PreparedStill(config: Config, steps: seq<Step>, last: Step, pc: Pc)
    ensures Prepared(config, steps, pc) ==> Prepared(config, steps + [last], pc)
  {
    hide Did, ReviewRefused, Completes;
    DidStill(config, steps, last, Opening);
    DidStill(config, steps, last, Initializing);
    DidStill(config, steps, last, Threading);
    DidStill(config, steps, last, Announcing);
    DidStill(config, steps, last, StartingTurn);
    DidStill(config, steps, last, StartingReview);
    ReviewStill(config, steps, last);
    CompletesStill(config, steps, last);
  }

  lemma CompletesStill(config: Config, steps: seq<Step>, last: Step)
    ensures Completes(config, steps) ==> Completes(config, steps + [last])
  {
    hide After, FirstTold;
    if k, status :| CompletesAt(config, steps, k, status) {
      assert (steps + [last])[..k] == steps[..k];
      assert CompletesAt(config, steps + [last], k, status);
    }
  }

  // Where the task goes from where it is.
  predicate Leads(config: Config, pc: Pc, given: Option<Answer>, told: Option<string>, to: Pc) {
    var ok := given.Some? && given.value.Ok?;
    match to
    case Opening => pc.Starting?
    case Initializing => pc.Opening? && ok
    case Threading => pc.Initializing? && ok
    case Announcing => pc.Threading? && ok && (given.value.threadId || config.resumes)
    case StartingReview => pc.Announcing? && ok && config.reviews
    case StartingTurn => (pc.Announcing? && ok && !config.reviews) || (pc.StartingReview? && given == Some(Failed))
    case AwaitingTurn => (pc.StartingTurn? || pc.StartingReview?) && ok
    case Completing => pc.AwaitingTurn? && told.Some? && told.value != "failed"
    case _ => true
  }

  lemma ResumedPc(config: Config, s: State)
    ensures Resumed(config, s).pc == s.pc || Leads(config, s.pc, s.answer, s.native.settled, Resumed(config, s).pc)
  {
    hide TurnStarted, FallBack, Throw, GoTo, End, Connect, KnowThread;
  }

  lemma MovesOn(config: Config, steps: seq<Step>, s: State, to: Pc)
    requires steps != [] && steps[|steps| - 1].Resume?
    requires s == StateAt(config, steps, |steps| - 1) && Follows(config, steps[..|steps| - 1], s)
    requires Prepared(config, steps, s.pc) && (to == s.pc || Leads(config, s.pc, s.answer, s.native.settled, to))
    ensures Prepared(config, steps, to)
  {
    hide After, Given, FirstTold, Waiting, Gone;
    var k := |steps| - 1;
    if s.answer.Some? && s.answer.value.Ok? && (s.pc.Threading? ==> s.answer.value.threadId || config.resumes) {
      assert DoneAt(config, steps, s.pc, k);
    }
    if s.pc.StartingReview? && s.answer == Some(Failed) {
      assert ReviewRefusedAt(config, steps, k);
    }
    if s.pc.AwaitingTurn? && s.native.settled.Some? && s.native.settled.value != "failed" {
      assert CompletesAt(config, steps, k, s.native.settled.value);
    }
  }

  // ----- the thread, and who is asked to stop

  // The thread is known from a response or from a message.
  function ThreadKnown(config: Config, steps: seq<Step>): bool {
    steps != [] &&
    var (init, last) := (steps[..|steps| - 1], steps[|steps| - 1]);
    || ThreadKnown(config, init)
    || (last.Handled? && last.index < |Waiting(config, init)| && Waiting(config, init)[last.index].ThreadStarted?)
    || (last.Resume? && After(config, init).pc.Threading? && After(config, steps).pc.Announcing?)
  }

  lemma StepThread(config: Config, s: State, step: Step)
    ensures Do(config, s, step).native.thread ==
            (s.native.thread
             || (step.Handled? && step.index < |s.native.queue| && s.native.queue[step.index].ThreadStarted?)
             || (step.Resume? && s.pc.Threading? && Do(config, s, step).pc.Announcing?))
  {
    hide Registered, Resumed, Handle;
    if step.Resume? {
      ResumeThread(config, s);
    } else if step.Handled? && step.index < |s.native.queue| {
      HandledThread(s.native, step.index);
    }
  }

  lemma ResumeThread(config: Config, s: State)
    ensures Resumed(config, s).native.thread ==
            (s.native.thread || (s.pc.Threading? && Resumed(config, s).pc.Announcing?))
  {
    hide FallBack, Throw, GoTo, End, TurnStarted;
  }

  lemma HandledThread(n: Native, i: nat)
    requires i < |n.queue|
    ensures Handle(n, i).thread == (n.thread || n.queue[i].ThreadStarted?)
  {
  }

  lemma {:induction false} ThreadIsKnown(config: Config, steps: seq<Step>)
    ensures After(config, steps).native.thread == ThreadKnown(config, steps)
  {
    hide Do, Waiting;
    if steps != [] {
      var (init, last) := (steps[..|steps| - 1], steps[|steps| - 1]);
      ThreadIsKnown(config, init);
      RunFollows(config, init);
      StepThread(config, After(config, init), last);
    }
  }
}
