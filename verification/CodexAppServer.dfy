/** One task of apps/host/src/services/codex-app-server-executor.ts: `startTask`, `startNativeTask`,
    `runFallback` and `cancelTask`, with the connection of apps/host/src/services/provider-runtime.ts.

    `Do` is the protocol as a state machine: the task moves at `Resume` steps, everything else is
    what may happen while it awaits something, in any order and any number. A step that cannot
    happen changes nothing. Class `CodexTask` is the source's sequential code, and is shown to be
    a run of the machine; the promises are about every run. */
module CodexAppServer {
  import opened Options

  datatype Config = Config(cliFound: bool, commandGiven: bool, hasFallback: bool, bridgeRequired: bool,
                           overrideOn: bool, resumes: bool, reviews: bool)

  // A JSON-RPC notification or server request; only what matters for the outcome is told apart.
  datatype Message = ThreadStarted | TurnCompleted(status: string) | ErrorNotice | OtherMessage

  // How a pending request or callback ends. A thread response may lack a thread id, a turn
  // response may already carry the turn's status.
  datatype Answer = Ok(threadId: bool, status: string) | Failed

  // What the task is waiting for.
  datatype Pc =
    | Starting
    | Opening
    | Initializing
    | Threading
    | Announcing
    | StartingReview
    | StartingTurn
    | AwaitingTurn
    | Completing
    | NotingBlocked
    | NotingFallback
    | Erroring
    | Finished

  // `seenByNow`: whether a native message had come by the time the fallback was started.
  datatype Outcome = Completed(status: string) | Errored | HandedOver(seenByNow: bool)

  // A cancellation interrupts the turn, if there is a thread, and then closes the connection.
  datatype Cancellation = NotAsked | Interrupting | Closed

  // The app server and what it has said. Nothing happens here before there is a connection:
  // opening one awaits nothing.
  datatype Native = Native(connected: bool, exited: bool, thread: bool, cancellation: Cancellation,
                           saw: bool, queue: seq<Message>, settled: Option<string>)

  // `decision` is made in the `catch` block, or at once without a CLI: whether a native message
  // had been seen.
  datatype State = State(pc: Pc, answer: Option<Answer>, native: Native, decision: Option<bool>,
                         callbackFailed: bool, outcomes: seq<Outcome>)

  datatype Step =
    | Resume
    | Answers(answer: Answer)
    | Arrives(message: Message)
    | Handled(index: nat)
    | Exits
    | Cancels
    | Interrupted

  const FAILED := "failed"

  function Begin(): State {
    State(Starting, None, Native(false, false, false, NotAsked, false, [], None), None, false, [])
  }

  predicate IsRequest(pc: Pc) {
    pc.Opening? || pc.Initializing? || pc.Threading? || pc.StartingReview? || pc.StartingTurn?
  }

  predicate IsCallback(pc: Pc) {
    pc.Announcing? || pc.Completing? || pc.NotingBlocked? || pc.NotingFallback? || pc.Erroring?
  }

  // A promise settles once. The source's `completed` flag only skips a second settlement.
  function Settle(n: Native, status: string): Native {
    if n.settled.None? then n.(settled := Some(status)) else n
  }

  function GoTo(s: State, pc: Pc): (next: State)
    ensures next.pc == pc && next.native == s.native && next.decision == s.decision && next.answer.None?
  {
    s.(pc := pc, answer := None)
  }

  function End(s: State, outcome: Outcome, pc: Pc): (next: State)
    ensures next.pc == pc && next.native == s.native && next.decision == s.decision && next.answer.None?
  {
    GoTo(s, pc).(outcomes := s.outcomes + [outcome])
  }

  predicate Blocked(config: Config) {
    config.bridgeRequired && !config.overrideOn
  }

  function FallBack(config: Config, s: State): (next: State)
    ensures (next.pc.Erroring? || next.pc.NotingBlocked? || next.pc.NotingFallback?) && next.answer.None?
    ensures next.native == s.native && next.decision == s.decision
  {
    if Blocked(config) then GoTo(s, NotingBlocked)
    else if !config.hasFallback then End(s, Errored, Erroring)
    else GoTo(s, NotingFallback)
  }

  function Decide(s: State): State {
    s.(decision := Some(s.native.saw))
  }

  // The `catch` block of `startTask`.
  function Throw(config: Config, s: State): (next: State)
    ensures (next.pc.Erroring? || next.pc.NotingBlocked? || next.pc.NotingFallback?) && next.answer.None?
    ensures next.native == s.native && next.decision == Some(s.native.saw)
  {
    if s.native.saw || !config.hasFallback then End(Decide(s), Errored, Erroring) else FallBack(config, Decide(s))
  }

  predicate TurnOver(status: string) {
    status == "completed" || status == FAILED || status == "interrupted"
  }

  function TurnStarted(s: State, status: string): (next: State)
    ensures next.pc.AwaitingTurn? && next.decision == s.decision
    ensures next.native == s.native.(settled := next.native.settled) && next.answer.None?
  {
    GoTo(if TurnOver(status) then s.(native := Settle(s.native, status)) else s, AwaitingTurn)
  }

  function Resumed(config: Config, s: State): State {
    match s.pc
    case Starting => if !config.cliFound && !config.commandGiven then FallBack(config, Decide(s)) else GoTo(s, Opening)
    case Finished => s
    case AwaitingTurn =>
      if s.native.settled.None? then s
      else if s.native.settled.value == FAILED then Throw(config, s)
      else End(s, Completed(s.native.settled.value), Completing)
    case _ => if s.answer.None? then s else Answered(config, s, s.answer.value)
  }

  function Answered(config: Config, s: State, a: Answer): State
    requires IsRequest(s.pc) || IsCallback(s.pc)
  {
    match s.pc
    case Opening => if a.Failed? then Throw(config, s) else GoTo(Connect(s), Initializing)
    case Initializing => if a.Failed? then Throw(config, s) else GoTo(s, Threading)
    case Threading =>
      if a.Failed? || !(a.threadId || config.resumes) then Throw(config, s) else GoTo(KnowThread(s), Announcing)
    case Announcing =>
      if a.Failed? then Throw(config, s) else GoTo(s, if config.reviews then StartingReview else StartingTurn)
    case StartingReview => if a.Failed? then GoTo(s, StartingTurn) else TurnStarted(s, a.status)
    case StartingTurn => if a.Failed? then Throw(config, s) else TurnStarted(s, a.status)
    case Completing => if a.Failed? then Throw(config, s) else GoTo(s, Finished)
    case NotingBlocked => if a.Failed? then GoTo(s, Finished) else End(s, Errored, Erroring)
    case NotingFallback =>
      if a.Failed? then GoTo(s, Finished) else End(s, HandedOver(s.native.saw), Finished)
    case Erroring => GoTo(s, Finished)
  }

  function Connect(s: State): State {
    s.(native := s.native.(connected := true))
  }

  function KnowThread(s: State): State {
    s.(native := s.native.(thread := true))
  }

  // `cancelTask` finds the run from the opened connection to the end of the native task.
  predicate Registered(s: State) {
    s.native.connected && s.decision.None? && !s.pc.Finished?
  }

  function Do(config: Config, s: State, step: Step): State {
    match step
    case Resume => Resumed(config, s)
    case Answers(a) => if s.answer.None? && (IsRequest(s.pc) || IsCallback(s.pc)) then Reply(s, a) else s
    case Arrives(m) => if s.native.connected then s.(native := Hear(s.native, m)) else s
    case Handled(i) => if i < |s.native.queue| then s.(native := Handle(s.native, i)) else s
    case Exits => if s.native.connected && !s.native.exited then Exit(s) else s
    case Cancels => if Registered(s) && s.native.cancellation.NotAsked? then s.(native := Cancel(s.native)) else s
    case Interrupted =>
      if s.native.cancellation.Interrupting? then s.(native := s.native.(cancellation := Closed)) else s
  }

  // A process that is gone answers no request; the request times out.
  function Reply(s: State, a: Answer): State {
    var given := if IsRequest(s.pc) && s.native.exited then Failed else a;
    s.(answer := Some(given), callbackFailed := s.callbackFailed || (given.Failed? && IsCallback(s.pc)))
  }

  function Hear(n: Native, m: Message): Native {
    n.(saw := true, queue := n.queue + [m])
  }

  // The rest of `handleNotification`, once the raw event has been reported.
  function Handle(n: Native, i: nat): (next: Native)
    requires i < |n.queue|
    ensures next.saw == n.saw
  {
    var rest := n.(queue := n.queue[..i] + n.queue[i + 1..]);
    match n.queue[i]
    case ThreadStarted => rest.(thread := true)
    case TurnCompleted(status) => Settle(rest, status)
    case ErrorNotice => Settle(rest, FAILED)
    case OtherMessage => rest
  }

  // A process exits once, rejects the pending request and fails an unsettled turn.
  function Exit(s: State): State {
    s.(native := Settle(s.native, FAILED).(exited := true),
       answer := if IsRequest(s.pc) && s.answer.None? then Some(Failed) else s.answer)
  }

  function Cancel(n: Native): Native {
    n.(cancellation := if n.thread then Interrupting else Closed)
  }

  function After(config: Config, steps: seq<Step>): State {
    if steps == [] then Begin() else Do(config, After(config, steps[..|steps| - 1]), steps[|steps| - 1])
  }

  lemma AfterMore(config: Config, steps: seq<Step>, step: Step)
    ensures After(config, steps + [step]) == Do(config, After(config, steps), step)
  {
    hide Do;
    assert (steps + [step])[..|steps|] == steps;
  }

  // ----- the executor

  // What the outside does, by the number of the await it happens in: messages, handled messages,
  // exit and cancellation while it is pending, and how it ends if nothing of that ended it.
  datatype World = World(during: nat -> seq<Step>, answers: nat -> Answer)

  // Answers come from outside.
  ghost predicate Possible(world: World, step: Step) {
    step.Answers? ==> exists t :: world.answers(t) == step.answer
  }

  ghost predicate FromWorld(world: World, steps: seq<Step>) {
    forall j :: 0 <= j < |steps| ==> Possible(world, steps[j])
  }

  // How a part of the native task ends: normally, by throwing, or not at all.
  datatype Flow = Goes | Throws | Waits

  class CodexTask {
    const config: Config
    const world: World
    var awaits: nat
    var answer: Option<Answer>
    var connected: bool
    var exited: bool
    var thread: bool
    var cancellation: Cancellation
    var saw: bool
    var queue: seq<Message>
    var settled: Option<string>
    var outcomes: seq<Outcome>
    var pc: Pc // what is being awaited
    ghost var decision: Option<bool>
    ghost var callbackFailed: bool
    ghost var steps: seq<Step>

    constructor (config: Config, world: World)
      ensures Valid() && steps == [] && Now() == Begin()
    {
      this.config, this.world, awaits := config, world, 0;
      answer, connected, exited, thread, cancellation := None, false, false, false, NotAsked;
      saw, queue, settled, outcomes, pc := false, [], None, [], Starting;
      decision, callbackFailed, steps := None, false, [];
    }

    ghost function NativeNow(): Native
      reads this
    {
      Native(connected, exited, thread, cancellation, saw, queue, settled)
    }

    ghost function Now(): State
      reads this
    {
      State(pc, answer, NativeNow(), decision, callbackFailed, outcomes)
    }

    // The steps so far, as the machine takes them, lead here.
    ghost predicate Valid()
      reads this
    {
      Now() == After(config, steps) && FromWorld(world, steps)
    }

    ghost method Took(step: Step)
      requires Do(config, After(config, steps), step) == Now()
      requires FromWorld(world, steps) && Possible(world, step)
      modifies this`steps
      ensures Valid() && steps == old(steps) + [step]
    {
      hide After, Do;
      AfterMore(config, steps, step);
      steps := steps + [step];
    }

    method Moves(to: Pc)
      requires Resumed(config, After(config, steps)) == Now().(pc := to)
      requires FromWorld(world, steps)
      modifies this`steps, this`pc
      ensures Valid() && pc == to
    {
      hide After, Resumed;
      pc := to;
      Took(Resume);
    }

    method Complete(status: string)
      modifies this`settled
      ensures NativeNow() == Settle(old(NativeNow()), status)
    {
      if settled.None? {
        settled := Some(status);
      }
    }

    method OnNotification(m: Message)
      requires Valid() && connected
      modifies this`saw, this`queue, this`steps
      ensures Valid() && NativeNow() == Hear(old(NativeNow()), m)
    {
      hide After;
      saw := true;
      queue := queue + [m];
      Took(Arrives(m));
    }

    method OnHandled(i: nat)
      requires Valid() && i < |queue|
      modifies this`settled, this`queue, this`thread, this`steps
      ensures Valid() && NativeNow() == Handle(old(NativeNow()), i)
    {
      hide After, Settle;
      var m := queue[i];
      queue := queue[..i] + queue[i + 1..];
      match m {
        case ThreadStarted => thread := true;
        case TurnCompleted(status) => Complete(status);
        case ErrorNotice => Complete(FAILED);
        case OtherMessage =>
      }
      Took(Handled(i));
    }

    method OnExit()
      requires Valid() && connected && !exited
      modifies this`answer, this`settled, this`exited, this`steps
      ensures Valid() && Now() == Exit(old(Now())) && settled.Some?
    {
      hide After;
      if IsRequest(pc) && answer.None? {
        answer := Some(Failed);
      }
      Complete(FAILED);
      exited := true;
      Took(Exits);
    }

    // `cancelTask` up to its first await, and what follows the interrupt.
    method CancelTask()
      requires Valid() && Registered(Now()) && cancellation.NotAsked?
      modifies this`cancellation, this`steps
      ensures Valid() && NativeNow() == Cancel(old(NativeNow()))
    {
      hide After;
      cancellation := if thread then Interrupting else Closed;
      Took(Cancels);
    }

    method CloseInterrupted()
      requires Valid() && cancellation.Interrupting?
      modifies this`cancellation, this`steps
      ensures Valid() && cancellation == Closed
    {
      hide After;
      cancellation := Closed;
      Took(Interrupted);
    }

    // Something happens outside, if it can; `registered` is whether `runs` holds the task.
    method Occur(step: Step, registered: bool)
      requires Valid() && !step.Resume? && !step.Answers? && registered == Registered(Now())
      modifies this`answer, this`saw, this`queue, this`settled, this`thread, this`exited, this`cancellation, this`steps
      ensures Valid()
      ensures old(settled).Some? ==> settled == old(settled)
      ensures old(answer).Some? ==> answer == old(answer)
      ensures answer.Some? && old(answer).None? ==> IsRequest(pc)
    {
      hide After, Settle;
      match step {
        case Arrives(m) => if connected { OnNotification(m); }
        case Handled(i) => if i < |queue| { HandleSettles(NativeNow(), i); OnHandled(i); }
        case Exits => if connected && !exited { ExitSettles(Now()); OnExit(); }
        case Cancels => if registered && cancellation.NotAsked? { CancelTask(); }
        case Interrupted => if cancellation.Interrupting? { CloseInterrupted(); }
      }
    }

    method Outside(registered: bool)
      requires Valid() && registered == Registered(Now())
      modifies this`awaits, this`answer, this`saw, this`queue, this`settled, this`thread, this`exited,
        this`cancellation, this`steps
      ensures Valid()
      ensures old(settled).Some? ==> settled == old(settled)
      ensures old(answer).Some? ==> answer == old(answer)
      ensures answer.Some? && old(answer).None? ==> IsRequest(pc)
    {
      hide After;
      var happened := world.during(awaits);
      for i := 0 to |happened|
        invariant Valid() && registered == Registered(Now())
        invariant old(settled).Some? ==> settled == old(settled)
        invariant old(answer).Some? ==> answer == old(answer)
        invariant answer.Some? && old(answer).None? ==> IsRequest(pc)
      {
        if !happened[i].Resume? && !happened[i].Answers? {
          Occur(happened[i], registered);
        }
      }
      awaits := awaits + 1;
    }

    // One `await` of a request or a callback.
    method Await(registered: bool) returns (a: Answer)
      requires Valid() && answer.None? && (IsRequest(pc) || IsCallback(pc)) && registered == Registered(Now())
      modifies this`awaits, this`answer, this`saw, this`queue, this`settled, this`thread, this`exited,
               this`cancellation, this`callbackFailed, this`steps
      ensures Valid() && answer == Some(a)
    {
      hide After;
      Outside(registered);
      if answer.None? {
        Supply(world.answers(awaits));
      }
      a := answer.value;
    }

    method Supply(a: Answer)
      requires Valid() && answer.None? && (IsRequest(pc) || IsCallback(pc)) && exists t :: world.answers(t) == a
      modifies this`answer, this`callbackFailed, this`steps
      ensures Valid() && answer.Some?
    {
      hide After;
      answer := Some(if IsRequest(pc) && exited then Failed else a);
      callbackFailed := callbackFailed || (answer.value.Failed? && IsCallback(pc));
      Took(Answers(a));
    }

    // The answer is taken and the task goes on to what it awaits next.
    method Proceed(to: Pc)
      requires Resumed(config, After(config, steps)) == GoTo(Now(), to)
      requires FromWorld(world, steps)
      modifies this`answer, this`pc, this`steps
      ensures Valid() && answer.None? && pc == to
    {
      hide After, Resumed;
      answer := None;
      Moves(to);
    }

    method Report(outcome: Outcome, to: Pc)
      requires Resumed(config, After(config, steps)) == End(Now(), outcome, to)
      requires FromWorld(world, steps)
      modifies this`answer, this`outcomes, this`pc, this`steps
      ensures Valid() && answer.None? && pc == to
    {
      hide After, Resumed;
      outcomes := outcomes + [outcome];
      answer := None;
      Moves(to);
    }

    // The machine's next move is the `catch` block, or the fallback.
    ghost predicate Thrown()
      reads this
    {
      Resumed(config, After(config, steps)) == Throw(config, Now()) && FromWorld(world, steps)
    }

    ghost predicate FallingBack()
      reads this
    {
      Resumed(config, After(config, steps)) == FallBack(config, Now()) && FromWorld(world, steps)
    }

    // Awaiting something with nothing decided yet.
    ghost predicate At(to: Pc)
      reads this
    {
      Valid() && answer.None? && pc == to && connected && decision.None?
    }

    method Open() returns (flow: Flow)
      requires Valid() && Now() == Begin() && (config.cliFound || config.commandGiven)
      modifies this
      ensures flow.Throws? ==> Thrown()
      ensures !flow.Throws? ==> flow.Goes? && At(Initializing)
    {
      hide After, Do, Throw, FallBack, Resumed, Begin;
      var a := OpenConnection();
      OpeningResumes(config, Now(), a);
      if a.Failed? {
        return Throws;
      }
      connected := true;
      Proceed(Initializing);
      return Goes;
    }

    method OpenConnection() returns (a: Answer)
      requires Valid() && Now() == Begin() && (config.cliFound || config.commandGiven)
      modifies this
      ensures Valid() && pc.Opening? && answer == Some(a) && decision.None?
    {
      hide After, Do, Resumed;
      StartResumes(config);
      Proceed(Opening);
      a := Await(false);
    }

    method Initialize() returns (flow: Flow)
      requires At(Initializing)
      modifies this
      ensures flow.Throws? ==> Thrown()
      ensures !flow.Throws? ==> flow.Goes? && At(Threading)
    {
      hide After, Do, Throw, FallBack;
      var a := Await(true);
      if a.Failed? {
        return Throws;
      }
      Proceed(Threading);
      return Goes;
    }

    method OpenThread() returns (flow: Flow)
      requires At(Threading)
      modifies this
      ensures flow.Throws? ==> Thrown()
      ensures !flow.Throws? ==> flow.Goes? && At(Announcing)
    {
      hide After, Do, Throw, FallBack, Resumed;
      var a := Await(true);
      ThreadingResumes(config, Now(), a);
      if a.Failed? || !(a.threadId || config.resumes) {
        return Throws;
      }
      thread := true;
      Proceed(Announcing);
      return Goes;
    }

    method AnnounceThread() returns (flow: Flow)
      requires At(Announcing)
      modifies this
      ensures flow.Throws? ==> Thrown()
      ensures !flow.Throws? ==> flow.Goes? && At(if config.reviews then StartingReview else StartingTurn)
    {
      hide After, Do, Throw, FallBack;
      var a := Await(true);
      if a.Failed? {
        return Throws;
      }
      Proceed(if config.reviews then StartingReview else StartingTurn);
      return Goes;
    }

    method StartTurn() returns (flow: Flow)
      requires At(if config.reviews then StartingReview else StartingTurn)
      modifies this
      ensures flow.Throws? ==> Thrown()
      ensures !flow.Throws? ==> flow.Goes? && At(AwaitingTurn)
    {
      hide After, Do, Throw, FallBack, TurnOver, TurnStarted, Resumed;
      var a := Await(true);
      TurnResumes(config, Now(), a);
      if config.reviews && a.Failed? {
        Proceed(StartingTurn);
        a := Await(true);
        TurnResumes(config, Now(), a);
      }
      if a.Failed? {
        return Throws;
      }
      AwaitTurn(a.status);
      return Goes;
    }

    method AwaitTurn(status: string)
      requires Valid() && Resumed(config, Now()) == TurnStarted(Now(), status)
      modifies this`answer, this`settled, this`pc, this`steps
      ensures Valid() && answer.None? && pc == AwaitingTurn
    {
      hide After, Resumed, Settle, TurnOver;
      if TurnOver(status) {
        Complete(status);
      }
      Proceed(AwaitingTurn);
    }

    // A turn that nothing settles is awaited for ever.
    method FinishTurn() returns (flow: Flow)
      requires At(AwaitingTurn)
      modifies this
      ensures flow.Throws? ==> Thrown()
      ensures flow.Goes? ==> Valid() && pc.Finished?
      ensures flow.Waits? ==> Valid() && pc.AwaitingTurn? && settled.None?
    {
      hide After, Do, Throw, FallBack, Resumed;
      Outside(true);
      if settled.None? {
        return Waits;
      }
      TurnEnds(config, Now());
      if settled.value == FAILED {
        return Throws;
      }
      Report(Completed(settled.value), Completing);
      flow := ReportCompletion();
    }

    method ReportCompletion() returns (flow: Flow)
      requires At(Completing)
      modifies this
      ensures flow.Throws? ==> Thrown()
      ensures !flow.Throws? ==> flow.Goes? && Valid() && pc.Finished?
    {
      hide After, Do, Throw, FallBack;
      var a := Await(true);
      if a.Failed? {
        return Throws;
      }
      Proceed(Finished);
      return Goes;
    }

    method RunFallback()
      requires FallingBack() && decision.Some?
      modifies this
      ensures Valid() && pc.Finished?
    {
      hide After, Resumed;
      if config.bridgeRequired && !config.overrideOn {
        Proceed(NotingBlocked);
        NoteBlocked();
      } else if !config.hasFallback {
        ReportError();
      } else {
        Proceed(NotingFallback);
        HandOver();
      }
    }

    method NoteBlocked()
      requires Valid() && answer.None? && pc.NotingBlocked? && decision.Some?
      modifies this
      ensures Valid() && pc.Finished?
    {
      hide After, Do;
      var a := Await(false);
      if a.Failed? {
        Proceed(Finished);
      } else {
        ReportError();
      }
    }

    method HandOver()
      requires Valid() && answer.None? && pc.NotingFallback? && decision.Some?
      modifies this
      ensures Valid() && pc.Finished?
    {
      hide After, Do;
      var a := Await(false);
      if a.Failed? {
        Proceed(Finished);
      } else {
        Report(HandedOver(saw), Finished);
      }
    }

    method ReportError()
      requires Resumed(config, After(config, steps)) == End(Now(), Errored, Erroring) && decision.Some?
      requires FromWorld(world, steps)
      modifies this
      ensures Valid() && pc.Finished?
    {
      hide After, Do, Throw, FallBack;
      Report(Errored, Erroring);
      var _ := Await(false);
      Proceed(Finished);
    }

    // The steps the task took are a run of the machine, with the answers of the world, to its end or
    // to a turn that nothing settles.
    method StartTask()
      requires Valid() && steps == [] && Now() == Begin()
      modifies this
      ensures Valid() && (pc.Finished? || (pc.AwaitingTurn? && settled.None?))
    {
      hide After, Do, Throw, FallBack;
      if !config.cliFound && !config.commandGiven {
        decision := Some(saw);
        RunFallback();
        return;
      }
      var flow := StartNativeTask();
      if flow.Throws? {
        ThrowDecides(config, Now());
        decision := Some(saw);
        if saw || !config.hasFallback {
          ReportError();
        } else {
          RunFallback();
        }
      }
    }

    method StartNativeTask() returns (flow: Flow)
      requires Valid() && Now() == Begin() && (config.cliFound || config.commandGiven)
      modifies this
      ensures flow.Throws? ==> Thrown()
      ensures flow.Goes? ==> Valid() && pc.Finished?
      ensures flow.Waits? ==> Valid() && pc.AwaitingTurn? && settled.None?
    {
      hide After, Do, Throw, FallBack, Resumed, Begin;
      flow := Open();
      if flow.Goes? {
        flow := Initialize();
      }
      if flow.Goes? {
        flow := OpenThread();
      }
      if flow.Goes? {
        flow := AnnounceThread();
      }
      if flow.Goes? {
        flow := StartTurn();
      }
      if flow.Goes? {
        flow := FinishTurn();
      }
    }
  }

  lemma StartResumes(config: Config)
    requires config.cliFound || config.commandGiven
    ensures Resumed(config, Begin()) == GoTo(Begin(), Opening)
  {
  }

  lemma OpeningResumes(config: Config, s: State, a: Answer)
    requires s.pc.Opening? && s.answer == Some(a)
    ensures Resumed(config, s) == if a.Failed? then Throw(config, s) else GoTo(Connect(s), Initializing)
  {
    hide Throw, GoTo, Connect;
  }

  lemma ThreadingResumes(config: Config, s: State, a: Answer)
    requires s.pc.Threading? && s.answer == Some(a)
    ensures Resumed(config, s) ==
            if a.Failed? || !(a.threadId || config.resumes) then Throw(config, s) else GoTo(KnowThread(s), Announcing)
  {
    hide Throw, GoTo, KnowThread;
  }

  lemma TurnResumes(config: Config, s: State, a: Answer)
    requires (s.pc.StartingReview? || s.pc.StartingTurn?) && s.answer == Some(a)
    ensures Resumed(config, s) == if a.Ok? then TurnStarted(s, a.status)
                                  else if s.pc.StartingReview? then GoTo(s, StartingTurn) else Throw(config, s)
  {
    hide Throw, TurnStarted, GoTo;
  }

  lemma TurnEnds(config: Config, s: State)
    requires s.pc.AwaitingTurn? && s.native.settled.Some?
    ensures Resumed(config, s) == if s.native.settled.value == FAILED then Throw(config, s)
                                  else End(s, Completed(s.native.settled.value), Completing)
  {
    hide Throw, End;
  }

  lemma ThrowDecides(config: Config, s: State)
    ensures Throw(config, s) == if s.native.saw || !config.hasFallback then End(Decide(s), Errored, Erroring)
                                else FallBack(config, Decide(s))
  {
    hide End, FallBack, Decide;
  }

  lemma HandleSettles(n: Native, i: nat)
    requires i < |n.queue|
    ensures n.settled.Some? ==> Handle(n, i).settled == n.settled
  {
  }

  lemma ExitSettles(s: State)
    ensures s.native.settled.Some? ==> Exit(s).native.settled == s.native.settled
    ensures s.answer.Some? ==> Exit(s).answer == s.answer
  {
  }

  // ----- what every run keeps

  predicate MayFallBack(config: Config) {
    config.hasFallback && !Blocked(config)
  }

  // What has been decided ends in a handover.
  predicate ToFallback(config: Config, s: State) {
    s.decision == Some(false) && MayFallBack(config)
  }

  // As long as no callback of the task has failed: nothing has ended the task yet, or exactly
  // one thing has, the one the decision led to.
  predicate Orderly(config: Config, s: State) {
    match s.pc
    case Completing => |s.outcomes| == 1 && s.outcomes[0].Completed?
    case Erroring => |s.outcomes| == 1 && s.outcomes[0].Errored? && !ToFallback(config, s)
    case Finished =>
      && |s.outcomes| == 1
      && (s.outcomes[0].HandedOver? <==> ToFallback(config, s))
      && (s.outcomes[0].Completed? <==> s.decision.None?)
    case _ => s.outcomes == []
  }

  predicate Placed(config: Config, s: State) {
    match s.pc
    case Starting => !s.native.connected && s.decision.None?
    case Opening => !s.native.connected && s.decision.None?
    case NotingBlocked => s.decision == Some(false) && Blocked(config)
    case NotingFallback => ToFallback(config, s)
    case Erroring => s.decision.Some?
    case Finished => true
    case _ => s.native.connected && s.decision.None?
  }

  predicate SoundOutcome(config: Config, s: State, o: Outcome) {
    match o
    case Completed(status) => s.native.settled == Some(status) && status != FAILED
    case Errored => true
    case HandedOver(seenByNow) => ToFallback(config, s) && (seenByNow ==> s.native.saw)
  }

  predicate SoundOutcomes(config: Config, s: State) {
    forall i :: 0 <= i < |s.outcomes| ==> SoundOutcome(config, s, s.outcomes[i])
  }

  predicate SoundNative(n: Native) {
    (n.exited ==> n.connected && n.settled.Some?) && (n.saw ==> n.connected)
  }

  predicate Sound(config: Config, s: State) {
    && (s.callbackFailed || Orderly(config, s))
    && Placed(config, s)
    && SoundOutcomes(config, s)
    && SoundNative(s.native)
    && (s.answer == Some(Failed) && IsCallback(s.pc) ==> s.callbackFailed)
  }

  // What the outside does to a native task only adds to it.
  predicate Later(n: Native, later: Native) {
    && (n.connected ==> later.connected) && (n.saw ==> later.saw)
    && (n.settled.Some? ==> later.settled == n.settled)
  }

  lemma OutcomesKept(config: Config, s: State, after: State)
    requires SoundOutcomes(config, s) && after.outcomes == s.outcomes && Later(s.native, after.native)
    requires s.decision.Some? ==> after.decision == s.decision
    ensures SoundOutcomes(config, after)
  {
    forall i | 0 <= i < |after.outcomes|
      ensures SoundOutcome(config, after, after.outcomes[i])
    {
      assert SoundOutcome(config, s, s.outcomes[i]);
    }
  }

  lemma EndKeeps(config: Config, s: State, o: Outcome, pc: Pc)
    requires SoundOutcomes(config, s) && SoundOutcome(config, s, o)
    ensures SoundOutcomes(config, End(s, o, pc))
  {
    var after := End(s, o, pc);
    forall i | 0 <= i < |after.outcomes|
      ensures SoundOutcome(config, after, after.outcomes[i])
    {
      if i < |s.outcomes| {
        assert SoundOutcome(config, s, s.outcomes[i]);
      }
    }
  }

  lemma GoToSound(config: Config, s: State, pc: Pc)
    requires Sound(config, s) && Placed(config, s.(pc := pc)) && (s.callbackFailed || Orderly(config, s.(pc := pc)))
    ensures Sound(config, GoTo(s, pc))
  {
    hide SoundOutcomes;
    OutcomesKept(config, s, GoTo(s, pc));
  }

  // A decision has just been made, and nothing has ended the task.
  predicate Decided(config: Config, s: State) {
    && SoundOutcomes(config, s) && SoundNative(s.native) && (s.callbackFailed || s.outcomes == [])
    && s.decision == Some(s.native.saw)
  }

  lemma DecideDecides(config: Config, s: State)
    requires Sound(config, s) && s.decision.None? && (s.callbackFailed || s.outcomes == [])
    ensures Decided(config, Decide(s))
  {
    hide SoundOutcomes, SoundNative, Placed;
    OutcomesKept(config, s, Decide(s));
  }

  lemma ErroringSound(config: Config, s: State)
    requires Decided(config, s) && !ToFallback(config, s)
    ensures Sound(config, End(s, Errored, Erroring))
  {
    hide SoundOutcomes, SoundNative, ToFallback;
    EndKeeps(config, s, Errored, Erroring);
    SameDecision(config, s, Errored, Erroring);
  }

  lemma SameDecision(config: Config, s: State, o: Outcome, pc: Pc)
    ensures ToFallback(config, End(s, o, pc)) == ToFallback(config, s)
  {
  }

  lemma FallBackSound(config: Config, s: State)
    requires Decided(config, s) && !s.native.saw
    ensures Sound(config, FallBack(config, s))
  {
    hide SoundOutcomes, SoundNative;
    if MayFallBack(config) || Blocked(config) {
      OutcomesKept(config, s, FallBack(config, s));
    } else {
      ErroringSound(config, s);
    }
  }

  // Whatever threw, nothing had been decided before.
  lemma ThrowSound(config: Config, s: State)
    requires Sound(config, s) && s.decision.None? && (s.callbackFailed || s.outcomes == [])
    ensures Sound(config, Throw(config, s))
    ensures !s.native.saw ==> Sound(config, FallBack(config, Decide(s)))
  {
    hide Sound, FallBack, End, SoundOutcomes, SoundNative, Blocked;
    DecideDecides(config, s);
    if !s.native.saw {
      FallBackSound(config, Decide(s));
    }
    if s.native.saw || !config.hasFallback {
      ErroringSound(config, Decide(s));
    }
  }

  // More is known of the native task.
  lemma NativeSound(config: Config, s: State, n: Native)
    requires Sound(config, s) && Later(s.native, n) && SoundNative(n) && n.connected == s.native.connected
    ensures Sound(config, s.(native := n))
  {
    hide SoundOutcomes, Later;
    OutcomesKept(config, s, s.(native := n));
  }

  lemma OpenedSound(config: Config, s: State)
    requires Sound(config, s) && s.pc.Opening?
    ensures Sound(config, GoTo(Connect(s), Initializing))
  {
    hide SoundOutcomes;
    OutcomesKept(config, s, GoTo(Connect(s), Initializing));
  }

  lemma TurnStartedSound(config: Config, s: State, status: string)
    requires Sound(config, s) && (s.pc.StartingReview? || s.pc.StartingTurn?)
    ensures Sound(config, TurnStarted(s, status))
  {
    hide SoundOutcomes, TurnOver;
    NativeSound(config, s, Settle(s.native, status));
    GoToSound(config, s, AwaitingTurn);
    GoToSound(config, s.(native := Settle(s.native, status)), AwaitingTurn);
  }

  lemma ThreadSound(config: Config, s: State)
    requires Sound(config, s)
    ensures Sound(config, KnowThread(s))
  {
    hide SoundOutcomes;
    NativeSound(config, s, s.native.(thread := true));
  }

  lemma RequestSound(config: Config, s: State, a: Answer)
    requires Sound(config, s) && IsRequest(s.pc) && s.answer == Some(a)
    ensures Sound(config, Answered(config, s, a))
  {
    hide SoundOutcomes, Throw, FallBack, GoTo, TurnStarted, SoundNative;
    ThrowSound(config, s);
    match s.pc
    case Opening => OpenedSound(config, s);
    case Initializing => GoToSound(config, s, Threading);
    case Threading =>
      ThreadSound(config, s);
      GoToSound(config, KnowThread(s), Announcing);
    case StartingReview =>
      GoToSound(config, s, StartingTurn);
      if a.Ok? { TurnStartedSound(config, s, a.status); }
    case StartingTurn => if a.Ok? { TurnStartedSound(config, s, a.status); }
  }

  lemma CallbackSound(config: Config, s: State, a: Answer)
    requires Sound(config, s) && IsCallback(s.pc) && s.answer == Some(a)
    ensures Sound(config, Answered(config, s, a))
  {
    hide SoundOutcomes, Throw, FallBack, SoundNative;
    match s.pc
    case Announcing =>
      ThrowSound(config, s);
      GoToSound(config, s, if config.reviews then StartingReview else StartingTurn);
    case Completing => if a.Ok? { GoToSound(config, s, Finished); } else { ThrowSound(config, s); }
    case Erroring => GoToSound(config, s, Finished);
    case NotingBlocked => if a.Ok? { EndKeeps(config, s, Errored, Erroring); } else { GoToSound(config, s, Finished); }
    case NotingFallback =>
      if a.Ok? { EndKeeps(config, s, HandedOver(s.native.saw), Finished); } else { GoToSound(config, s, Finished); }
  }

  lemma {:induction false} ResumedSound(config: Config, s: State)
    requires Sound(config, s)
    ensures Sound(config, Resumed(config, s))
  {
    hide SoundOutcomes, Throw, FallBack, Answered, SoundNative;
    if s.pc.Starting? {
      StartingUnseen(config, s);
      ThrowSound(config, s);
      GoToSound(config, s, Opening);
    } else if s.pc.AwaitingTurn? && s.native.settled.Some? {
      ThrowSound(config, s);
      if s.native.settled.value != FAILED {
        EndKeeps(config, s, Completed(s.native.settled.value), Completing);
      }
    } else if IsRequest(s.pc) && s.answer.Some? {
      RequestSound(config, s, s.answer.value);
    } else if IsCallback(s.pc) && s.answer.Some? {
      CallbackSound(config, s, s.answer.value);
    }
  }

  lemma StartingUnseen(config: Config, s: State)
    requires Sound(config, s) && s.pc.Starting?
    ensures !s.native.saw
  {
    hide SoundOutcomes;
  }

  lemma ReplySound(config: Config, s: State, a: Answer)
    requires Sound(config, s)
    ensures Sound(config, Reply(s, a))
  {
    hide SoundOutcomes, SoundNative;
    OutcomesKept(config, s, Reply(s, a));
  }

  lemma ExitSound(config: Config, s: State)
    requires Sound(config, s) && s.native.connected
    ensures Sound(config, Exit(s))
  {
    hide SoundOutcomes, Orderly, Placed;
    NativeSound(config, s, Exit(s).native);
    var after := s.(native := Exit(s).native);
    OutcomesKept(config, after, Exit(s));
    assert Orderly(config, after) == Orderly(config, Exit(s)) by { ByPc(config, after, Exit(s)); }
    assert Placed(config, after) == Placed(config, Exit(s)) by { ByPc(config, after, Exit(s)); }
  }

  lemma ByPc(config: Config, s: State, after: State)
    requires after == s.(answer := after.answer)
    ensures Orderly(config, s) == Orderly(config, after) && Placed(config, s) == Placed(config, after)
  {
  }

  lemma HandleLater(n: Native, i: nat)
    requires i < |n.queue| && SoundNative(n)
    ensures Later(n, Handle(n, i)) && SoundNative(Handle(n, i)) && Handle(n, i).connected == n.connected
  {
  }

  lemma {:induction false} DoSound(config: Config, s: State, step: Step)
    requires Sound(config, s)
    ensures Sound(config, Do(config, s, step))
  {
    hide Sound, Resumed, Reply, Exit, Handle, Registered;
    NativeIsSound(config, s);
    match step
    case Resume => ResumedSound(config, s);
    case Answers(a) => ReplySound(config, s, a);
    case Arrives(m) => if s.native.connected { NativeSound(config, s, Hear(s.native, m)); }
    case Handled(i) =>
      if i < |s.native.queue| {
        HandleLater(s.native, i);
        NativeSound(config, s, Handle(s.native, i));
      }
    case Exits => if s.native.connected { ExitSound(config, s); }
    case Cancels => NativeSound(config, s, Cancel(s.native));
    case Interrupted => NativeSound(config, s, s.native.(cancellation := Closed));
  }

  lemma NativeIsSound(config: Config, s: State)
    requires Sound(config, s)
    ensures SoundNative(s.native)
  {
    hide SoundOutcomes, Orderly, Placed, SoundNative;
  }

  lemma {:induction false} RunSound(config: Config, steps: seq<Step>)
    ensures Sound(config, After(config, steps))
  {
    hide Do;
    if steps == [] {
      assert After(config, steps) == Begin();
    } else {
      hide Sound;
      RunSound(config, steps[..|steps| - 1]);
      DoSound(config, After(config, steps[..|steps| - 1]), steps[|steps| - 1]);
    }
  }

  // ----- the promises

  // For every order of messages, answers, exit and cancellation: if no callback fails, a task
  // that has finished has ended in exactly one way, and an unfinished one in at most one.
  lemma {:induction false} OneOutcome(config: Config, steps: seq<Step>)
    requires !After(config, steps).callbackFailed
    ensures |After(config, steps).outcomes| <= 1
    ensures After(config, steps).pc.Finished? ==> |After(config, steps).outcomes| == 1
  {
    hide After;
    RunSound(config, steps);
  }

  // A task is reported complete only with the status its turn settled on first, never `failed`.
  lemma {:induction false} CompletedMeansSettled(config: Config, steps: seq<Step>)
    ensures var s := After(config, steps);
            forall i :: 0 <= i < |s.outcomes| && s.outcomes[i].Completed? ==>
              s.native.settled == Some(s.outcomes[i].status) && s.outcomes[i].status != FAILED
  {
    hide After, Orderly, Placed;
    RunSound(config, steps);
    var s := After(config, steps);
    forall i | 0 <= i < |s.outcomes| && s.outcomes[i].Completed?
      ensures s.native.settled == Some(s.outcomes[i].status) && s.outcomes[i].status != FAILED
    {
      assert SoundOutcome(config, s, s.outcomes[i]);
    }
  }

  // A native message reaches the task at this step.
  predicate ArrivesAt(config: Config, steps: seq<Step>, k: int) {
    0 <= k < |steps| && steps[k].Arrives? && After(config, steps[..k]).native.connected
  }

  // ... before step n.
  predicate ArrivedBefore(config: Config, steps: seq<Step>, n: int) {
    exists k :: 0 <= k < n && ArrivesAt(config, steps, k)
  }

  // The native task fails, or cannot start, at this step; it is decided how to go on.
  predicate DecidesAt(config: Config, steps: seq<Step>, d: int) {
    && 0 <= d < |steps|
    && After(config, steps[..d]).decision.None? && After(config, steps[..d + 1]).decision.Some?
  }

  lemma OneStep(config: Config, steps: seq<Step>, k: int)
    requires 0 <= k < |steps|
    ensures After(config, steps[..k + 1]) == Do(config, After(config, steps[..k]), steps[k])
  {
    hide After, Do;
    assert steps[..k + 1] == steps[..k] + [steps[k]];
    AfterMore(config, steps[..k], steps[k]);
  }

  // One step hears of a message exactly if one reaches the task, and decides at most once.
  lemma StepHears(config: Config, s: State, step: Step)
    ensures Do(config, s, step).native.saw <==> s.native.saw || (step.Arrives? && s.native.connected)
  {
    hide Resumed, Registered, Handle;
    if step.Resume? {
      ResumeHears(config, s);
    }
  }

  lemma ResumeHears(config: Config, s: State)
    ensures Resumed(config, s).native.saw == s.native.saw
  {
    hide TurnStarted, FallBack, Throw, GoTo, End;
  }

  lemma StepDecides(config: Config, s: State, step: Step)
    requires Sound(config, s)
    ensures s.decision.Some? ==> Do(config, s, step).decision == s.decision
    ensures s.decision.None? && Do(config, s, step).decision.Some? ==>
              step.Resume? && Do(config, s, step).decision == Some(s.native.saw)
  {
    hide Orderly, SoundOutcomes, SoundNative, Registered;
    if step.Resume? {
      ResumeDecides(config, s);
    }
  }

  lemma ResumeDecides(config: Config, s: State)
    requires Placed(config, s)
    ensures s.decision.Some? ==> Resumed(config, s).decision == s.decision
    ensures s.decision.None? && Resumed(config, s).decision.Some? ==> Resumed(config, s).decision == Some(s.native.saw)
  {
    hide TurnStarted, FallBack, Throw, GoTo, End;
  }

  lemma {:induction false} SawMeansArrived(config: Config, steps: seq<Step>, n: nat)
    requires n <= |steps|
    ensures After(config, steps[..n]).native.saw <==> ArrivedBefore(config, steps, n)
  {
    hide Do, ArrivedBefore;
    if n == 0 {
      NothingArrivedYet(config, steps);
    } else {
      SawMeansArrived(config, steps, n - 1);
      OneStep(config, steps, n - 1);
      StepHears(config, After(config, steps[..n - 1]), steps[n - 1]);
      ArrivedMore(config, steps, n);
    }
  }

  lemma NothingArrivedYet(config: Config, steps: seq<Step>)
    ensures !ArrivedBefore(config, steps, 0)
  {
  }

  lemma ArrivedMore(config: Config, steps: seq<Step>, n: nat)
    requires 0 < n
    ensures ArrivedBefore(config, steps, n) <==> ArrivedBefore(config, steps, n - 1) || ArrivesAt(config, steps, n - 1)
  {
    hide ArrivesAt;
    if ArrivedBefore(config, steps, n) && !ArrivesAt(config, steps, n - 1) {
      var k :| 0 <= k < n && ArrivesAt(config, steps, k);
      assert k < n - 1;
    }
  }

  lemma {:induction false} DecisionStays(config: Config, steps: seq<Step>, m: nat, n: nat)
    requires m <= n <= |steps| && After(config, steps[..m]).decision.Some?
    ensures After(config, steps[..n]).decision == After(config, steps[..m]).decision
  {
    hide Do, After;
    if m < n {
      DecisionStays(config, steps, m, n - 1);
      OneStep(config, steps, n - 1);
      RunSound(config, steps[..n - 1]);
      StepDecides(config, After(config, steps[..n - 1]), steps[n - 1]);
    }
  }

  lemma {:induction false} DecisionMade(config: Config, steps: seq<Step>, n: nat) returns (d: nat)
    requires n <= |steps| && After(config, steps[..n]).decision.Some?
    ensures d < n && DecidesAt(config, steps, d)
  {
    hide Do;
    if After(config, steps[..n - 1]).decision.Some? {
      d := DecisionMade(config, steps, n - 1);
    } else {
      d := n - 1;
    }
  }

  // What is decided rests on the messages before the decision.
  lemma DecisionSeen(config: Config, steps: seq<Step>, d: int, n: nat)
    requires DecidesAt(config, steps, d) && d < n <= |steps|
    ensures steps[d].Resume?
    ensures After(config, steps[..n]).decision == Some(ArrivedBefore(config, steps, d))
  {
    hide Do, After;
    OneStep(config, steps, d);
    RunSound(config, steps[..d]);
    StepDecides(config, After(config, steps[..d]), steps[d]);
    SawMeansArrived(config, steps, d);
    DecisionStays(config, steps, d + 1, n);
  }

  predicate EndsInHandover(s: State) {
    |s.outcomes| == 1 && s.outcomes[0].HandedOver?
  }

  // It is decided to fall back, before any native message has come.
  ghost predicate DecidesUnseen(config: Config, steps: seq<Step>, d: int) {
    DecidesAt(config, steps, d) && !ArrivedBefore(config, steps, d)
  }

  // Over whole runs: a finished task is handed over to the fallback if and only if a fallback
  // may run and the native task failed, or could not start, before any native message came.
  lemma HandoverExactly(config: Config, steps: seq<Step>)
    requires After(config, steps).pc.Finished? && !After(config, steps).callbackFailed
    ensures EndsInHandover(After(config, steps)) <==> MayFallBack(config) && exists d :: DecidesUnseen(config, steps, d)
  {
    hide Do, After, ArrivedBefore;
    RunSound(config, steps);
    assert steps[..|steps|] == steps;
    if After(config, steps).decision.Some? {
      var d := DecisionMade(config, steps, |steps|);
      DecisionSeen(config, steps, d, |steps|);
      assert !ArrivedBefore(config, steps, d) ==> DecidesUnseen(config, steps, d);
    }
    if d :| DecidesUnseen(config, steps, d) {
      DecisionSeen(config, steps, d, |steps|);
    }
  }

  // A cancellation takes effect at this step: the task is not over and nothing is decided.
  predicate CancelledAt(config: Config, steps: seq<Step>, c: int) {
    && 0 <= c < |steps| && steps[c].Cancels?
    && Registered(After(config, steps[..c])) && After(config, steps[..c]).native.cancellation.NotAsked?
  }

  // A cancelled task is interrupted or its connection closed. It is nevertheless handed over to
  // the fallback if and only if a fallback may run and the task fails after the cancellation
  // without any native message before that.
  lemma CancelledTaskHandedOver(config: Config, steps: seq<Step>, c: int)
    requires CancelledAt(config, steps, c)
    requires After(config, steps).pc.Finished? && !After(config, steps).callbackFailed
    ensures EndsInHandover(After(config, steps)) <==>
            MayFallBack(config) && exists d :: c < d && DecidesUnseen(config, steps, d)
    ensures After(config, steps[..c + 1]).native.cancellation ==
            if After(config, steps[..c]).native.thread then Interrupting else Closed
  {
    hide After, ArrivedBefore, DecidesUnseen;
    OneStep(config, steps, c);
    HandoverExactly(config, steps);
    if d :| DecidesUnseen(config, steps, d) {
      NotDecidedBefore(config, steps, c, d);
    }
  }

  lemma NotDecidedBefore(config: Config, steps: seq<Step>, c: int, d: int)
    requires CancelledAt(config, steps, c) && DecidesUnseen(config, steps, d)
    ensures c < d
  {
    hide After, ArrivedBefore, Do;
    if d < c {
      DecisionStays(config, steps, d + 1, c);
    }
    DecisionSeen(config, steps, d, |steps|);
  }

  // The fallback is started at this step, with or without a native message by then.
  predicate HandsOverAt(config: Config, steps: seq<Step>, h: int, seenByNow: bool) {
    && 0 <= h < |steps|
    && After(config, steps[..h]).pc.NotingFallback?
    && After(config, steps[..h + 1]).outcomes == After(config, steps[..h]).outcomes + [HandedOver(seenByNow)]
  }

  // The fallback gets a task only if there is one, it is not held back for want of an approval
  // bridge, and no native message came before this was decided; when it starts, one has come
  // if and only if it came while the fallback was being announced. Callbacks may fail.
  lemma HandoverAllowed(config: Config, steps: seq<Step>, h: int, seenByNow: bool) returns (d: int)
    requires HandsOverAt(config, steps, h, seenByNow)
    ensures config.hasFallback && (config.bridgeRequired ==> config.overrideOn)
    ensures d < h && DecidesUnseen(config, steps, d)
    ensures seenByNow <==> exists k :: d < k < h && ArrivesAt(config, steps, k)
  {
    hide After, Do, DecidesAt, ArrivesAt;
    RunSound(config, steps[..h]);
    d := DecisionMade(config, steps, h);
    DecisionSeen(config, steps, d, h);
    OneStep(config, steps, h);
    NotedSeen(config, After(config, steps[..h]), steps[h], seenByNow);
    SawMeansArrived(config, steps, h);
    if seenByNow {
      var k :| 0 <= k < h && ArrivesAt(config, steps, k);
      ArrivalIsNotDecision(config, steps, k, d);
      assert d < k < h;
    }
  }

  lemma ArrivalIsNotDecision(config: Config, steps: seq<Step>, k: int, d: int)
    requires ArrivesAt(config, steps, k) && 0 <= d < |steps| && steps[d].Resume? && !ArrivedBefore(config, steps, d)
    ensures d < k
  {
    hide After;
  }

  lemma NotedSeen(config: Config, s: State, step: Step, seenByNow: bool)
    requires s.pc.NotingFallback? && Do(config, s, step).outcomes == s.outcomes + [HandedOver(seenByNow)]
    ensures seenByNow == s.native.saw
  {
    hide Registered, Settle;
    assert (s.outcomes + [HandedOver(seenByNow)])[|s.outcomes|] == HandedOver(seenByNow);
    assert |Do(config, s, step).outcomes| == |s.outcomes| + 1;
    assert step.Resume?;
  }

  // ----- every task can be brought to an end

  // How far a task is from its end once the process is gone.
  function Distance(pc: Pc): nat {
    match pc
    case Starting => 11
    case Opening => 10
    case Initializing => 9
    case Threading => 8
    case Announcing => 7
    case StartingReview => 6
    case StartingTurn => 5
    case AwaitingTurn => 4
    case Completing => 3
    case NotingBlocked => 2
    case NotingFallback => 2
    case Erroring => 1
    case Finished => 0
  }

  // What is pending ends, one way or another, and the task moves on; once per answer.
  function Winding(answers: seq<Answer>): seq<Step> {
    if answers == [] then [] else [Answers(answers[0]), Resume] + Winding(answers[1..])
  }

  function Wind(config: Config, s: State, a: Answer): State {
    Resumed(config, Do(config, s, Answers(a)))
  }

  lemma AnsweredCloser(config: Config, s: State, a: Answer)
    requires IsRequest(s.pc) || IsCallback(s.pc)
    ensures Answered(config, s, a).pc.Finished? || Distance(Answered(config, s, a).pc) < Distance(s.pc)
  {
    hide Throw, FallBack, TurnStarted, GoTo, End, Connect, KnowThread;
  }

  // Every winding brings the task closer to its end, unless it awaits a turn that is not settled.
  lemma {:induction false} WindsCloser(config: Config, s: State, a: Answer)
    requires s.pc.AwaitingTurn? ==> s.native.settled.Some?
    ensures Wind(config, s, a).pc.Finished? || Distance(Wind(config, s, a).pc) < Distance(s.pc)
  {
    hide Throw, FallBack, Answered, GoTo, End;
    if IsRequest(s.pc) || IsCallback(s.pc) {
      var answered := Do(config, s, Answers(a));
      AnsweredCloser(config, answered, answered.answer.value);
    }
  }

  // Nothing to await for ever: the app server is gone, or the native task is over.
  predicate Ending(s: State) {
    s.native.exited || s.decision.Some? || s.pc.Finished?
  }

  lemma EndingSettled(config: Config, s: State)
    requires Sound(config, s) && Ending(s)
    ensures s.pc.AwaitingTurn? ==> s.native.settled.Some?
  {
    hide Orderly, SoundOutcomes;
  }

  lemma WindKeepsEnding(config: Config, s: State, a: Answer)
    requires Sound(config, s) && Ending(s)
    ensures Ending(Wind(config, s, a))
  {
    hide Sound, Resumed;
    var answered := Do(config, s, Answers(a));
    DoSound(config, s, Answers(a));
    assert answered.native == s.native && answered.decision == s.decision && answered.pc == s.pc;
    ResumeKeepsEnding(config, answered);
  }

  lemma ResumeKeepsEnding(config: Config, s: State)
    requires Sound(config, s) && Ending(s)
    ensures Ending(Resumed(config, s))
  {
    hide Orderly, SoundOutcomes, SoundNative, Resumed;
    ResumeDecides(config, s);
    ResumeHears(config, s);
    ResumeKeepsExit(config, s);
  }

  lemma ResumeKeepsExit(config: Config, s: State)
    ensures Resumed(config, s).native.exited == s.native.exited
    ensures s.pc.Finished? ==> Resumed(config, s) == s
  {
    hide TurnStarted, FallBack, Throw, GoTo, End;
  }

  lemma {:induction false} WindsDown(config: Config, steps: seq<Step>, answers: seq<Answer>)
    requires Ending(After(config, steps)) && Distance(After(config, steps).pc) <= |answers|
    ensures After(config, steps + Winding(answers)).pc.Finished?
    decreases |answers|
  {
    hide Do, After, Resumed, Ending;
    if answers == [] {
      assert steps + [] == steps;
    } else {
      var (s, a) := (After(config, steps), answers[0]);
      RunSound(config, steps);
      EndingSettled(config, s);
      WindsCloser(config, s, a);
      WindKeepsEnding(config, s, a);
      Wound(config, steps, a);
      var more := steps + [Answers(a), Resume];
      assert steps + Winding(answers) == more + Winding(answers[1..]);
      WindsDown(config, more, answers[1..]);
    }
  }

  lemma Wound(config: Config, steps: seq<Step>, a: Answer)
    ensures After(config, steps + [Answers(a), Resume]) == Wind(config, After(config, steps), a)
  {
    hide After, Resumed;
    AfterMore(config, steps, Answers(a));
    AfterMore(config, steps + [Answers(a)], Resume);
    assert steps + [Answers(a), Resume] == steps + [Answers(a)] + [Resume];
  }

  lemma {:induction false} WindLeaves(config: Config, s: State, a: Answer)
    ensures !Wind(config, s, a).pc.Starting?
    ensures Wind(config, s, a).pc.Opening? ==> s.pc.Starting?
  {
    hide Throw, FallBack, GoTo, End, TurnStarted, Connect, KnowThread;
  }

  // Whatever has happened: let the task get past opening its connection, let the app server be
  // gone, once, and whatever ends what is still pending, the task ends.
  lemma NeverStuck(config: Config, steps: seq<Step>, first: seq<Answer>, answers: seq<Answer>)
    requires |first| == 2 && |answers| == 11
    ensures After(config, steps + Winding(first) + [Exits] + Winding(answers)).pc.Finished?
  {
    hide After, Do, Resumed, Winding, Wind;
    var past := steps + [Answers(first[0]), Resume] + [Answers(first[1]), Resume];
    Wound(config, steps, first[0]);
    Wound(config, steps + [Answers(first[0]), Resume], first[1]);
    WindLeaves(config, After(config, steps), first[0]);
    WindLeaves(config, Wind(config, After(config, steps), first[0]), first[1]);
    TwoWindings(first);
    assert steps + Winding(first) == past;
    RunSound(config, past);
    ExitEnds(config, After(config, past));
    AfterMore(config, past, Exits);
    DistanceBounded(After(config, past + [Exits]).pc);
    WindsDown(config, past + [Exits], answers);
  }

  lemma TwoWindings(first: seq<Answer>)
    requires |first| == 2
    ensures Winding(first) == [Answers(first[0]), Resume] + [Answers(first[1]), Resume]
  {
    var rest := first[1..];
    assert rest[1..] == [];
    assert Winding(rest) == [Answers(rest[0]), Resume] + Winding([]);
  }

  lemma DistanceBounded(pc: Pc)
    ensures Distance(pc) <= 11
  {
  }

  lemma ExitEnds(config: Config, s: State)
    requires Sound(config, s) && !s.pc.Starting? && !s.pc.Opening?
    ensures Ending(Do(config, s, Exits))
  {
    hide Orderly, SoundOutcomes, SoundNative;
  }

  // ----- two runs that one may not expect

  const RETURNED := Ok(false, "")

  function Reaching(pc: Pc, answer: Option<Answer>, native: Native, decision: Option<bool>): State {
    State(pc, answer, native, decision, false, [])
  }

  const CONNECTED := Native(true, false, false, NotAsked, false, [], None)

  // A task that waits for the app server is handed over, when the app server goes away and the
  // fallback has been announced, if and only if a fallback may run and no message came,
  // whether it was cancelled or not.
  lemma ExitHandsOver(config: Config, s: State)
    requires s.native.connected && !s.native.exited && s.decision.None? && s.outcomes == []
    requires (IsRequest(s.pc) && s.answer.None? && !s.pc.StartingReview?) ||
             (s.pc.AwaitingTurn? && s.native.settled.None?)
    ensures var thrown := Do(config, Do(config, s, Exits), Resume);
            var after := Do(config, Do(config, thrown, Answers(RETURNED)), Resume);
            EndsInHandover(after) <==> !s.native.saw && MayFallBack(config)
  {
    hide Throw, FallBack, Do;
    var exited := Exit(s);
    assert Do(config, s, Exits) == exited by { ExitStep(config, s); }
    assert Resumed(config, exited) == Throw(config, exited);
    ResumeStep(config, exited);
    ThrownHandsOver(config, exited);
  }

  lemma ExitStep(config: Config, s: State)
    requires s.native.connected && !s.native.exited
    ensures Do(config, s, Exits) == Exit(s)
  {
    hide Exit;
  }

  lemma ResumeStep(config: Config, s: State)
    ensures Do(config, s, Resume) == Resumed(config, s)
  {
    hide Resumed;
  }

  lemma ThrownHandsOver(config: Config, s: State)
    requires s.outcomes == []
    ensures var thrown := Throw(config, s);
            EndsInHandover(Do(config, Do(config, thrown, Answers(RETURNED)), Resume)) <==>
              !s.native.saw && MayFallBack(config)
  {
  }

  lemma ReachesInitializing(config: Config) returns (steps: seq<Step>)
    requires config.cliFound || config.commandGiven
    ensures steps == [Resume, Answers(RETURNED), Resume]
    ensures After(config, steps) == Reaching(Initializing, None, CONNECTED, None)
  {
    hide After, Do;
    steps := [];
    AfterMore(config, steps, Resume);
    steps := steps + [Resume];
    NothingAfter(config);
    AfterMore(config, steps, Answers(RETURNED));
    steps := steps + [Answers(RETURNED)];
    AfterMore(config, steps, Resume);
    steps := steps + [Resume];
    OpensAndConnects(config);
  }

  lemma OpensAndConnects(config: Config)
    requires config.cliFound || config.commandGiven
    ensures Do(config, Do(config, Do(config, Begin(), Resume), Answers(RETURNED)), Resume) ==
            Reaching(Initializing, None, CONNECTED, None)
  {
  }

  lemma NothingAfter(config: Config)
    ensures After(config, []) == Begin()
  {
  }

  // A task is cancelled while it waits for the app server to initialize, the app server exits,
  // and the fallback starts the task again.
  lemma CancelledAndRestarted(config: Config) returns (steps: seq<Step>)
    requires MayFallBack(config) && (config.cliFound || config.commandGiven)
    ensures CancelledAt(config, steps, 3)
    ensures After(config, steps).outcomes == [HandedOver(false)]
  {
    hide After, Do;
    var start := ReachesInitializing(config);
    InitializingCancelled(config);
    AfterMore(config, start, Cancels);
    var cancelled := start + [Cancels];
    AfterMore(config, cancelled, Exits);
    AfterMore(config, cancelled + [Exits], Resume);
    AfterMore(config, cancelled + [Exits] + [Resume], Answers(RETURNED));
    AfterMore(config, cancelled + [Exits] + [Resume] + [Answers(RETURNED)], Resume);
    steps := cancelled + [Exits] + [Resume] + [Answers(RETURNED)] + [Resume];
    assert steps[..3] == start;
  }

  lemma InitializingCancelled(config: Config)
    requires MayFallBack(config)
    ensures var s := Reaching(Initializing, None, CONNECTED, None);
            var lost := Do(config, Do(config, s, Cancels), Exits);
            Do(config, Do(config, Do(config, lost, Resume), Answers(RETURNED)), Resume).outcomes == [HandedOver(false)]
  {
    var s := Reaching(Initializing, None, CONNECTED, None);
    var gone := Native(true, true, false, Closed, false, [], Some(FAILED));
    assert Do(config, Do(config, s, Cancels), Exits) == Reaching(Initializing, Some(Failed), gone, None);
    AnnouncedAndStarted(config, Reaching(Initializing, Some(Failed), gone, None));
  }

  lemma AnnouncedAndStarted(config: Config, s: State)
    requires MayFallBack(config) && s == Reaching(Initializing, Some(Failed), s.native, None) && !s.native.saw
    ensures Do(config, s, Resume) == Reaching(NotingFallback, None, s.native, Some(false))
    ensures Do(config, Do(config, Do(config, s, Resume), Answers(RETURNED)), Resume).outcomes == [HandedOver(false)]
  {
    assert Do(config, s, Resume) == Reaching(NotingFallback, None, s.native, Some(false));
  }

  // Initializing times out, and the first native message comes while the fallback is announced.
  lemma MessageAfterDecision(config: Config) returns (steps: seq<Step>)
    requires MayFallBack(config) && (config.cliFound || config.commandGiven)
    ensures After(config, steps).outcomes == [HandedOver(true)]
  {
    hide After, Do;
    var start := ReachesInitializing(config);
    InitializingTimedOut(config);
    AfterMore(config, start, Answers(Failed));
    AfterMore(config, start + [Answers(Failed)], Resume);
    var decided := start + [Answers(Failed)] + [Resume];
    AfterMore(config, decided, Arrives(OtherMessage));
    AfterMore(config, decided + [Arrives(OtherMessage)], Answers(RETURNED));
    AfterMore(config, decided + [Arrives(OtherMessage)] + [Answers(RETURNED)], Resume);
    steps := decided + [Arrives(OtherMessage)] + [Answers(RETURNED)] + [Resume];
  }

  lemma InitializingTimedOut(config: Config)
    requires MayFallBack(config)
    ensures var failed := Do(config, Reaching(Initializing, None, CONNECTED, None), Answers(Failed));
            var decided := Do(config, failed, Resume);
            var heard := Do(config, decided, Arrives(OtherMessage));
            Do(config, Do(config, heard, Answers(RETURNED)), Resume).outcomes == [HandedOver(true)]
  {
    var s := Reaching(Initializing, Some(Failed), CONNECTED, None);
    assert Do(config, Reaching(Initializing, None, CONNECTED, None), Answers(Failed)) == s;
    AnnouncedAndStarted(config, s);
    HeardAndStarted(config, Reaching(NotingFallback, None, CONNECTED, Some(false)));
  }

  lemma HeardAndStarted(config: Config, s: State)
    requires s.pc.NotingFallback? && s.answer.None? && s.native.connected && s.outcomes == []
    ensures var heard := Do(config, s, Arrives(OtherMessage));
            Do(config, Do(config, heard, Answers(RETURNED)), Resume).outcomes == [HandedOver(true)]
  {
  }
}
