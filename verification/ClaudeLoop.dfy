/** The tool loop of packages/executors/src/claude-executor.ts.

    Everything outside the executor is a `World`: what the model answers, what the user decides,
    what a tool returns, which calls fail and, for every `await`, whether a cancellation arrives
    while it is pending. Quantifying over worlds covers every timing.

    A run leaves a trace of actions. `Allowed` is the protocol: which action may follow which
    history. The executor, in class `ClaudeTask`, follows the protocol in every world; the
    lemmas say what holds of every trace that follows it. */
module ClaudeLoop {
  import opened Options
  import opened Text

  // ----- risk

  datatype Level = Low | Medium | High | Critical

  function Weight(level: Level): nat {
    match level case Low => 0 case Medium => 1 case High => 2 case Critical => 3
  }

  // The pattern tables and path tests; a path is tested as resolved against the work directory.
  datatype Rules = Rules(critical: string -> bool, high: string -> bool, medium: string -> bool,
                         outside: string -> bool, sensitive: string -> bool)

  datatype Assessment = Assessment(level: Level, requiresApproval: bool)

  function CommandRisk(rules: Rules, command: string): Assessment {
    if rules.critical(command) then Assessment(Critical, true)
    else if rules.high(command) then Assessment(High, true)
    else if rules.medium(command) then Assessment(Medium, true)
    else Assessment(Low, false)
  }

  function PathRisk(rules: Rules, path: string): Assessment {
    if rules.outside(path) then Assessment(Critical, true)
    else if rules.sensitive(path) then Assessment(High, true)
    else Assessment(Low, false)
  }

  datatype Description = Description(commandPreview: Option<string>, targetPaths: seq<string>)

  predicate HasCommand(d: Description) {
    d.commandPreview.Some? && d.commandPreview.value != ""
  }

  // Some pattern or path test objects.
  predicate Risky(rules: Rules, d: Description) {
    || (HasCommand(d) && CommandRisk(rules, d.commandPreview.value).requiresApproval)
    || exists i :: 0 <= i < |d.targetPaths| && PathRisk(rules, d.targetPaths[i]).requiresApproval
  }

  // The assessments behind a description.
  predicate AssessedAs(rules: Rules, d: Description, level: Level) {
    || (HasCommand(d) && level == CommandRisk(rules, d.commandPreview.value).level)
    || exists i :: 0 <= i < |d.targetPaths| && level == PathRisk(rules, d.targetPaths[i]).level
  }

  function Higher(current: Level, candidate: Level): Level {
    if Weight(candidate) > Weight(current) then candidate else current
  }

  method AssessToolRisk(rules: Rules, autoApprove: bool, d: Description) returns (level: Level, requiresApproval: bool)
    ensures requiresApproval <==> Risky(rules, d) && !autoApprove
    ensures level.Low? <==> !Risky(rules, d)
    ensures level.Low? || AssessedAs(rules, d, level)
    ensures forall l :: AssessedAs(rules, d, l) ==> Weight(l) <= Weight(level)
  {
    level, requiresApproval := Low, false;
    if HasCommand(d) {
      var risk := CommandRisk(rules, d.commandPreview.value);
      level := Higher(level, risk.level);
      requiresApproval := requiresApproval || risk.requiresApproval;
    }
    for i := 0 to |d.targetPaths|
      invariant requiresApproval <==> Risky(rules, d.(targetPaths := d.targetPaths[..i]))
      invariant level.Low? <==> !requiresApproval
      invariant level.Low? || AssessedAs(rules, d, level)
      invariant HasCommand(d) ==> Weight(CommandRisk(rules, d.commandPreview.value).level) <= Weight(level)
      invariant forall j :: 0 <= j < i ==> Weight(PathRisk(rules, d.targetPaths[j]).level) <= Weight(level)
    {
      var risk := PathRisk(rules, d.targetPaths[i]);
      RiskyMore(rules, d, i);
      level := Higher(level, risk.level);
      requiresApproval := requiresApproval || risk.requiresApproval;
    }
    assert d.targetPaths[..|d.targetPaths|] == d.targetPaths;
    requiresApproval := requiresApproval && !autoApprove;
  }

  lemma RiskyMore(rules: Rules, d: Description, i: int)
    requires 0 <= i < |d.targetPaths|
    ensures Risky(rules, d.(targetPaths := d.targetPaths[..i + 1])) <==>
            Risky(rules, d.(targetPaths := d.targetPaths[..i])) || PathRisk(rules, d.targetPaths[i]).requiresApproval
  {
    hide PathRisk, CommandRisk;
    var (before, after) := (d.targetPaths[..i], d.targetPaths[..i + 1]);
    assert after[i] == d.targetPaths[i];
    assert forall j :: 0 <= j < i ==> before[j] == after[j];
  }

  // ----- the conversation

  datatype Block =
    | TextBlock(text: string)
    | ToolBlock(id: Option<string>, name: Option<string>, input: Option<string>)
    | OtherBlock
  datatype Use = Use(id: string, name: string, input: string)
  datatype Stop = EndTurn | ToolUse | OtherStop
  datatype Response = Response(content: seq<Block>, stop: Stop)
  datatype ToolResult = ToolResult(useId: string, content: string)
  datatype Turn = Prompt(text: string) | Assistant(content: seq<Block>) | Results(results: seq<ToolResult>)

  const REJECTED := "Tool use rejected by user."

  // The well-formed tool requests of a response, in order.
  function Uses(content: seq<Block>): seq<Use> {
    if content == [] then []
    else
      var (rest, last) := (Uses(content[..|content| - 1]), content[|content| - 1]);
      if last.ToolBlock? && last.id.Some? && last.name.Some? && last.input.Some?
      then rest + [Use(last.id.value, last.name.value, last.input.value)] else rest
  }

  // The texts of a response that are worth logging.
  function Texts(content: seq<Block>): seq<string> {
    if content == [] then []
    else
      var (rest, last) := (Texts(content[..|content| - 1]), content[|content| - 1]);
      if last.TextBlock? && Trim(last.text) != "" then rest + [last.text] else rest
  }

  const LOG_LIMIT := 1200

  // What is logged of a result: at most LOG_LIMIT characters of it, and how many are not shown.
  function Summary(result: string): (string, nat) {
    var text := Trim(result);
    if |text| <= LOG_LIMIT then (text, 0) else (text[..LOG_LIMIT], |text| - LOG_LIMIT)
  }

  predicate UserTurn(t: Turn) {
    t.Prompt? || t.Results?
  }

  // Results answer the requests one by one, in order, by id.
  predicate Answer(uses: seq<Use>, results: seq<ToolResult>) {
    |results| <= |uses| && forall i :: 0 <= i < |results| ==> results[i].useId == uses[i].id
  }

  predicate Answered(turns: seq<Turn>, i: int)
    requires 0 < i < |turns|
  {
    && turns[i].Results? && turns[i - 1].Assistant?
    && Answer(Uses(turns[i - 1].content), turns[i].results)
    && |turns[i].results| == |Uses(turns[i - 1].content)| > 0
  }

  // Prompt, then rounds of one assistant turn and the user's results for it.
  predicate Conversation(turns: seq<Turn>) {
    && |turns| % 2 == 1 && turns[0].Prompt?
    && forall i :: 0 < i < |turns| && i % 2 == 0 ==> Answered(turns, i)
  }

  // ----- the protocol

  datatype Action =
    | Cancel
    | ModelCall(conversation: seq<Turn>)
    | Reply(response: Response)
    | Say(text: string)
    | Announce(use: Use, warn: bool)
    | Ask(use: Use)
    | Decide(use: Use, approved: bool)
    | Start(use: Use)
    | Done(use: Use, output: string)
    | Refuse(use: Use)
    | Note(text: string, omitted: nat)
    | Complete
    | CompletionFails
    | Error(failure: Failure)

  // Why a run ends in `onError`.
  datatype Failure =
    | LoadFailed
    | ModelFailed
    | UnexpectedStop
    | NoToolBlocks
    | MalformedInput
    | EventFailed
    | DecisionFailed
    | ToolFailed
    | TooManyRounds
    | DiffFailed
    | CompletionFailed

  // Where the next unanswered tool request stands.
  datatype Stage = Idle | Announced | Asked | Decided(approved: bool) | Started | Unreported

  datatype Phase =
    | Fresh
    | Calling
    | Handling(response: Response, said: nat, results: seq<ToolResult>, stage: Stage)
    | Completing
    | Broken
    | Over

  // `turns` is the conversation as last sent, `ends` how many terminal callbacks were made.
  datatype Run = Run(turns: seq<Turn>, calls: nat, phase: Phase, cancelled: bool, ends: nat)

  datatype Terms = Terms(maxRounds: nat, autoApprove: bool, rules: Rules, describe: Use -> Option<Description>)

  function Begin(prompt: string): Run {
    Run([Prompt(prompt)], 0, Fresh, false, 0)
  }

  function Next(run: Run, a: Action): Run {
    match a
    case Cancel => run.(cancelled := true)
    case ModelCall(c) => run.(turns := c, calls := run.calls + 1, phase := Calling)
    case Reply(r) => run.(phase := Handling(r, 0, [], Idle))
    case Complete => run.(phase := Completing, ends := run.ends + 1)
    case CompletionFails => run.(phase := Broken)
    case Error(_) => run.(phase := Over, ends := run.ends + 1)
    case _ => if run.phase.Handling? then run.(phase := NextPhase(run.phase, a)) else run
  }

  function NextPhase(p: Phase, a: Action): Phase
    requires p.Handling?
  {
    match a
    case Say(_) => p.(said := p.said + 1)
    case Announce(_, _) => p.(stage := Announced)
    case Ask(_) => p.(stage := Asked)
    case Decide(_, approved) => p.(stage := Decided(approved))
    case Start(_) => p.(stage := Started)
    case Done(u, output) =>
      WithResult(p, u, output, if Trim(output) == "" then Idle else Unreported)
    case Refuse(u) => WithResult(p, u, REJECTED, Idle)
    case Note(_, _) => p.(stage := Idle)
    case _ => p
  }

  function WithResult(p: Phase, u: Use, result: string, stage: Stage): Phase
    requires p.Handling?
  {
    p.(results := p.results + [ToolResult(u.id, result)], stage := stage)
  }

  predicate NeedsApproval(terms: Terms, u: Use) {
    && !terms.autoApprove
    && terms.describe(u).Some? && Risky(terms.rules, terms.describe(u).value)
  }

  // The response's next request without a result.
  predicate Pending(run: Run, u: Use) {
    && run.phase.Handling? && run.phase.response.stop.ToolUse?
    && var uses := Uses(run.phase.response.content);
       |run.phase.results| < |uses| && uses[|run.phase.results|] == u
  }

  predicate AllSaid(run: Run) {
    run.phase.Handling? && run.phase.said == |Texts(run.phase.response.content)|
  }

  // Every request of a round has its result.
  predicate RoundDone(run: Run) {
    && run.phase.Handling? && run.phase.response.stop.ToolUse? && run.phase.stage.Idle?
    && |run.phase.results| == |Uses(run.phase.response.content)| > 0
  }

  function Extended(run: Run): seq<Turn> {
    if run.phase.Handling? then run.turns + [Assistant(run.phase.response.content), Results(run.phase.results)]
    else run.turns
  }

  ghost predicate Allowed(run: Run, a: Action, terms: Terms) {
    match a
    case Cancel => true
    case ModelCall(c) =>
      && !run.cancelled && run.calls < terms.maxRounds
      && (run.phase.Fresh? || RoundDone(run)) && c == Extended(run)
    case Reply(r) => run.phase.Calling?
    case Say(text) => run.phase.Handling? && var texts := Texts(run.phase.response.content);
                      && run.phase.results == [] && run.phase.stage.Idle?
                      && run.phase.said < |texts| && text == texts[run.phase.said]
    case Announce(u, warn) =>
      && !run.cancelled && terms.describe(u).Some? && Pending(run, u) && run.phase.stage.Idle? && AllSaid(run)
      && warn == NeedsApproval(terms, u)
    case Ask(u) => Pending(run, u) && run.phase.stage.Announced? && NeedsApproval(terms, u)
    case Decide(u, _) => Pending(run, u) && run.phase.stage.Asked?
    case Start(u) => !run.cancelled && Pending(run, u) &&
                     (run.phase.stage == Decided(true) || (run.phase.stage.Announced? && !NeedsApproval(terms, u)))
    case Done(u, _) => Pending(run, u) && run.phase.stage.Started?
    case Refuse(u) => !run.cancelled && Pending(run, u) && run.phase.stage == Decided(false)
    case Note(text, omitted) => run.phase.Handling? && run.phase.stage.Unreported? && run.phase.results != [] &&
                                (text, omitted) == Summary(run.phase.results[|run.phase.results| - 1].content)
    case Complete => !run.cancelled && AllSaid(run) && run.phase.response.stop.EndTurn?
    case CompletionFails => run.phase.Completing?
    case Error(failure) => !run.cancelled && Explains(failure, run, terms)
  }

  // The failure is one that can happen where the run is.
  ghost predicate Explains(failure: Failure, run: Run, terms: Terms) {
    match failure
    case LoadFailed => run.phase.Fresh?
    case ModelFailed => run.phase.Calling?
    case UnexpectedStop => AllSaid(run) && run.phase.response.stop.OtherStop?
    case NoToolBlocks => AllSaid(run) && run.phase.response.stop.ToolUse? && Uses(run.phase.response.content) == []
    case MalformedInput =>
      AllSaid(run) && exists u :: Pending(run, u) && run.phase.stage.Idle? && terms.describe(u).None?
    case EventFailed => run.phase.Handling?
    case DecisionFailed => run.phase.Handling? && run.phase.stage.Asked?
    case ToolFailed => run.phase.Handling? && run.phase.stage.Started?
    case TooManyRounds => run.calls == terms.maxRounds && (run.phase.Fresh? || RoundDone(run))
    case DiffFailed => AllSaid(run) && run.phase.response.stop.EndTurn?
    case CompletionFailed => run.phase.Broken?
  }

  ghost function Replay(trace: seq<Action>, prompt: string, terms: Terms): Option<Run> {
    if trace == [] then Some(Begin(prompt))
    else
      var (before, a) := (Replay(trace[..|trace| - 1], prompt, terms), trace[|trace| - 1]);
      if before.Some? && Allowed(before.value, a, terms) then Some(Next(before.value, a)) else None
  }

  lemma ReplayAppend(trace: seq<Action>, a: Action, prompt: string, terms: Terms)
    requires var run := Replay(trace, prompt, terms); run.Some? && Allowed(run.value, a, terms)
    ensures Replay(trace + [a], prompt, terms) == Some(Next(Replay(trace, prompt, terms).value, a))
  {
    hide Allowed, Next;
    assert (trace + [a])[..|trace|] == trace;
  }

  ghost predicate Follows(trace: seq<Action>, prompt: string, terms: Terms) {
    Replay(trace, prompt, terms).Some?
  }

  // ----- what holds of every trace that follows the protocol

  predicate Sound(run: Run, terms: Terms) {
    && Conversation(run.turns)
    && run.calls <= terms.maxRounds
    && |run.turns| == (if run.calls == 0 then 1 else 2 * run.calls - 1)
    && (run.calls == 0 ==> !run.phase.Handling? && !run.phase.Calling?)
    && (run.calls > 0 ==> !run.phase.Fresh?)
    && (run.phase.Handling? ==> Answer(Uses(run.phase.response.content), run.phase.results))
    && (run.phase.Fresh? || run.phase.Calling? || run.phase.Handling? ==> run.ends == 0)
    && (run.phase.Completing? || run.phase.Broken? ==> run.ends == 1)
    && (run.phase.Over? ==> 1 <= run.ends <= 2)
  }

  lemma StepSound(run: Run, a: Action, terms: Terms)
    requires Sound(run, terms) && Allowed(run, a, terms)
    ensures Sound(Next(run, a), terms)
  {
    hide Uses, NeedsApproval;
    if a.ModelCall? {
      ExtendedSound(run, terms);
    }
  }

  lemma ExtendedSound(run: Run, terms: Terms)
    requires Sound(run, terms) && (run.phase.Fresh? || RoundDone(run))
    ensures Conversation(Extended(run)) && |Extended(run)| == 2 * run.calls + 1
  {
    hide Uses, Answer;
    var longer := Extended(run);
    if RoundDone(run) {
      forall i | 0 < i < |longer| && i % 2 == 0
        ensures Answered(longer, i)
      {
        if i < |run.turns| {
          assert Answered(run.turns, i);
        } else {
          assert i == |run.turns| + 1;
        }
      }
    }
  }

  lemma {:induction false} ReplaySound(trace: seq<Action>, prompt: string, terms: Terms)
    requires Follows(trace, prompt, terms)
    ensures Sound(Replay(trace, prompt, terms).value, terms)
  {
    hide Allowed, Next;
    if trace != [] {
      var init := trace[..|trace| - 1];
      ReplaySound(init, prompt, terms);
      StepSound(Replay(init, prompt, terms).value, trace[|trace| - 1], terms);
    } else {
      assert Uses([]) == [];
    }
  }

  lemma {:induction false} PrefixFollows(trace: seq<Action>, k: int, prompt: string, terms: Terms)
    requires Follows(trace, prompt, terms) && 0 <= k <= |trace|
    ensures Follows(trace[..k], prompt, terms)
    ensures k < |trace| ==> Allowed(Replay(trace[..k], prompt, terms).value, trace[k], terms)
    decreases |trace|
  {
    hide Allowed, Next;
    if k == |trace| {
      assert trace[..k] == trace;
    } else if k < |trace| - 1 {
      var init := trace[..|trace| - 1];
      PrefixFollows(init, k, prompt, terms);
      assert init[..k] == trace[..k];
    }
  }

  function Calls(trace: seq<Action>): nat {
    if trace == [] then 0 else Calls(trace[..|trace| - 1]) + (if trace[|trace| - 1].ModelCall? then 1 else 0)
  }

  function Ends(trace: seq<Action>): nat {
    if trace == [] then 0
    else Ends(trace[..|trace| - 1]) + (if trace[|trace| - 1].Complete? || trace[|trace| - 1].Error? then 1 else 0)
  }

  // The counters and the flag of the replayed run are what the trace shows.
  lemma {:induction false} RunCounts(trace: seq<Action>, prompt: string, terms: Terms)
    requires Follows(trace, prompt, terms)
    ensures var run := Replay(trace, prompt, terms).value;
            run.calls == Calls(trace) && run.ends == Ends(trace) && (run.cancelled <==> Cancel in trace)
  {
    hide Allowed;
    if trace != [] {
      var (init, last) := (trace[..|trace| - 1], trace[|trace| - 1]);
      RunCounts(init, prompt, terms);
      assert trace == init + [last];
    }
  }

  // Every model call sends a proper conversation of length 2 * round + 1.
  lemma EveryCall(trace: seq<Action>, k: int, prompt: string, terms: Terms)
    requires Follows(trace, prompt, terms) && 0 <= k < |trace| && trace[k].ModelCall?
    ensures Calls(trace[..k]) < terms.maxRounds && Cancel !in trace[..k]
    ensures Conversation(trace[k].conversation)
    ensures |trace[k].conversation| == 2 * Calls(trace[..k]) + 1
  {
    hide Conversation, Replay;
    PrefixFollows(trace, k, prompt, terms);
    ReplaySound(trace[..k], prompt, terms);
    RunCounts(trace[..k], prompt, terms);
    ExtendedSound(Replay(trace[..k], prompt, terms).value, terms);
  }

  // The results that a stretch of a trace produces, in order.
  function ResultsIn(trace: seq<Action>): seq<ToolResult> {
    if trace == [] then []
    else
      var (rest, last) := (ResultsIn(trace[..|trace| - 1]), trace[|trace| - 1]);
      match last
      case Done(u, output) => rest + [ToolResult(u.id, output)]
      case Refuse(u) => rest + [ToolResult(u.id, REJECTED)]
      case _ => rest
  }

  // The reply at i is being handled, with the results since then.
  predicate HandledSince(trace: seq<Action>, i: int, n: int, p: Phase) {
    && 0 <= i < n <= |trace| && p.Handling?
    && trace[i] == Reply(p.response) && p.results == ResultsIn(trace[i + 1..n])
  }

  predicate NoCallBetween(trace: seq<Action>, j: int, n: int) {
    forall i :: j < i < n && 0 <= i < |trace| ==> !trace[i].ModelCall?
  }

  lemma HandledMore(trace: seq<Action>, i: int, n: int, p: Phase)
    requires n < |trace| && HandledSince(trace, i, n, p)
    requires var a := trace[n];
             !a.Cancel? && !a.ModelCall? && !a.Reply? && !a.Complete? && !a.CompletionFails? && !a.Error?
    ensures HandledSince(trace, i, n + 1, NextPhase(p, trace[n]))
  {
    assert trace[i + 1..n + 1][..n - i - 1] == trace[i + 1..n];
  }

  lemma HandledStill(trace: seq<Action>, i: int, n: int, p: Phase)
    requires n < |trace| && HandledSince(trace, i, n, p) && trace[n].Cancel?
    ensures HandledSince(trace, i, n + 1, p)
  {
    assert trace[i + 1..n + 1][..n - i - 1] == trace[i + 1..n];
  }

  // From a model call to the next: the conversation is the one sent, and what is being handled
  // is the reply that has come since.
  lemma {:induction false} SinceCall(trace: seq<Action>, j: int, n: int, prompt: string, terms: Terms) returns (i: int)
    requires Follows(trace, prompt, terms) && 0 <= j < n <= |trace| && trace[j].ModelCall? && NoCallBetween(trace, j, n)
    ensures Follows(trace[..n], prompt, terms)
    ensures var run := Replay(trace[..n], prompt, terms).value;
            && run.turns == trace[j].conversation && !run.phase.Fresh?
            && (run.phase.Handling? ==> j < i && HandledSince(trace, i, n, run.phase))
            && forall m :: j < m < n && trace[m].Reply? ==> m == i && !run.phase.Calling?
  {
    hide Allowed, HandledSince, Next, Replay;
    PrefixFollows(trace, n - 1, prompt, terms);
    PrefixFollows(trace, n, prompt, terms);
    ReplayedMore(trace, n - 1, prompt, terms);
    var (before, a) := (Replay(trace[..n - 1], prompt, terms).value, trace[n - 1]);
    i := n - 1;
    if n - 1 == j {
      CallNext(before, a);
    } else {
      i := SinceCall(trace, j, n - 1, prompt, terms);
      i := SinceStep(trace, i, n - 1, before, terms);
    }
  }

  lemma ReplayedMore(trace: seq<Action>, k: int, prompt: string, terms: Terms)
    requires 0 <= k < |trace| && Follows(trace[..k], prompt, terms) && Follows(trace[..k + 1], prompt, terms)
    ensures var run := Replay(trace[..k], prompt, terms).value;
            Replay(trace[..k + 1], prompt, terms).value == Next(run, trace[k])
  {
    hide Allowed, Next;
    assert trace[..k + 1][..k] == trace[..k];
  }

  lemma CallNext(run: Run, a: Action)
    requires a.ModelCall?
    ensures Next(run, a).turns == a.conversation && Next(run, a).phase.Calling?
  {
  }

  lemma SinceStep(trace: seq<Action>, i: int, n: int, run: Run, terms: Terms) returns (i': int)
    requires 0 <= n < |trace| && !trace[n].ModelCall? && Allowed(run, trace[n], terms) && !run.phase.Fresh?
    requires run.phase.Handling? ==> HandledSince(trace, i, n, run.phase)
    ensures var next := Next(run, trace[n]);
            && next.turns == run.turns && !next.phase.Fresh?
            && (next.phase.Handling? ==> HandledSince(trace, i', n + 1, next.phase))
    ensures i' == (if trace[n].Reply? then n else i)
    ensures Next(run, trace[n]).phase.Handling? ==> trace[n].Reply? || run.phase.Handling?
    ensures trace[n].Reply? ==> run.phase.Calling?
    ensures Next(run, trace[n]).phase.Calling? ==> run.phase.Calling? && !trace[n].Reply?
  {
    if trace[n].Reply? { OnlyInCall(run, trace[n], terms); }
    hide Allowed;
    var a := trace[n];
    i' := if a.Reply? then n else i;
    if a.Reply? {
      assert trace[n + 1..n + 1] == [];
    } else if run.phase.Handling? && a.Cancel? {
      HandledStill(trace, i, n, run.phase);
    } else if run.phase.Handling? && !a.Complete? && !a.CompletionFails? && !a.Error? {
      HandledMore(trace, i, n, run.phase);
    }
  }

  lemma OnlyInCall(run: Run, a: Action, terms: Terms)
    requires Allowed(run, a, terms) && a.Reply?
    ensures run.phase.Calling?
  {
  }

  // Each call after the first sends the conversation of the call before it, extended by the
  // model's reply to that and the results the executor has produced for the reply since.
  lemma EveryCallExtends(trace: seq<Action>, j: int, k: int, prompt: string, terms: Terms) returns (i: int)
    requires Follows(trace, prompt, terms) && 0 <= j < k < |trace|
    requires trace[j].ModelCall? && trace[k].ModelCall? && NoCallBetween(trace, j, k)
    ensures j < i < k && trace[i].Reply?
    ensures trace[k].conversation ==
            trace[j].conversation + [Assistant(trace[i].response.content), Results(ResultsIn(trace[i + 1..k]))]
    ensures |ResultsIn(trace[i + 1..k])| == |Uses(trace[i].response.content)| > 0
    ensures forall m :: j < m < k && trace[m].Reply? ==> m == i
  {
    hide Replay, Uses;
    i := SinceCall(trace, j, k, prompt, terms);
    PrefixFollows(trace, k, prompt, terms);
  }

  lemma CallsBounded(trace: seq<Action>, prompt: string, terms: Terms)
    requires Follows(trace, prompt, terms)
    ensures Calls(trace) <= terms.maxRounds
  {
    hide Replay, Conversation;
    ReplaySound(trace, prompt, terms);
    RunCounts(trace, prompt, terms);
  }

  // A conversation starts and ends with the user and alternates.
  lemma ConversationAlternates(turns: seq<Turn>, i: int)
    requires Conversation(turns) && 0 <= i < |turns|
    ensures UserTurn(turns[0]) && UserTurn(turns[|turns| - 1])
    ensures UserTurn(turns[i]) <==> i % 2 == 0
  {
    assert i > 0 && i % 2 == 0 ==> Answered(turns, i);
    assert |turns| > 1 ==> Answered(turns, |turns| - 1);
    if i % 2 == 1 {
      assert Answered(turns, i + 1);
    }
  }

  // A tool starts only when no cancellation has come and either nothing objects to it, the task
  // approves everything by itself, or the user granted this very request in the step before.
  lemma GuardedStart(trace: seq<Action>, k: int, prompt: string, terms: Terms)
    requires Follows(trace, prompt, terms) && 0 <= k < |trace| && trace[k].Start?
    ensures Cancel !in trace[..k]
    ensures NeedsApproval(terms, trace[k].use) ==> k > 0 && trace[k - 1] == Decide(trace[k].use, true)
  {
    hide Uses, NeedsApproval, Replay;
    PrefixFollows(trace, k, prompt, terms);
    RunCounts(trace[..k], prompt, terms);
    if Replay(trace[..k], prompt, terms).value.phase.stage.Decided? {
      DecidedLast(trace[..k], prompt, terms);
    }
  }

  // In an undisturbed run a decision is taken up by the very next action.
  lemma DecidedLast(trace: seq<Action>, prompt: string, terms: Terms)
    requires Follows(trace, prompt, terms)
    requires var run := Replay(trace, prompt, terms).value;
             run.phase.Handling? && run.phase.stage.Decided? && !run.cancelled
    ensures trace != []
    ensures var (run, last) := (Replay(trace, prompt, terms).value, trace[|trace| - 1]);
            last.Decide? && last.approved == run.phase.stage.approved && Pending(run, last.use)
  {
    hide Uses, NeedsApproval, Trim;
  }

  // Callbacks that end the task: none after a cancellation, at most one, or two when the first
  // one itself failed.
  lemma EndsOnce(trace: seq<Action>, prompt: string, terms: Terms)
    requires Follows(trace, prompt, terms)
    ensures Ends(trace) <= 2
    ensures CompletionFails !in trace ==> Ends(trace) <= 1
  {
    hide Allowed, Next, Conversation;
    ReplaySound(trace, prompt, terms);
    RunCounts(trace, prompt, terms);
    if CompletionFails !in trace {
      NeverBroken(trace, prompt, terms);
    }
  }

  lemma {:induction false} NeverBroken(trace: seq<Action>, prompt: string, terms: Terms)
    requires Follows(trace, prompt, terms) && CompletionFails !in trace
    ensures var run := Replay(trace, prompt, terms).value; run.ends <= 1 && !run.phase.Broken?
  {
    hide Uses, Texts, NeedsApproval, Conversation, Answer;
    if trace != [] {
      var init := trace[..|trace| - 1];
      NeverBroken(init, prompt, terms);
      ReplaySound(init, prompt, terms);
      assert trace[|trace| - 1] in trace;
    }
  }

  lemma NoEndAfterCancel(trace: seq<Action>, k: int, prompt: string, terms: Terms)
    requires Follows(trace, prompt, terms) && 0 <= k < |trace| && (trace[k].Complete? || trace[k].Error?)
    ensures Cancel !in trace[..k]
  {
    hide Replay;
    PrefixFollows(trace, k, prompt, terms);
    RunCounts(trace[..k], prompt, terms);
  }

  // ----- the executor

  // What happens outside, by the number of the await it happens in.
  datatype World = World(
    cancels: nat -> bool,
    loads: bool,
    replies: nat -> Option<Response>,
    eventFails: nat -> bool,
    decides: nat -> Option<bool>,
    tool: nat -> Option<string>,
    diffFails: bool,
    completionFails: bool)

  // The actions that wait for something outside. Loading the client is await 0, before all of them.
  predicate Waits(a: Action) {
    a.ModelCall? || a.Say? || a.Announce? || a.Ask? || a.Start? || a.Refuse? || a.Note? || a.Complete? || a.Error?
  }

  // The number of the last await, and the action that waits in it, if it is not the loading.
  function Await(trace: seq<Action>): nat {
    if trace == [] then 0 else Await(trace[..|trace| - 1]) + if Waits(trace[|trace| - 1]) then 1 else 0
  }

  function Waiting(trace: seq<Action>): Option<Action> {
    if trace == [] then None
    else if Waits(trace[|trace| - 1]) then Some(trace[|trace| - 1])
    else Waiting(trace[..|trace| - 1])
  }

  // How an await fails that the action waits in.
  function Failing(world: World, t: nat, a: Action): Option<Failure> {
    match a
    case ModelCall(_) => if world.replies(t).None? then Some(ModelFailed) else None
    case Ask(_) => if world.decides(t).None? then Some(DecisionFailed) else None
    case Start(_) => if world.tool(t).None? then Some(ToolFailed) else None
    case Complete => if world.completionFails then Some(CompletionFailed) else None
    case Error(_) => None
    case _ => if world.eventFails(t) then Some(EventFailed) else None
  }

  // How the last await fails, if it does.
  function Fails(world: World, trace: seq<Action>): Option<Failure> {
    var waiting := Waiting(trace);
    if waiting.Some? then Failing(world, Await(trace), waiting.value)
    else if world.loads then None else Some(LoadFailed)
  }

  // The action is what the world makes of the last await.
  predicate Fits(world: World, trace: seq<Action>, a: Action) {
    var (t, fails) := (Await(trace), Fails(world, trace));
    match a
    case Cancel => world.cancels(t) && (trace == [] || Waits(trace[|trace| - 1]))
    case Reply(response) => world.replies(t) == Some(response)
    case Decide(_, approved) => world.decides(t) == Some(approved)
    case Done(_, output) => world.tool(t) == Some(output)
    case CompletionFails => fails == Some(CompletionFailed)
    case Error(failure) => if fails.Some? then fails == Some(failure) else Inside(world, failure)
    case Complete => fails.None? && !world.diffFails
    case _ => fails.None?
  }

  // A failure that no await brings.
  predicate Inside(world: World, failure: Failure) {
    || failure.MalformedInput? || failure.NoToolBlocks? || failure.UnexpectedStop? || failure.TooManyRounds?
    || (failure.DiffFailed? && world.diffFails)
  }

  predicate CancelsBefore(world: World, awaits: nat) {
    exists t: nat :: t < awaits && world.cancels(t)
  }

  lemma CancelsMore(world: World, awaits: nat)
    ensures CancelsBefore(world, awaits + 1) <==> CancelsBefore(world, awaits) || world.cancels(awaits)
  {
  }

  lemma Awaited(world: World, trace: seq<Action>, a: Action)
    ensures Await(trace + [a]) == Await(trace) + if Waits(a) then 1 else 0
    ensures Waiting(trace + [a]) == if Waits(a) then Some(a) else Waiting(trace)
    ensures !Waits(a) ==> Fails(world, trace + [a]) == Fails(world, trace)
  {
    assert (trace + [a])[..|trace|] == trace;
  }

  lemma FailsIn(world: World, trace: seq<Action>, a: Action)
    requires trace != [] && trace[|trace| - 1] == a && Waits(a)
    ensures Fails(world, trace) == Failing(world, Await(trace), a)
  {
  }

  lemma NextCancelled(run: Run, a: Action)
    ensures Next(run, a).cancelled == (run.cancelled || a.Cancel?)
  {
  }

  predicate IsEvent(a: Action) {
    a.Say? || a.Announce? || a.Refuse? || a.Note?
  }

  datatype Signal = Proceed | Return | Throw(failure: Failure)

  class ClaudeTask {
    const terms: Terms
    const world: World
    const prompt: string
    var cancelled: bool
    var awaits: nat
    var messages: seq<Turn>
    ghost var trace: seq<Action>
    ghost var run: Run

    constructor (prompt: string, terms: Terms, world: World)
      ensures Ready() && this.prompt == prompt && this.terms == terms && this.world == world
    {
      this.prompt, this.terms, this.world := prompt, terms, world;
      cancelled, awaits, messages := false, 0, [Prompt(prompt)];
      trace, run := [], Begin(prompt);
    }

    ghost predicate Ready()
      reads this
    {
      !cancelled && awaits == 0 && trace == [] && run == Begin(prompt) && messages == run.turns
    }

    ghost predicate Consistent()
      reads this
    {
      && Replay(trace, prompt, terms) == Some(run)
      && cancelled == run.cancelled
      && (cancelled <==> CancelsBefore(world, awaits))
      && (forall k :: 0 <= k < |trace| ==> Fits(world, trace[..k], trace[k]))
    }

    // Every await of the trace has ended.
    ghost predicate Valid()
      reads this
    {
      Consistent() && awaits == Await(trace) + 1
    }

    ghost method Perform(a: Action)
      requires Consistent() && Allowed(run, a, terms) && Fits(world, trace, a) && !a.Cancel?
      modifies this`trace, this`run
      ensures Consistent() && run == Next(old(run), a) && trace == old(trace) + [a]
      ensures Await(trace) == Await(old(trace)) + if Waits(a) then 1 else 0
      ensures !Waits(a) ==> Fails(world, trace) == Fails(world, old(trace))
    {
      hide Allowed, Fits, Replay, CancelsBefore;
      NextCancelled(run, a);
      ReplayAppend(trace, a, prompt, terms);
      Awaited(world, trace, a);
      trace, run := trace + [a], Next(run, a);
      assert trace[..|trace| - 1] == old(trace);
      assert forall k :: 0 <= k < |old(trace)| ==> trace[..k] == old(trace)[..k];
    }

    // `cancelTask` arrives while this await is pending, or does not.
    method Pause()
      requires Consistent() && awaits == Await(trace) && (trace == [] || Waits(trace[|trace| - 1]))
      modifies this`cancelled, this`awaits, this`trace, this`run
      ensures Valid() && run == old(run).(cancelled := cancelled) && (old(cancelled) ==> cancelled)
      ensures awaits == old(awaits) + 1 && Fails(world, trace) == Fails(world, old(trace))
    {
      hide Replay, CancelsBefore, Fails, Await;
      CancelsMore(world, awaits);
      if world.cancels(awaits) {
        cancelled := true;
        ReplayAppend(trace, Cancel, prompt, terms);
        Awaited(world, trace, Cancel);
        trace, run := trace + [Cancel], Next(run, Cancel);
        assert trace[..|trace| - 1] == old(trace);
        assert forall k :: 0 <= k < |old(trace)| ==> trace[..k] == old(trace)[..k];
      }
      awaits := awaits + 1;
    }

    // One await: its action, and then its end.
    method WaitIn(a: Action)
      requires Valid() && Waits(a) && Allowed(run, a, terms) && Fits(world, trace, a)
      modifies this`cancelled, this`awaits, this`trace, this`run
      ensures Valid() && run == Next(old(run), a).(cancelled := cancelled) && (old(cancelled) ==> cancelled)
      ensures awaits == old(awaits) + 1 && Fails(world, trace) == Failing(world, old(awaits), a)
    {
      hide Allowed, Fits, Replay, CancelsBefore;
      NextCancelled(run, a);
      Awaited(world, trace, a);
      Perform(a);
      FailsIn(world, trace, a);
      Pause();
    }

    method Emit(a: Action) returns (failed: bool)
      requires Valid() && Allowed(run, a, terms) && Fails(world, trace).None? && IsEvent(a)
      modifies this`cancelled, this`awaits, this`trace, this`run
      ensures Valid() && run == Next(old(run), a).(cancelled := cancelled) && (old(cancelled) ==> cancelled)
      ensures Fails(world, trace) == if failed then Some(EventFailed) else None
    {
      hide Allowed, Fails, Await, Replay, Next, CancelsBefore;
      failed := world.eventFails(awaits);
      WaitIn(a);
    }

    method HandleUse(u: Use) returns (signal: Signal, result: string)
      requires Valid() && !cancelled && Pending(run, u) && run.phase.stage.Idle? && AllSaid(run)
      requires Fails(world, trace).None?
      modifies this`cancelled, this`awaits, this`trace, this`run
      ensures Valid() && run.phase.Handling?
      ensures signal.Proceed? ==>
                run == old(run).(cancelled := cancelled,
                                 phase := WithResult(old(run.phase), u, result, Idle))
      ensures signal.Proceed? ==> Fails(world, trace).None?
      ensures signal.Return? ==> cancelled
      ensures signal.Throw? ==> Explains(signal.failure, run, terms) && Fits(world, trace, Error(signal.failure))
    {
      hide Replay, Uses, Texts, Summary, Risky, Fails, Await, CancelsBefore;
      result := "";
      var description := terms.describe(u);
      if description.None? {
        return Throw(MalformedInput), result;
      }
      var _, requiresApproval := AssessToolRisk(terms.rules, terms.autoApprove, description.value);
      var failed := Emit(Announce(u, requiresApproval));
      if failed {
        return Throw(EventFailed), result;
      }
      signal, result := HandleAnnounced(u, requiresApproval);
    }

    method HandleAnnounced(u: Use, requiresApproval: bool) returns (signal: Signal, result: string)
      requires Valid() && Pending(run, u) && run.phase.stage.Announced? && requiresApproval == NeedsApproval(terms, u)
      requires Fails(world, trace).None?
      modifies this`cancelled, this`awaits, this`trace, this`run
      ensures Valid() && run.phase.Handling?
      ensures signal.Proceed? ==>
                run == old(run).(cancelled := cancelled,
                                 phase := WithResult(old(run.phase), u, result, Idle))
      ensures signal.Proceed? ==> Fails(world, trace).None?
      ensures signal.Return? ==> cancelled
      ensures signal.Throw? ==> Explains(signal.failure, run, terms) && Fits(world, trace, Error(signal.failure))
    {
      hide Replay, Uses, Texts, Summary, Risky, NeedsApproval, Fails, Await, CancelsBefore, Trim;
      result := "";
      var approved := true;
      if requiresApproval {
        signal, approved := RequestApproval(u);
        if signal.Throw? {
          return;
        }
      }
      if cancelled {
        return Return, result;
      }
      if !approved {
        result := REJECTED;
        var failed := Emit(Refuse(u));
        if failed {
          return Throw(EventFailed), result;
        }
      } else {
        signal, result := ExecuteTool(u);
        return;
      }
      signal := Proceed;
    }

    method RequestApproval(u: Use) returns (signal: Signal, approved: bool)
      requires Valid() && Allowed(run, Ask(u), terms) && Fails(world, trace).None?
      modifies this`cancelled, this`awaits, this`trace, this`run
      ensures Valid() && run.phase.Handling? && !signal.Return?
      ensures signal.Proceed? ==>
                run == old(run).(cancelled := cancelled, phase := old(run.phase).(stage := Decided(approved)))
      ensures signal.Proceed? ==> Fails(world, trace).None?
      ensures signal.Throw? ==> Explains(signal.failure, run, terms) && Fits(world, trace, Error(signal.failure))
    {
      hide Replay, Uses, Texts, Risky, NeedsApproval, Fails, Await, CancelsBefore;
      var decision := world.decides(awaits);
      WaitIn(Ask(u));
      if decision.None? {
        return Throw(DecisionFailed), false;
      }
      approved := decision.value;
      Perform(Decide(u, approved));
      signal := Proceed;
    }

    method ExecuteTool(u: Use) returns (signal: Signal, result: string)
      requires Valid() && Allowed(run, Start(u), terms) && Fails(world, trace).None?
      modifies this`cancelled, this`awaits, this`trace, this`run
      ensures Valid() && run.phase.Handling?
      ensures signal.Proceed? ==>
                run == old(run).(cancelled := cancelled,
                                 phase := WithResult(old(run.phase), u, result, Idle))
      ensures signal.Proceed? ==> Fails(world, trace).None?
      ensures !signal.Return?
      ensures signal.Throw? ==> Explains(signal.failure, run, terms) && Fits(world, trace, Error(signal.failure))
    {
      hide Replay, Uses, Texts, Risky, NeedsApproval, Fails, Await, CancelsBefore, Trim, Allowed, Next;
      result := "";
      var output := RunTool(u);
      if output.None? {
        return Throw(ToolFailed), result;
      }
      result := output.value;
      var failed := ReportResult(result);
      signal := if failed then Throw(EventFailed) else Proceed;
    }

    method RunTool(u: Use) returns (output: Option<string>)
      requires Valid() && Allowed(run, Start(u), terms) && Fails(world, trace).None?
      modifies this`cancelled, this`awaits, this`trace, this`run
      ensures Valid() && run.phase.Handling?
      ensures output.None? ==> Explains(ToolFailed, run, terms) && Fits(world, trace, Error(ToolFailed))
      ensures output.Some? ==> Fails(world, trace).None?
      ensures output.Some? ==>
                run == old(run).(cancelled := cancelled, phase := NextPhase(old(run.phase), Done(u, output.value)))
    {
      hide Replay, Uses, Texts, Risky, NeedsApproval, Fails, Await, CancelsBefore, Trim;
      output := world.tool(awaits);
      WaitIn(Start(u));
      if output.Some? {
        Perform(Done(u, output.value));
      }
    }

    // The task.event of a result that is not blank.
    method ReportResult(result: string) returns (failed: bool)
      requires Valid() && run.phase.Handling? && run.phase.results != []
      requires run.phase.results[|run.phase.results| - 1].content == result
      requires run.phase.stage == if Trim(result) == "" then Idle else Unreported
      requires Fails(world, trace).None?
      modifies this`cancelled, this`awaits, this`trace, this`run
      ensures Valid() && run == old(run).(cancelled := cancelled, phase := old(run.phase).(stage := Idle))
      ensures Fails(world, trace) == if failed then Some(EventFailed) else None
    {
      hide Replay, Uses, Texts, NeedsApproval, Fails, Await, CancelsBefore, Trim;
      failed := false;
      var (text, omitted) := Summary(result);
      if text != "" {
        failed := Emit(Note(text, omitted));
      }
    }

    method HandleUses(response: Response) returns (signal: Signal, results: seq<ToolResult>)
      requires Valid() && AllSaid(run) && run.phase.response == response && response.stop.ToolUse?
      requires run.phase.results == [] && run.phase.stage.Idle? && Fails(world, trace).None?
      modifies this`cancelled, this`awaits, this`trace, this`run
      ensures Valid() && run.phase.Handling?
      ensures signal.Proceed? ==>
                RoundDone(run) && run == old(run).(cancelled := cancelled, phase := old(run.phase).(results := results))
      ensures signal.Proceed? ==> Fails(world, trace).None?
      ensures signal.Return? ==> cancelled
      ensures signal.Throw? ==> Explains(signal.failure, run, terms) && Fits(world, trace, Error(signal.failure))
    {
      hide Allowed, Replay, Uses, Texts, Next, Summary, NeedsApproval, Fails, Await, CancelsBefore;
      results := [];
      var uses := Uses(response.content);
      if |uses| == 0 {
        return Throw(NoToolBlocks), results;
      }
      for i := 0 to |uses|
        invariant Valid() && |results| == i
        invariant run == old(run).(cancelled := cancelled, phase := old(run.phase).(results := results))
        invariant Fails(world, trace).None?
      {
        if cancelled {
          return Return, results;
        }
        var one, result := HandleUse(uses[i]);
        if !one.Proceed? {
          return one, results;
        }
        results := results + [ToolResult(uses[i].id, result)];
      }
      signal := Proceed;
    }

    method SayTexts(response: Response) returns (failed: bool)
      requires Valid() && run.phase == Handling(response, 0, [], Idle) && Fails(world, trace).None?
      modifies this`cancelled, this`awaits, this`trace, this`run
      ensures Valid() && run.phase.Handling?
      ensures Fails(world, trace) == if failed then Some(EventFailed) else None
      ensures !failed ==>
                run == old(run).(cancelled := cancelled, phase := SaidSoFar(response, |response.content|))
      ensures !failed ==> AllSaid(run)
    {
      hide Replay, Uses, Fails, Await, CancelsBefore, Allowed, Next, Texts, Trim;
      NoTexts();
      for i := 0 to |response.content|
        invariant Valid()
        invariant run == old(run).(cancelled := cancelled, phase := SaidSoFar(response, i))
        invariant Fails(world, trace).None?
      {
        var block := response.content[i];
        TextsMore(response.content, i);
        if block.TextBlock? && Trim(block.text) != "" {
          SayNext(run, response, i, terms);
          failed := Emit(Say(block.text));
          if failed {
            return;
          }
        }
      }
      assert response.content[..|response.content|] == response.content;
      failed := false;
    }

    method CallModel() returns (response: Option<Response>)
      requires Valid() && !cancelled && Allowed(run, ModelCall(messages), terms) && Fails(world, trace).None?
      modifies this`cancelled, this`awaits, this`trace, this`run
      ensures Valid()
      ensures response.None? ==> Explains(ModelFailed, run, terms) && Fits(world, trace, Error(ModelFailed))
      ensures response.Some? ==> Fails(world, trace).None?
      ensures response.Some? ==>
                && run == Run(messages, run.calls, Handling(response.value, 0, [], Idle), cancelled, old(run.ends))
                && run.calls == old(run.calls) + 1
    {
      hide Replay, Texts, Uses, NeedsApproval, Fails, Await, CancelsBefore, Trim;
      response := world.replies(awaits);
      WaitIn(ModelCall(messages));
      if response.Some? {
        Perform(Reply(response.value));
      }
    }

    // One model call and all that its reply asks for.
    method Round() returns (signal: Signal, completed: bool)
      requires Valid() && !cancelled && Allowed(run, ModelCall(messages), terms) && Fails(world, trace).None?
      modifies this
      ensures Valid()
      ensures signal.Proceed? ==> Fails(world, trace).None?
      ensures signal.Proceed? && completed ==> AllSaid(run) && run.phase.response.stop.EndTurn?
      ensures signal.Proceed? && !completed ==>
              RoundDone(run) && run.calls == old(run.calls) + 1 && messages == Extended(run)
      ensures signal.Return? ==> cancelled
      ensures signal.Throw? ==> Explains(signal.failure, run, terms) && Fits(world, trace, Error(signal.failure))
    {
      hide Replay, Texts, Uses, NeedsApproval, Fails, Await, CancelsBefore, Allowed, Next;
      completed := false;
      var reply := CallModel();
      if reply.None? {
        return Throw(ModelFailed), completed;
      }
      var response := reply.value;
      var failed := SayTexts(response);
      if failed {
        return Throw(EventFailed), completed;
      }
      if response.stop.EndTurn? {
        return Proceed, true;
      }
      if !response.stop.ToolUse? {
        return Throw(UnexpectedStop), completed;
      }
      var results;
      signal, results := HandleUses(response);
      if signal.Proceed? {
        messages := messages + [Assistant(response.content)];
        messages := messages + [Results(results)];
      }
    }

    // The `try` block.
    method Attempt() returns (signal: Signal)
      requires Ready()
      modifies this
      ensures Valid()
      ensures !signal.Proceed?
      ensures signal.Return? ==> cancelled || run.phase.Completing?
      ensures signal.Throw? ==> Explains(signal.failure, run, terms) && Fits(world, trace, Error(signal.failure))
    {
      hide Texts, Uses, NeedsApproval, Fails, CancelsBefore;
      FirstAwait(world, prompt, terms);
      hide Replay, Await;
      Pause();
      if !world.loads {
        return Throw(LoadFailed);
      }
      var completed := false;
      var round := 0;
      while round < terms.maxRounds
        invariant 0 <= round <= terms.maxRounds && Valid() && !completed
        invariant round == run.calls && messages == Extended(run)
        invariant if round == 0 then run.phase.Fresh? else RoundDone(run)
        invariant Fails(world, trace).None?
      {
        if cancelled {
          return Return;
        }
        signal, completed := Round();
        if !signal.Proceed? {
          return;
        }
        if completed {
          break;
        }
        round := round + 1;
      }
      if !completed && !cancelled {
        return Throw(TooManyRounds);
      }
      if cancelled {
        return Return;
      }
      signal := Finish();
    }

    method Finish() returns (signal: Signal)
      requires Valid() && !cancelled && Allowed(run, Complete, terms) && Fails(world, trace).None?
      modifies this`cancelled, this`awaits, this`trace, this`run
      ensures Valid() && !signal.Proceed?
      ensures signal.Return? ==> run.phase.Completing?
      ensures signal.Throw? ==> Explains(signal.failure, run, terms) && Fits(world, trace, Error(signal.failure))
    {
      hide Replay, Texts, Uses, Fails, Await, CancelsBefore;
      if world.diffFails {
        return Throw(DiffFailed);
      }
      WaitIn(Complete);
      if world.completionFails {
        Perform(CompletionFails);
        return Throw(CompletionFailed);
      }
      signal := Return;
    }

    // The trace follows the protocol and fits the world; a run without a cancellation ends with a
    // callback.
    method StartTask()
      requires Ready()
      modifies this
      ensures Follows(trace, prompt, terms)
      ensures forall k :: 0 <= k < |trace| ==> Fits(world, trace[..k], trace[k])
      ensures Cancel in trace <==> CancelsBefore(world, Await(trace) + 1)
      ensures Ends(trace) == 0 ==> Cancel in trace
      ensures CompletionFails in trace ==> world.completionFails
    {
      hide Replay, Fits, Explains, Conversation, Uses, Texts, Fails, Await, CancelsBefore;
      var signal := Attempt();
      if signal.Throw? && !cancelled {
        WaitIn(Error(signal.failure));
      }
      ReplaySound(trace, prompt, terms);
      RunCounts(trace, prompt, terms);
      CompletionFailsOnce(world, trace);
    }
  }

  lemma CompletionFailsOnce(world: World, trace: seq<Action>)
    requires forall k :: 0 <= k < |trace| ==> Fits(world, trace[..k], trace[k])
    ensures CompletionFails in trace ==> world.completionFails
  {
    hide Await, Waiting;
    if CompletionFails in trace {
      var k :| 0 <= k < |trace| && trace[k] == CompletionFails;
      assert Fits(world, trace[..k], trace[k]);
    }
  }

  lemma FirstAwait(world: World, prompt: string, terms: Terms)
    ensures Replay([], prompt, terms) == Some(Begin(prompt))
    ensures Await([]) == 0 && Fails(world, []) == (if world.loads then None else Some(LoadFailed))
    ensures !CancelsBefore(world, 0)
  {
  }

  // Handling a response whose first blocks have been looked at for text.
  function SaidSoFar(response: Response, i: nat): Phase
    requires i <= |response.content|
  {
    Handling(response, |Texts(response.content[..i])|, [], Idle)
  }

  lemma NoTexts()
    ensures Texts([]) == []
  {
  }

  lemma TextsMore(content: seq<Block>, i: int)
    requires 0 <= i < |content|
    ensures Texts(content[..i + 1]) ==
            if content[i].TextBlock? && Trim(content[i].text) != "" then Texts(content[..i]) + [content[i].text]
            else Texts(content[..i])
    ensures Texts(content[..i + 1]) <= Texts(content)
  {
    hide Trim;
    TextsPrefix(content, i + 1);
    assert content[..i + 1][..i] == content[..i];
  }

  lemma SayNext(run: Run, response: Response, i: int, terms: Terms)
    requires 0 <= i < |response.content| && run.phase == SaidSoFar(response, i)
    requires response.content[i].TextBlock? && Trim(response.content[i].text) != ""
    ensures Allowed(run, Say(response.content[i].text), terms)
    ensures Next(run, Say(response.content[i].text)) == run.(phase := SaidSoFar(response, i + 1))
  {
    hide Texts, Trim;
    var text := response.content[i].text;
    TextsMore(response.content, i);
    assert Texts(response.content)[|Texts(response.content[..i])|] == text;
  }

  lemma {:induction false} TextsPrefix(content: seq<Block>, k: int)
    requires 0 <= k <= |content|
    ensures Texts(content[..k]) <= Texts(content)
    decreases |content|
  {
    hide Trim;
    if k == |content| {
      assert content[..k] == content;
    } else {
      var init := content[..|content| - 1];
      TextsPrefix(init, k);
      assert init[..k] == content[..k];
    }
  }
}
