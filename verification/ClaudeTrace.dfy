/** What a run of the Claude executor shows, told from the blocks of the model's replies, from the
    places of the actions in the trace, and from the world it runs in. */
module ClaudeTrace {
  import opened Options
  import opened Text
  import opened ClaudeLoop

  // ----- the blocks of a reply

  predicate AsksForTool(b: Block) {
    b.ToolBlock? && b.id.Some? && b.name.Some? && b.input.Some?
  }

  function RequestOf(b: Block): Use
    requires AsksForTool(b)
  {
    Use(b.id.value, b.name.value, b.input.value)
  }

  predicate Speaks(b: Block) {
    b.TextBlock? && exists k :: 0 <= k < |b.text| && !IsSpace(b.text[k])
  }

  // The places before the given one where the property holds.
  function Places(content: seq<Block>, holds: Block -> bool, before: int): set<int> {
    set i | 0 <= i < before && i < |content| && holds(content[i])
  }

  lemma PlacesMore(content: seq<Block>, last: Block, holds: Block -> bool)
    ensures forall b :: 0 <= b <= |content| ==> Places(content + [last], holds, b) == Places(content, holds, b)
    ensures |Places(content + [last], holds, |content| + 1)| ==
            |Places(content, holds, |content|)| + if holds(last) then 1 else 0
  {
    var (more, n) := (content + [last], |content|);
    assert Places(more, holds, n + 1) == Places(content, holds, n) + if holds(last) then {n} else {};
  }

  // The request of a block stands where the number of requests before it says.
  lemma {:induction false} UsesByPlace(content: seq<Block>)
    ensures |Uses(content)| == |Places(content, AsksForTool, |content|)|
    ensures forall b :: 0 <= b < |content| && AsksForTool(content[b]) ==>
              var p := |Places(content, AsksForTool, b)|;
              p < |Uses(content)| && Uses(content)[p] == RequestOf(content[b])
  {
    if content == [] {
      assert Places(content, AsksForTool, 0) == {};
    } else {
      var (init, last) := (content[..|content| - 1], content[|content| - 1]);
      UsesByPlace(init);
      assert content == init + [last];
      PlacesMore(init, last, AsksForTool);
      forall b | 0 <= b < |content| && AsksForTool(content[b])
        ensures var p := |Places(content, AsksForTool, b)|;
                p < |Uses(content)| && Uses(content)[p] == RequestOf(content[b])
      {
        assert b < |init| ==> content[b] == init[b];
      }
    }
  }

  lemma SpeaksMeans(b: Block)
    ensures Speaks(b) <==> b.TextBlock? && Trim(b.text) != ""
  {
    hide Trim, IsSpace;
    if b.TextBlock? { TrimsToNothing(b.text); }
  }

  lemma {:induction false} TextsByPlace(content: seq<Block>)
    ensures |Texts(content)| == |Places(content, Speaks, |content|)|
    ensures forall b :: 0 <= b < |content| && Speaks(content[b]) ==>
              var p := |Places(content, Speaks, b)|;
              p < |Texts(content)| && Texts(content)[p] == content[b].text
  {
    hide Trim, IsSpace;
    if content == [] {
      assert Places(content, Speaks, 0) == {};
    } else {
      var (init, last) := (content[..|content| - 1], content[|content| - 1]);
      TextsByPlace(init);
      assert content == init + [last];
      PlacesMore(init, last, Speaks);
      SpeaksMeans(last);
      forall b | 0 <= b < |content| && Speaks(content[b])
        ensures var p := |Places(content, Speaks, b)|;
                p < |Texts(content)| && Texts(content)[p] == content[b].text
      {
        assert b < |init| ==> content[b] == init[b];
      }
    }
  }

  // ----- where the results of a stretch of a trace come from

  predicate GivesResult(a: Action) {
    a.Done? || a.Refuse?
  }

  // The result that the action gives is this one.
  predicate Gives(a: Action, u: Use, result: ToolResult) {
    && result.useId == u.id
    && (a == Done(u, result.content) || (a == Refuse(u) && result.content == "Tool use rejected by user."))
  }

  ghost predicate Increasing(at: seq<int>) {
    forall p, q :: 0 <= p < q < |at| ==> at[p] < at[q]
  }

  // `at` are the places of the actions that give a result.
  ghost predicate GivenAt(trace: seq<Action>, at: seq<int>) {
    && Increasing(at)
    && forall n :: n in at <==> 0 <= n < |trace| && GivesResult(trace[n])
  }

  // The result number `p` is given at `n`.
  predicate ResultAt(trace: seq<Action>, n: int, p: int) {
    && 0 <= n < |trace| && GivesResult(trace[n])
    && p == |ResultsIn(trace[..n])| < |ResultsIn(trace)|
    && Gives(trace[n], trace[n].use, ResultsIn(trace)[p])
  }

  lemma ResultAtMore(trace: seq<Action>, last: Action, n: int, p: int)
    requires 0 <= n < |trace| && ResultAt(trace, n, p)
    ensures ResultAt(trace + [last], n, p)
  {
    hide Gives;
    var more := trace + [last];
    assert more[..|trace|] == trace && more[..n] == trace[..n] && more[n] == trace[n];
    assert ResultsIn(trace) <= ResultsIn(more);
  }

  lemma ResultAtLast(trace: seq<Action>, last: Action)
    ensures if GivesResult(last) then
              |ResultsIn(trace + [last])| == |ResultsIn(trace)| + 1
              && ResultAt(trace + [last], |trace|, |ResultsIn(trace)|)
            else ResultsIn(trace + [last]) == ResultsIn(trace)
  {
    assert (trace + [last])[..|trace|] == trace;
  }

  lemma {:induction false} ResultsByPlace(trace: seq<Action>) returns (at: seq<int>)
    ensures GivenAt(trace, at) && |at| == |ResultsIn(trace)|
    ensures forall p :: 0 <= p < |at| ==> ResultAt(trace, at[p], p)
  {
    hide ResultAt, GivesResult, ResultsIn;
    if trace == [] {
      at := [];
      NoResults();
    } else {
      var (init, last) := (trace[..|trace| - 1], trace[|trace| - 1]);
      var before := ResultsByPlace(init);
      assert trace == init + [last];
      ResultAtLast(init, last);
      at := if GivesResult(last) then before + [|init|] else before;
      forall p | 0 <= p < |before|
        ensures ResultAt(trace, before[p], p)
      {
        assert before[p] in before;
        ResultAtMore(init, last, before[p], p);
      }
      GivenMore(init, last, before);
    }
  }

  lemma GivenMore(trace: seq<Action>, last: Action, at: seq<int>)
    requires GivenAt(trace, at)
    ensures GivenAt(trace + [last], if GivesResult(last) then at + [|trace|] else at)
  {
    hide GivesResult;
    var (more, at') := (trace + [last], if GivesResult(last) then at + [|trace|] else at);
    assert forall p :: 0 <= p < |at| ==> at[p] in at;
    forall n
      ensures n in at' <==> 0 <= n < |more| && GivesResult(more[n])
    {
      assert 0 <= n < |trace| ==> more[n] == trace[n];
      assert n in at' <==> n in at || (GivesResult(last) && n == |trace|);
    }
  }

  lemma NoResults()
    ensures ResultsIn([]) == []
  {
  }

  // ----- the rounds

  // The action at `n` answers the request whose turn it is.
  lemma InTurn(trace: seq<Action>, j: int, i: int, n: int, prompt: string, terms: Terms)
    requires Follows(trace, prompt, terms) && 0 <= j < i < n < |trace|
    requires trace[j].ModelCall? && NoCallBetween(trace, j, n) && trace[i].Reply? && GivesResult(trace[n])
    ensures var (uses, p) := (Uses(trace[i].response.content), |ResultsIn(trace[i + 1..n])|);
            p < |uses| && trace[n].use == uses[p]
  {
    hide Replay, Uses, NeedsApproval, ResultsIn;
    var i' := SinceCall(trace, j, n, prompt, terms);
    PrefixFollows(trace, n, prompt, terms);
  }

  lemma NoCallBefore(trace: seq<Action>, j: int, n: int, k: int)
    requires NoCallBetween(trace, j, k) && n <= k
    ensures NoCallBetween(trace, j, n)
  {
  }

  // The result belongs to the block `b` of the reply, and the action at `n` has given it.
  predicate BlockAnswered(content: seq<Block>, b: int, trace: seq<Action>, n: int, result: ToolResult) {
    && 0 <= b < |content| && AsksForTool(content[b]) && 0 <= n < |trace|
    && Gives(trace[n], RequestOf(content[b]), result)
  }

  // Between two calls, `at` being the places since the reply at `i` where a result is given.
  ghost predicate AnswersIn(trace: seq<Action>, i: int, k: int, at: seq<int>) {
    && 0 <= i < k <= |trace| && Increasing(at)
    && forall n :: n in at <==> i < n < k && GivesResult(trace[n])
  }

  // Every call after the first sends, after the conversation of the call before it and the reply to
  // that, one result for each well-formed tool block of the reply and no other. That of a block stands
  // where the number of such blocks before it says; it carries the id of the block, and is what its
  // tool has returned, called with its name and its input, or the fixed text if the user refused.
  lemma EveryBlockAnswered(trace: seq<Action>, j: int, k: int, prompt: string, terms: Terms)
    returns (i: int, at: seq<int>, results: seq<ToolResult>)
    requires Follows(trace, prompt, terms) && 0 <= j < k < |trace|
    requires trace[j].ModelCall? && trace[k].ModelCall? && NoCallBetween(trace, j, k)
    ensures j < i < k && trace[i].Reply? && forall m :: j < m < k && trace[m].Reply? ==> m == i
    ensures trace[k].conversation ==
            trace[j].conversation + [Assistant(trace[i].response.content), Results(results)]
    ensures AnswersIn(trace, i, k, at)
    ensures var content := trace[i].response.content;
            && |results| == |at| == |Places(content, AsksForTool, |content|)| > 0
            && forall b :: 0 <= b < |content| && AsksForTool(content[b]) ==>
                 var p := |Places(content, AsksForTool, b)|;
                 p < |at| && BlockAnswered(content, b, trace, at[p], results[p])
  {
    hide Replay, Uses, ResultsIn, NeedsApproval, Gives, GivesResult, Increasing;
    i := EveryCallExtends(trace, j, k, prompt, terms);
    var (content, since) := (trace[i].response.content, trace[i + 1..k]);
    results := ResultsIn(since);
    var places := ResultsByPlace(since);
    UsesByPlace(content);
    at := seq(|places|, p requires 0 <= p < |places| => i + 1 + places[p]);
    ShiftedPlaces(trace, i, k, places, at);
    forall b | 0 <= b < |content| && AsksForTool(content[b])
      ensures var p := |Places(content, AsksForTool, b)|;
              p < |at| && BlockAnswered(content, b, trace, at[p], results[p])
    {
      PlaceAnswered(trace, j, i, k, places[|Places(content, AsksForTool, b)|], b, prompt, terms);
    }
  }

  lemma PlaceAnswered(trace: seq<Action>, j: int, i: int, k: int, m: int, b: int, prompt: string, terms: Terms)
    requires Follows(trace, prompt, terms) && 0 <= j < i < k <= |trace|
    requires trace[j].ModelCall? && NoCallBetween(trace, j, k) && trace[i].Reply?
    requires 0 <= b < |trace[i].response.content| && AsksForTool(trace[i].response.content[b])
    requires ResultAt(trace[i + 1..k], m, |Places(trace[i].response.content, AsksForTool, b)|)
    ensures var (content, since) := (trace[i].response.content, trace[i + 1..k]);
            BlockAnswered(content, b, trace, i + 1 + m, ResultsIn(since)[|Places(content, AsksForTool, b)|])
  {
    hide Replay, Uses, ResultsIn, NeedsApproval, Gives, GivesResult;
    var (content, since, n) := (trace[i].response.content, trace[i + 1..k], i + 1 + m);
    assert trace[n] == since[m] && since[..m] == trace[i + 1..n];
    NoCallBefore(trace, j, n, k);
    InTurn(trace, j, i, n, prompt, terms);
    UsesByPlace(content);
  }

  lemma ShiftedPlaces(trace: seq<Action>, i: int, k: int, places: seq<int>, at: seq<int>)
    requires 0 <= i < k <= |trace| && GivenAt(trace[i + 1..k], places)
    requires |at| == |places| && forall p :: 0 <= p < |at| ==> at[p] == i + 1 + places[p]
    ensures AnswersIn(trace, i, k, at)
  {
    var since := trace[i + 1..k];
    forall n
      ensures n in at <==> i < n < k && GivesResult(trace[n])
    {
      if i < n < k && GivesResult(trace[n]) {
        assert since[n - i - 1] == trace[n];
        var p :| 0 <= p < |places| && places[p] == n - i - 1;
        assert at[p] == n;
      }
      if n in at {
        var p :| 0 <= p < |at| && at[p] == n;
        assert places[p] in places && since[places[p]] == trace[n];
      }
    }
  }

  // ----- which action may come after which

  // The last action that is not the arrival of a cancellation.
  function Last(trace: seq<Action>): Option<Action> {
    if trace == [] then None
    else if trace[|trace| - 1].Cancel? then Last(trace[..|trace| - 1])
    else Some(trace[|trace| - 1])
  }

  // The texts said since the last reply.
  function SaidSince(trace: seq<Action>): seq<string> {
    if trace == [] then []
    else
      var (before, a) := (SaidSince(trace[..|trace| - 1]), trace[|trace| - 1]);
      match a
      case Reply(_) => []
      case Say(text) => before + [text]
      case _ => before
  }

  function LastReply(trace: seq<Action>): Option<Response> {
    if trace == [] then None
    else if trace[|trace| - 1].Reply? then Some(trace[|trace| - 1].response)
    else LastReply(trace[..|trace| - 1])
  }

  lemma TraceMore(trace: seq<Action>, a: Action)
    ensures Last(trace + [a]) == if a.Cancel? then Last(trace) else Some(a)
    ensures LastReply(trace + [a]) == if a.Reply? then Some(a.response) else LastReply(trace)
    ensures SaidSince(trace + [a]) ==
            if a.Reply? then [] else if a.Say? then SaidSince(trace) + [a.text] else SaidSince(trace)
  {
    assert (trace + [a])[..|trace|] == trace;
  }

  // The request is over: it was refused, or its result is noted, or blank.
  predicate EndsRequest(a: Action) {
    a.Refuse? || a.Note? || (a.Done? && Trim(a.output) == "")
  }

  // What the stage of a run says of the last action.
  ghost predicate Remembers(run: Run, last: Option<Action>, terms: Terms) {
    match run.phase
    case Fresh => last.None?
    case Calling => last.Some? && last.value.ModelCall?
    case Completing => last == Some(Complete)
    case Broken => last == Some(CompletionFails)
    case Over => last.Some? && last.value.Error?
    case Handling(_, _, results, stage) =>
      && last.Some? && var a := last.value;
      match stage
      case Idle => if results == [] then a.Reply? || a.Say? else EndsRequest(a)
      case Announced => a.Announce? && Pending(run, a.use) && a.warn == NeedsApproval(terms, a.use)
      case Asked => a.Ask? && Pending(run, a.use)
      case Decided(approved) => a.Decide? && a.approved == approved && Pending(run, a.use)
      case Started => a.Start? && Pending(run, a.use)
      case Unreported =>
        a.Done? && results != [] && results[|results| - 1].content == a.output && Trim(a.output) != ""
  }

  // A request is taken up only after all texts.
  predicate Shows(run: Run, trace: seq<Action>) {
    && (run.phase.Fresh? ==> LastReply(trace).None?)
    && (run.phase.Handling? ==>
          && LastReply(trace) == Some(run.phase.response)
          && run.phase.said <= |Texts(run.phase.response.content)|
          && SaidSince(trace) == Texts(run.phase.response.content)[..run.phase.said]
          && (run.phase.results != [] || !run.phase.stage.Idle? ==>
                AllSaid(run) && run.phase.response.stop.ToolUse?))
  }

  lemma RemembersMore(run: Run, last: Option<Action>, a: Action, terms: Terms)
    requires Remembers(run, last, terms) && Allowed(run, a, terms) && !a.Cancel?
    ensures Remembers(Next(run, a), Some(a), terms)
  {
    hide Uses, Texts, NeedsApproval, Trim;
  }

  lemma ShowsMore(run: Run, trace: seq<Action>, a: Action, terms: Terms)
    requires Shows(run, trace) && Allowed(run, a, terms)
    ensures Shows(Next(run, a), trace + [a])
  {
    hide Uses, Texts, NeedsApproval, Trim, LastReply, SaidSince;
    TraceMore(trace, a);
  }

  lemma {:induction false} Kept(trace: seq<Action>, prompt: string, terms: Terms)
    requires Follows(trace, prompt, terms)
    ensures var run := Replay(trace, prompt, terms).value;
            Remembers(run, Last(trace), terms) && Shows(run, trace)
  {
    hide Allowed, Next, Remembers, Shows, Last;
    if trace == [] {
      NothingKept(prompt, terms);
    } else {
      var (init, a) := (trace[..|trace| - 1], trace[|trace| - 1]);
      Kept(init, prompt, terms);
      assert trace == init + [a];
      TraceMore(init, a);
      var run := Replay(init, prompt, terms).value;
      ShowsMore(run, init, a, terms);
      if a.Cancel? { CancelRemembers(run, Last(init), terms); } else { RemembersMore(run, Last(init), a, terms); }
    }
  }

  lemma NothingKept(prompt: string, terms: Terms)
    ensures Remembers(Begin(prompt), Last([]), terms) && Shows(Begin(prompt), [])
  {
  }

  lemma CancelRemembers(run: Run, last: Option<Action>, terms: Terms)
    requires Remembers(run, last, terms)
    ensures Remembers(Next(run, Cancel), last, terms)
  {
    hide NeedsApproval, Uses, Trim;
  }

  // Some pattern or path test objects to what the request is described as, and the task does not
  // approve everything by itself.
  predicate Objected(terms: Terms, u: Use) {
    && !terms.autoApprove && terms.describe(u).Some?
    && var (rules, d) := (terms.rules, terms.describe(u).value);
       || (d.commandPreview.Some? && d.commandPreview.value != "" && var command := d.commandPreview.value;
           rules.critical(command) || rules.high(command) || rules.medium(command))
       || exists i :: 0 <= i < |d.targetPaths| && (rules.outside(d.targetPaths[i]) || rules.sensitive(d.targetPaths[i]))
  }

  lemma ObjectedMeans(terms: Terms, u: Use)
    ensures NeedsApproval(terms, u) <==> Objected(terms, u)
  {
    if terms.describe(u).Some? { RiskyMeans(terms.rules, terms.describe(u).value); }
  }

  // How high a risk is: what the tables say of the command, and what is outside or sensitive.
  lemma RiskyMeans(rules: Rules, d: Description)
    ensures var (given, command) := (HasCommand(d), if d.commandPreview.Some? then d.commandPreview.value else "");
            && (given <==> d.commandPreview.Some? && d.commandPreview.value != "")
            && (Risky(rules, d) <==>
                  || (given && (rules.critical(command) || rules.high(command) || rules.medium(command)))
                  || exists i :: 0 <= i < |d.targetPaths| &&
                                 (rules.outside(d.targetPaths[i]) || rules.sensitive(d.targetPaths[i])))
  {
    assert forall i :: 0 <= i < |d.targetPaths| ==>
        (PathRisk(rules, d.targetPaths[i]).requiresApproval <==>
           rules.outside(d.targetPaths[i]) || rules.sensitive(d.targetPaths[i]));
  }

  lemma AssessedMeans(rules: Rules, d: Description)
    ensures var (given, command) := (HasCommand(d), if d.commandPreview.Some? then d.commandPreview.value else "");
            && (AssessedAs(rules, d, Critical) <==>
                  || (given && rules.critical(command))
                  || exists i :: 0 <= i < |d.targetPaths| && rules.outside(d.targetPaths[i]))
            && (AssessedAs(rules, d, High) <==>
                  || (given && rules.high(command) && !rules.critical(command))
                  || exists i :: 0 <= i < |d.targetPaths| &&
                                 rules.sensitive(d.targetPaths[i]) && !rules.outside(d.targetPaths[i]))
            && (AssessedAs(rules, d, Medium) <==>
                  given && rules.medium(command) && !rules.high(command) && !rules.critical(command))
  {
    forall i | 0 <= i < |d.targetPaths|
      ensures var (path, level) := (d.targetPaths[i], PathRisk(rules, d.targetPaths[i]).level);
              && (level == Critical <==> rules.outside(path)) && level != Medium
              && (level == High <==> rules.sensitive(path) && !rules.outside(path))
    {
    }
  }

  // What is logged of a result: its first 1200 characters, but for white space at the ends, and how
  // many there are more.
  predicate NotedOf(output: string, text: string, omitted: nat) {
    var whole := Trim(output);
    && whole != "" && |text| == (if |whole| < 1200 then |whole| else 1200)
    && text == whole[..|text|] && omitted == |whole| - |text|
  }

  // Which action may come directly after which, arrivals of a cancellation aside.
  ghost predicate After(last: Option<Action>, a: Action, terms: Terms) {
    match a
    case Cancel => true
    case ModelCall(_) => last.None? || EndsRequest(last.value)
    case Reply(_) => last.Some? && last.value.ModelCall?
    case Say(_) => last.Some? && (last.value.Reply? || last.value.Say?)
    case Announce(u, warn) =>
      && last.Some? && (last.value.Reply? || last.value.Say? || EndsRequest(last.value))
      && (warn <==> Objected(terms, u)) && terms.describe(u).Some?
    case Ask(u) => last == Some(Announce(u, true))
    case Decide(u, _) => last == Some(Ask(u))
    case Start(u) => last == Some(Announce(u, false)) || last == Some(Decide(u, true))
    case Done(u, _) => last == Some(Start(u))
    case Refuse(u) => last == Some(Decide(u, false))
    case Note(text, omitted) => last.Some? && last.value.Done? && NotedOf(last.value.output, text, omitted)
    case Complete => last.Some? && (last.value.Reply? || last.value.Say?)
    case CompletionFails => last == Some(Complete)
    case Error(_) => true
  }

  lemma OneUse(run: Run, u: Use, v: Use)
    requires Pending(run, u) && Pending(run, v)
    ensures u == v
  {
    hide Uses;
  }

  // In every trace, each action comes after one that calls for it: a tool starts after the
  // announcement that asks for no approval, or after its grant; what it has returned comes after its
  // start; the result is noted as far as the limit allows.
  lemma EachAfter(trace: seq<Action>, k: int, prompt: string, terms: Terms)
    requires Follows(trace, prompt, terms) && 0 <= k < |trace|
    ensures After(Last(trace[..k]), trace[k], terms)
  {
    hide Replay, Next, Last, Uses, Texts, Objected, NeedsApproval, Trim, Pending;
    PrefixFollows(trace, k, prompt, terms);
    Kept(trace[..k], prompt, terms);
    var (run, last, a) := (Replay(trace[..k], prompt, terms).value, Last(trace[..k]), trace[k]);
    OneAfter(run, last, a, terms);
  }

  lemma OneAfter(run: Run, last: Option<Action>, a: Action, terms: Terms)
    requires Remembers(run, last, terms) && Allowed(run, a, terms)
    requires run.phase.Handling? && run.phase.results != [] ==> run.phase.response.stop.ToolUse?
    ensures After(last, a, terms)
  {
    hide Uses, Texts, Objected, NeedsApproval, Trim;
    if last.Some? && (last.value.Announce? || last.value.Ask? || last.value.Decide? || last.value.Start?)
       && (a.Ask? || a.Decide? || a.Start? || a.Done? || a.Refuse?) {
      if Pending(run, last.value.use) && Pending(run, a.use) { OneUse(run, last.value.use, a.use); }
    }
    if a.Announce? || a.Ask? || a.Start? { ObjectedMeans(terms, a.use); }
    if a.Note? && last.Some? && last.value.Done? {
      assert Trim(last.value.output)[..|Trim(last.value.output)|] == Trim(last.value.output);
    }
  }

  // ----- what a reply leads to

  // The results given since the last reply.
  function ResultsSince(trace: seq<Action>): seq<ToolResult> {
    if trace == [] then []
    else
      var (before, a) := (ResultsSince(trace[..|trace| - 1]), trace[|trace| - 1]);
      match a
      case Reply(_) => []
      case Done(u, output) => before + [ToolResult(u.id, output)]
      case Refuse(u) => before + [ToolResult(u.id, "Tool use rejected by user.")]
      case _ => before
  }

  // Block `b` holds the tool request that follows `answered` others.
  predicate NextRequest(content: seq<Block>, b: int, answered: nat, u: Use) {
    && 0 <= b < |content| && AsksForTool(content[b]) && RequestOf(content[b]) == u
    && |Places(content, AsksForTool, b)| == answered
  }

  lemma {:induction false} PlaceOf(content: seq<Block>, p: nat) returns (b: int)
    requires p < |Uses(content)|
    ensures NextRequest(content, b, p, Uses(content)[p])
  {
    var (init, last) := (content[..|content| - 1], content[|content| - 1]);
    assert content == init + [last];
    UsesByPlace(init);
    PlacesMore(init, last, AsksForTool);
    if p < |Uses(init)| {
      b := PlaceOf(init, p);
      assert content[b] == init[b];
    } else {
      b := |init|;
    }
  }

  // Exactly the texts of the reply that are not blank, in order.
  ghost predicate SaysAll(content: seq<Block>, said: seq<string>) {
    && |said| == |Places(content, Speaks, |content|)|
    && forall b :: 0 <= b < |content| && Speaks(content[b]) ==>
         var p := |Places(content, Speaks, b)|; p < |said| && said[p] == content[b].text
  }

  // What the action needs of the reply before it, of the texts said and the results given since.
  ghost predicate Meets(reply: Response, said: seq<string>, results: seq<ToolResult>, a: Action, terms: Terms) {
    var (content, stop) := (reply.content, reply.stop);
    var none := Places(content, AsksForTool, |content|) == {};
    match a
    case ModelCall(_) => SaysAll(content, said) && stop.ToolUse? && !none
    case Announce(u, _) =>
      SaysAll(content, said) && stop.ToolUse? && exists b :: NextRequest(content, b, |results|, u)
    case Complete => SaysAll(content, said) && stop.EndTurn?
    case Error(DiffFailed) => SaysAll(content, said) && stop.EndTurn?
    case Error(UnexpectedStop) => SaysAll(content, said) && stop.OtherStop?
    case Error(NoToolBlocks) => SaysAll(content, said) && stop.ToolUse? && none
    case Error(MalformedInput) =>
      && SaysAll(content, said) && stop.ToolUse?
      && exists b, u :: NextRequest(content, b, |results|, u) && terms.describe(u).None?
    case Error(TooManyRounds) => SaysAll(content, said) && stop.ToolUse? && !none
    case _ => true
  }

  predicate NeedsReply(a: Action) {
    || a.Announce? || a.Complete? || a == Error(DiffFailed) || a == Error(UnexpectedStop)
    || a == Error(NoToolBlocks) || a == Error(MalformedInput)
  }

  lemma ResultsMore(run: Run, trace: seq<Action>, a: Action, terms: Terms)
    requires run.phase.Handling? ==> run.phase.results == ResultsSince(trace)
    requires Allowed(run, a, terms)
    ensures Next(run, a).phase.Handling? ==> Next(run, a).phase.results == ResultsSince(trace + [a])
  {
    hide Uses, Texts, NeedsApproval, Trim;
    assert (trace + [a])[..|trace|] == trace;
  }

  lemma {:induction false} ResultsKept(trace: seq<Action>, prompt: string, terms: Terms)
    requires Follows(trace, prompt, terms)
    ensures var run := Replay(trace, prompt, terms).value;
            run.phase.Handling? ==> run.phase.results == ResultsSince(trace)
  {
    hide Allowed, Next, ResultsSince;
    if trace != [] {
      var (init, a) := (trace[..|trace| - 1], trace[|trace| - 1]);
      ResultsKept(init, prompt, terms);
      assert trace == init + [a];
      ResultsMore(Replay(init, prompt, terms).value, init, a, terms);
    }
  }

  lemma AllSaidMeans(run: Run, trace: seq<Action>)
    requires Shows(run, trace) && AllSaid(run)
    ensures LastReply(trace) == Some(run.phase.response) && SaysAll(run.phase.response.content, SaidSince(trace))
  {
    hide Texts, Places, Speaks, LastReply, SaidSince;
    TextsByPlace(run.phase.response.content);
    assert SaidSince(trace) == Texts(run.phase.response.content);
  }

  lemma NoPlaces(content: seq<Block>)
    ensures Uses(content) == [] <==> Places(content, AsksForTool, |content|) == {}
  {
    hide Places;
    UsesByPlace(content);
  }

  // In every trace: after a reply, all of its texts are said first; then a reply that ends the turn
  // leads to the end, one that asks for tools to its requests in order, and every other one to an
  // error, as do a request that cannot be read, a lack of requests, and the last round.
  lemma ReplyRules(trace: seq<Action>, k: int, prompt: string, terms: Terms)
    requires Follows(trace, prompt, terms) && 0 <= k < |trace|
    ensures var (reply, a) := (LastReply(trace[..k]), trace[k]);
            && (reply.None? ==> !NeedsReply(a))
            && (reply.Some? ==> Meets(reply.value, SaidSince(trace[..k]), ResultsSince(trace[..k]), a, terms))
            && (a == Error(TooManyRounds) ==> Calls(trace[..k]) == terms.maxRounds)
  {
    hide Replay, Next, Last, Uses, Texts, NeedsApproval, Trim, SaysAll, Places, LastReply, SaidSince, ResultsSince,
      Calls;
    PrefixFollows(trace, k, prompt, terms);
    Kept(trace[..k], prompt, terms);
    ResultsKept(trace[..k], prompt, terms);
    RunCounts(trace[..k], prompt, terms);
    MeetsOne(trace[..k], Replay(trace[..k], prompt, terms).value, trace[k], terms);
  }

  lemma MeetsOne(trace: seq<Action>, run: Run, a: Action, terms: Terms)
    requires Shows(run, trace) && Remembers(run, Last(trace), terms) && Allowed(run, a, terms)
    requires run.phase.Handling? ==> run.phase.results == ResultsSince(trace)
    ensures var reply := LastReply(trace);
            && (reply.None? ==> !NeedsReply(a))
            && (reply.Some? ==> Meets(reply.value, SaidSince(trace), ResultsSince(trace), a, terms))
  {
    hide Last, Uses, Texts, NeedsApproval, Trim, SaysAll, Places, LastReply, SaidSince, ResultsSince;
    if run.phase.Handling? {
      var content := run.phase.response.content;
      NoPlaces(content);
      if AllSaid(run) { AllSaidMeans(run, trace); }
      if |run.phase.results| < |Uses(content)| {
        var u := Uses(content)[|run.phase.results|];
        var b := PlaceOf(content, |run.phase.results|);
        assert NextRequest(content, b, |ResultsSince(trace)|, u);
        assert forall v :: Pending(run, v) ==> v == u;
      }
    }
  }

  // ----- what the world has to do with it

  ghost predicate FitsWorld(world: World, trace: seq<Action>) {
    forall k :: 0 <= k < |trace| ==> Fits(world, trace[..k], trace[k])
  }

  // An action that does not wait comes while the await of the action before it is the last one.
  lemma AwaitOfLast(trace: seq<Action>)
    requires trace != [] && Waits(trace[|trace| - 1])
    ensures Waiting(trace) == Some(trace[|trace| - 1])
  {
  }

  lemma {:induction false} WaitingIsLast(trace: seq<Action>)
    requires Last(trace).Some? && Waits(Last(trace).value)
    ensures Waiting(trace) == Last(trace)
  {
    if trace[|trace| - 1].Cancel? { WaitingIsLast(trace[..|trace| - 1]); }
  }

  // A cancellation shows where it arrives, which is while an action waits; the task is completed only
  // with its difference at hand.
  lemma ArrivesWaiting(world: World, trace: seq<Action>, k: int)
    requires FitsWorld(world, trace) && 0 <= k < |trace|
    ensures trace[k].Cancel? ==>
              && world.cancels(Await(trace[..k]))
              && (k > 0 ==> !trace[k - 1].Reply? && !trace[k - 1].Decide? && !trace[k - 1].Done?
                            && !trace[k - 1].Cancel? && !trace[k - 1].CompletionFails?)
    ensures trace[k].Complete? ==> !world.diffFails
    ensures trace[k] == Error(DiffFailed) ==> world.diffFails
  {
    hide Await, Waiting;
    assert Fits(world, trace[..k], trace[k]);
    if Fails(world, trace[..k]).Some? { NeverDiff(world, trace[..k]); }
  }

  lemma NeverDiff(world: World, trace: seq<Action>)
    ensures Fails(world, trace) != Some(DiffFailed)
  {
    hide Await, Waiting;
  }

  // What may come after an action that waits, or that says how waiting has ended: the reply to the
  // call, the user's decision on this very request, what this very tool has returned; and nothing but
  // an error after an event that could not be delivered.
  predicate Follow(world: World, t: nat, last: Action, a: Action) {
    match last
    case ModelCall(_) => a == if world.replies(t).Some? then Reply(world.replies(t).value) else Error(ModelFailed)
    case Ask(u) => a == if world.decides(t).Some? then Decide(u, world.decides(t).value) else Error(DecisionFailed)
    case Start(u) => a == if world.tool(t).Some? then Done(u, world.tool(t).value) else Error(ToolFailed)
    case Complete => world.completionFails && a == CompletionFails
    case CompletionFails => a == Error(CompletionFailed)
    case Decide(u, approved) => a == if approved then Start(u) else Refuse(u)
    case Error(_) => false
    case Announce(u, warn) =>
      a == if world.eventFails(t) then Error(EventFailed) else if warn then Ask(u) else Start(u)
    case Done(_, output) => if Trim(output) != "" then a.Note? else a != Error(EventFailed)
    case Reply(_) => a != Error(EventFailed)
    case _ => a == Error(EventFailed) <==> world.eventFails(t)
  }

  // In every trace that fits its world, each action is what the last await has brought, arrivals of a
  // cancellation aside.
  lemma FromOutside(world: World, trace: seq<Action>, k: int, prompt: string, terms: Terms)
    requires Follows(trace, prompt, terms) && FitsWorld(world, trace) && 0 <= k < |trace| && !trace[k].Cancel?
    ensures var (t, last, a) := (Await(trace[..k]), Last(trace[..k]), trace[k]);
            && (last.None? ==>
                  if world.loads then a.ModelCall? || a == Error(TooManyRounds) else a == Error(LoadFailed))
            && (last.Some? ==> Follow(world, t, last.value, a))
  {
    hide Await, Waiting, Last, Replay, Next, Remembers, Allowed, Fits, Fails, Uses, Texts, Conversation;
    PrefixFollows(trace, k, prompt, terms);
    Kept(trace[..k], prompt, terms);
    var last := Last(trace[..k]);
    if last.None? {
      NeverWaited(trace[..k]);
    } else if Waits(last.value) {
      WaitingIsLast(trace[..k]);
    } else {
      assert forall m :: 0 <= m < k ==> trace[..k][..m] == trace[..m];
      FailsBehind(world, trace[..k], prompt, terms);
    }
    ReplaySound(trace[..k], prompt, terms);
    EndOfAwait(world, trace[..k], Replay(trace[..k], prompt, terms).value, trace[k], terms);
  }

  lemma EndOfAwait(world: World, trace: seq<Action>, run: Run, a: Action, terms: Terms)
    requires Remembers(run, Last(trace), terms) && Allowed(run, a, terms) && Fits(world, trace, a) && !a.Cancel?
    requires if Last(trace).None? then Waiting(trace).None?
             else if Waits(Last(trace).value) then Waiting(trace) == Last(trace)
             else Fails(world, trace) == if Last(trace) == Some(CompletionFails) then Some(CompletionFailed) else None
    requires run.phase.Handling? && run.phase.results != [] ==>
               run.phase.response.stop.ToolUse? && Uses(run.phase.response.content) != []
    ensures var (t, last) := (Await(trace), Last(trace));
            && (last.None? ==>
                  if world.loads then a.ModelCall? || a == Error(TooManyRounds) else a == Error(LoadFailed))
            && (last.Some? ==> Follow(world, t, last.value, a))
  {
    hide Await, Waiting, Last, Uses, Texts, NeedsApproval, Trim;
  }

  // After an action that does not wait, the await before it has not failed, but for the completion.
  lemma FailsBehind(world: World, trace: seq<Action>, prompt: string, terms: Terms)
    requires Follows(trace, prompt, terms) && FitsWorld(world, trace)
    requires Last(trace).Some? && !Waits(Last(trace).value)
    ensures Fails(world, trace) == if Last(trace) == Some(CompletionFails) then Some(CompletionFailed) else None
  {
    hide Await, Waiting, Replay, Objected, Trim;
    var (init, a) := (trace[..|trace| - 1], trace[|trace| - 1]);
    PrefixFollows(trace, |init|, prompt, terms);
    assert trace == init + [a] && Fits(world, init, a);
    assert forall m :: 0 <= m < |init| ==> trace[..m] == init[..m];
    Awaited(world, init, a);
    hide After, Fits, Fails;
    if !a.Cancel? {
      EachAfter(trace, |init|, prompt, terms);
      if Last(init).Some? && Waits(Last(init).value) { WaitingIsLast(init); }
      FailsBefore(world, init, a, terms);
    } else {
      CancelsInAwait(world, init);
    }
  }

  lemma CancelsInAwait(world: World, trace: seq<Action>)
    requires Fits(world, trace, Cancel)
    ensures trace == [] || (Last(trace).Some? && Waits(Last(trace).value))
  {
  }

  lemma FailsBefore(world: World, trace: seq<Action>, a: Action, terms: Terms)
    requires After(Last(trace), a, terms) && Fits(world, trace, a) && !Waits(a) && !a.Cancel?
    requires Last(trace).Some? && Waits(Last(trace).value) ==> Waiting(trace) == Last(trace)
    ensures Fails(world, trace) == if a.CompletionFails? then Some(CompletionFailed) else None
  {
    hide Await, Waiting, Last, Objected, Trim, NotedOf, EndsRequest;
  }

  lemma {:induction false} NeverWaited(trace: seq<Action>)
    requires Last(trace).None?
    ensures Waiting(trace).None?
  {
    if trace != [] { NeverWaited(trace[..|trace| - 1]); }
  }

  lemma {:induction false} LastUncancelled(trace: seq<Action>)
    requires Cancel !in trace && trace != []
    ensures Last(trace) == Some(trace[|trace| - 1])
  {
    assert trace[|trace| - 1] in trace;
  }

  // A tool to which some pattern or path test objects starts right after its announcement, the
  // question and the user's consent to this very request; any other right after its announcement.
  lemma GrantedStart(world: World, trace: seq<Action>, k: int, prompt: string, terms: Terms)
    requires Follows(trace, prompt, terms) && FitsWorld(world, trace) && 0 <= k < |trace| && trace[k].Start?
    ensures Cancel !in trace[..k]
    ensures var u := trace[k].use;
            if Objected(terms, u) then
              && k >= 3 && trace[k - 3..k] == [Announce(u, true), Ask(u), Decide(u, true)]
              && world.decides(Await(trace[..k - 1])) == Some(true)
            else k >= 1 && trace[k - 1] == Announce(u, false)
  {
    hide Replay, Last, Objected, Await, Waiting, Trim, Fits, Follows, EndsRequest, NotedOf;
    var u := trace[k].use;
    GuardedStart(trace, k, prompt, terms);
    UncancelledBefore(trace, k, prompt, terms);
    if trace[k - 1].Decide? {
      UncancelledBefore(trace, k - 1, prompt, terms);
      UncancelledBefore(trace, k - 2, prompt, terms);
      UncancelledBefore(trace, k - 3, prompt, terms);
      DecidedOutside(world, trace, k - 1);
    } else {
      UncancelledBefore(trace, k - 1, prompt, terms);
    }
  }

  lemma DecidedOutside(world: World, trace: seq<Action>, k: int)
    requires FitsWorld(world, trace) && 0 <= k < |trace| && trace[k].Decide?
    ensures world.decides(Await(trace[..k])) == Some(trace[k].approved)
  {
    hide Await;
    assert Fits(world, trace[..k], trace[k]);
  }

  lemma UncancelledBefore(trace: seq<Action>, k: int, prompt: string, terms: Terms)
    requires Follows(trace, prompt, terms) && 0 <= k < |trace| && Cancel !in trace[..k]
    ensures After(if k == 0 then None else Some(trace[k - 1]), trace[k], terms)
    ensures forall m :: 0 <= m <= k ==> Cancel !in trace[..m]
  {
    hide Replay, Objected, Trim, Follows;
    EachAfter(trace, k, prompt, terms);
    if k > 0 { LastUncancelled(trace[..k]); }
    forall m | 0 <= m <= k
      ensures Cancel !in trace[..m]
    {
      assert trace[..m] <= trace[..k];
    }
  }

  // Once a cancellation has arrived, nothing begins: no call, no request, no tool, no refusal, and no
  // callback that ends the task.
  lemma QuietAfterCancel(trace: seq<Action>, k: int, prompt: string, terms: Terms)
    requires Follows(trace, prompt, terms) && 0 <= k < |trace| && Cancel in trace[..k]
    ensures var a := trace[k];
            !(a.ModelCall? || a.Announce? || a.Start? || a.Refuse? || a.Complete? || a.Error?)
  {
    hide Replay, Uses, Texts, NeedsApproval, Conversation;
    PrefixFollows(trace, k, prompt, terms);
    RunCounts(trace[..k], prompt, terms);
  }
}
