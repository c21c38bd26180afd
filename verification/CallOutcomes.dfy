/** What a tool call does, told from its arguments and the decision of the policy: which calls run
    their tool, which ask for an approval, and which are turned away. */
module CallOutcomes {
  import opened Options
  import opened Text
  import opened McpApproval
  import opened ApprovalRuns
  import opened ApprovalGrants

  // A string argument that is given and not blank.
  predicate Given(argument: Option<string>) {
    argument.Some? && Trim(argument.value) != ""
  }

  lemma GivenInput(argument: Option<string>)
    ensures InputString(argument) == if Given(argument) then Some(Trim(argument.value)) else None
  {
  }

  // The events of a call in its session, if it has one.
  function InSessionOf(c: ToolCall, bodies: seq<EventType>): seq<Event> {
    if !Given(c.session) then []
    else seq(|bodies|, i requires 0 <= i < |bodies| => Event(None, Trim(c.session.value), None, bodies[i]))
  }

  function SessionOf(c: ToolCall): Option<string> {
    if Given(c.session) then Some(Trim(c.session.value)) else None
  }

  // What the events of a call are if its tool has started.
  function StartBodies(c: ToolCall): seq<EventType> {
    [ToolCalled(c.name)] + if c.name != "restart_service" then []
                           else if c.succeeds then [ToolSucceeded(c.name)] else [ToolFailed(c.name)]
  }

  lemma AppendsOne(db: Db, c: ToolCall, body: EventType)
    ensures Append(db, SessionOf(c), body) == db.(events := db.events + InSessionOf(c, [body]))
    ensures InputString(c.session) == SessionOf(c)
  {
    hide Trim;
  }

  lemma TwoBodies(events: seq<Event>, c: ToolCall, first: EventType, second: EventType)
    ensures events + InSessionOf(c, [first]) + InSessionOf(c, [second]) == events + InSessionOf(c, [first, second])
  {
  }

  lemma StartIs(c: ToolCall)
    ensures StartBodies(c) ==
            if c.name != "restart_service" then [ToolCalled(c.name)]
            else [ToolCalled(c.name), if c.succeeds then ToolSucceeded(c.name) else ToolFailed(c.name)]
  {
  }

  lemma AppendsEach(c: ToolCall)
    ensures InputString(c.session) == SessionOf(c)
    ensures forall db, body :: Append(db, SessionOf(c), body) == db.(events := db.events + InSessionOf(c, [body]))
    ensures InputString(c.approval).None? <==> !Given(c.approval)
    ensures Given(c.approval) ==> InputString(c.approval) == Some(Trim(c.approval.value))
  {
    hide Trim, Append, InSessionOf, SessionOf;
    forall db, body
      ensures Append(db, SessionOf(c), body) == db.(events := db.events + InSessionOf(c, [body]))
    {
      AppendsOne(db, c, body);
    }
    AppendsOne(Begin(Origin(map[], map[])), c, ToolCalled(""));
  }

  // ----- a mutating tool without an approval: the policy decides

  // With an allow decision the tool runs: nothing is inserted.
  lemma AllowedCall(db: Db, c: ToolCall)
    requires c.name in MUTATING && !Given(c.approval) && c.decision == Allow
    ensures var (after, answer) := Call(db, c);
            && after.trail == db.trail + [Executed(c.name, SessionOf(c), ByPolicy(Allow))]
            && after.approvals == db.approvals
            && after.events == db.events + InSessionOf(c, StartBodies(c))
            && answer == (if c.name != "restart_service" then Started else if c.succeeds then Succeeded else Failed)
            && after.running == if answer.Started? then db.running + [Running(c.name, SessionOf(c))] else db.running
  {
    hide Canonical, Trim, Append, InSessionOf, SessionOf, InputString, StartBodies;
    MutatingHasNoAlias(c.name);
    AppendsEach(c);
    TwoBodies(db.events, c, ToolCalled(c.name), ToolSucceeded(c.name));
    TwoBodies(db.events, c, ToolCalled(c.name), ToolFailed(c.name));
    OneImmediate(c.name);
    StartIs(c);
  }

  lemma OneImmediate(name: string)
    requires name in MUTATING
    ensures name in IMMEDIATE <==> name == "restart_service"
  {
    assert |"create_gitea_issue"| == 18 && |"restart_service"| == 15 && |"read_recent_logs"| == 16;
  }

  // With a denial it does not: nothing is inserted, and the failure is logged.
  lemma DeniedCall(db: Db, c: ToolCall)
    requires c.name in MUTATING && !Given(c.approval) && c.decision == Deny
    ensures var (after, answer) := Call(db, c);
            && answer == DeniedByPolicy && after.trail == db.trail + [Denied(c.name, SessionOf(c))]
            && after.approvals == db.approvals && after.running == db.running
            && after.events == db.events + InSessionOf(c, [ToolCalled(c.name), ToolFailed(c.name)])
  {
    hide Canonical, Trim, Append, InSessionOf, SessionOf, InputString;
    MutatingHasNoAlias(c.name);
    AppendsEach(c);
    TwoBodies(db.events, c, ToolCalled(c.name), ToolFailed(c.name));
  }

  // If it is to ask, a pending row of the call's session and tool is inserted under a new id.
  lemma AskingCall(db: Db, c: ToolCall)
    requires c.name in MUTATING && !Given(c.approval) && c.decision == Prompt
    ensures var (after, answer) := Call(db, c);
            var row := Approval(SessionOf(c), None, "mcp_tool", Some(c.name), Pending);
            if c.freshId in db.approvals
            then answer == IdTaken && after == db.(events := db.events + InSessionOf(c, [ToolCalled(c.name)]))
            else
              && answer == AskedFor(c.freshId) && after.trail == db.trail + [Requested(c.freshId, c.name, SessionOf(c))]
              && after.approvals == db.approvals[c.freshId := row] && after.running == db.running
              && after.events == db.events + InSessionOf(c, [ToolCalled(c.name), ApprovalRequested(c.freshId)])
  {
    hide Canonical, Trim, Append, InSessionOf, SessionOf, InputString;
    MutatingHasNoAlias(c.name);
    AppendsEach(c);
    TwoBodies(db.events, c, ToolCalled(c.name), ApprovalRequested(c.freshId));
  }

  predicate Runs(db: Db, c: ToolCall) {
    |Call(db, c).0.trail| > |db.trail| && Call(db, c).0.trail[|db.trail|].Executed?
  }

  // After any run, a call of a mutating tool that names no approval runs it exactly on an allow
  // decision, inserts a row exactly if it is to ask and the id is new, and is denied exactly on a
  // denial.
  lemma {:induction false} PolicyDecides(origin: Origin, steps: seq<Step>, c: ToolCall)
    requires (c.name == "create_gitea_issue" || c.name == "restart_service") && !Given(c.approval)
    ensures var db := After(origin, steps);
            && (Runs(db, c) <==> c.decision == Allow)
            && (Call(db, c).0.approvals != db.approvals <==> c.decision == Prompt && c.freshId !in db.approvals)
            && (Call(db, c).1 == DeniedByPolicy <==> c.decision == Deny)
  {
    hide After, Call;
    var db := After(origin, steps);
    match c.decision
    case Allow => AllowedCall(db, c);
    case Deny => DeniedCall(db, c);
    case Prompt => AskingCall(db, c);
  }

  // ----- a mutating tool with an approval: the row decides

  // Why the row of the named approval does not let the call through.
  function Refusal(db: Db, c: ToolCall): Option<Answer>
    requires Given(c.approval)
  {
    var id := Trim(c.approval.value);
    if id !in db.approvals then Some(ApprovalNotFound)
    else
      var row := db.approvals[id];
      var elsewhere := Given(c.session) && row.sessionId.Some? && row.sessionId.value != ""
                       && row.sessionId.value != Trim(c.session.value);
      if row.actionType != "mcp_tool" || row.commandPreview != Some(c.name) then Some(OtherTool)
      else if elsewhere then Some(OtherSession)
      else if row.status != Approved then Some(StillWaiting(row.status))
      else None
  }

  lemma RefusalIs(db: Db, c: ToolCall)
    requires Given(c.approval)
    ensures Refusal(db, c) == Objection(db.approvals, Trim(c.approval.value), c.name, SessionOf(c))
  {
    hide Trim;
  }

  lemma NamingCall(db: Db, c: ToolCall)
    requires c.name in MUTATING && Given(c.approval)
    ensures var (after, answer) := Call(db, c);
            if Refusal(db, c).Some?
            then
              && answer == Refusal(db, c).value
              && after == db.(events := db.events + InSessionOf(c, [ToolCalled(c.name)]))
            else
              var id := Trim(c.approval.value);
              && after.trail == db.trail + [Executed(c.name, SessionOf(c), ByApproval(id, db.approvals[id].sessionId))]
              && after.approvals == db.approvals && after.events == db.events + InSessionOf(c, StartBodies(c))
              && answer == (if c.name != "restart_service" then Started else if c.succeeds then Succeeded else Failed)
  {
    hide Canonical, Trim, Refusal, Objection, Append, InSessionOf, SessionOf, InputString, StartBodies;
    MutatingHasNoAlias(c.name);
    OneImmediate(c.name);
    StartIs(c);
    RefusalIs(db, c);
    AppendsEach(c);
    TwoBodies(db.events, c, ToolCalled(c.name), ToolSucceeded(c.name));
    TwoBodies(db.events, c, ToolCalled(c.name), ToolFailed(c.name));
    if Refusal(db, c).None? {
      NoObjection(db.approvals, Trim(c.approval.value), c.name, SessionOf(c));
    }
  }

  // ----- other names

  // The name, or a short one, by which a tool that only reads is called.
  predicate Names(name: string, tool: string) {
    || (name == tool && tool in READ_ONLY)
    || (name == "project_structure" && tool == "get_project_structure")
    || (name == "git_status" && tool == "query_git_status")
    || (name == "recent_logs" && tool == "read_recent_logs")
    || (name == "docker_status" && tool == "get_docker_status")
    || (name == "gitea_issue" && tool == "query_gitea_issue")
  }

  lemma NamesCanonical(name: string)
    ensures forall tool :: Names(name, tool) ==> tool in READ_ONLY && Canonical(name) == tool
    ensures Canonical(name) in READ_ONLY ==> Names(name, Canonical(name))
  {
    ReadOnlyHasNoAlias(name);
  }

  // Any other tool is executed if its name is known, and nothing happens if it is not.
  lemma OtherCall(db: Db, c: ToolCall)
    requires c.name !in MUTATING
    ensures var (after, answer) := Call(db, c);
            && after.approvals == db.approvals
            && (answer != Unsupported <==> exists tool :: Names(c.name, tool))
            && (answer == Unsupported ==> after == db)
            && forall tool :: Names(c.name, tool) ==>
                 tool in READ_ONLY && after.trail == db.trail + [Executed(tool, SessionOf(c), NotNeeded)]
  {
    hide Names, Canonical, Trim, Append, InSessionOf, SessionOf, InputString, Request, Refuse, Objection;
    MutatingHasNoAlias(c.name);
    NamesCanonical(c.name);
    AppendsEach(c);
  }

  lemma ReadOnlyHasNoAlias(name: string)
    ensures name in READ_ONLY ==> Canonical(name) == name
  {
    assert |"get_project_structure"| == 21 && |"query_git_status"| == 16 && |"read_recent_logs"| == 16;
    assert |"get_docker_status"| == 17 && |"query_gitea_issue"| == 17;
    assert |"project_structure"| == 17 && |"git_status"| == 10 && |"recent_logs"| == 11;
    assert |"docker_status"| == 13 && |"gitea_issue"| == 11;
    assert "project_structure"[0] == 'p' && "get_docker_status"[0] == 'g' && "query_gitea_issue"[0] == 'q';
  }

  // ----- whole runs

  // The call names the tool, and is entitled to it: by the policy if it names no approval, and
  // otherwise by the row of the approval it names.
  predicate Entitled(db: Db, c: ToolCall, h: Happening) {
    && h.Executed? && c.name == h.tool && h.session == SessionOf(c)
    && (if !Given(c.approval) then c.decision == Allow && h.grant == ByPolicy(Allow)
        else
          var id := Trim(c.approval.value);
          && id in db.approvals && h.grant == ByApproval(id, db.approvals[id].sessionId)
          && db.approvals[id].status == Approved && db.approvals[id].actionType == "mcp_tool"
          && db.approvals[id].commandPreview == Some(h.tool))
  }

  predicate RunBy(origin: Origin, steps: seq<Step>, k: int, m: int)
  {
    && 0 <= m < |steps| && steps[m].Calls?
    && |After(origin, steps[..m]).trail| == k < |After(origin, steps).trail|
    && Entitled(After(origin, steps[..m]), steps[m].call, After(origin, steps).trail[k])
  }

  // What a step adds to the trail is one happening at most, and it executes a mutating tool only as
  // a call that is entitled to it.
  lemma StepTrail(db: Db, s: Step)
    ensures var after := Do(db, s).trail;
            && db.trail <= after && |after| <= |db.trail| + 1
            && (|after| > |db.trail| && RunsMutating(after[|db.trail|]) ==>
                  s.Calls? && Entitled(db, s.call, after[|db.trail|]))
  {
    hide Call, Resolve, SessionStatus, End, Append, Entitled;
    match s
    case Calls(c) => CallTrail(db, c);
    case Decides(id, approve, _) => ResolveTrail(db, id, approve);
    case Ends(index, succeeds) => EndTrail(db, index, succeeds);
    case Reports(id, word, session) => AppendOnlyAddsEvents(db, Some(session), ReportBody(db, id, word));
    case _ =>
  }

  lemma ResolveTrail(db: Db, id: string, approve: bool)
    ensures var after := Resolve(db, id, approve).0.trail;
            db.trail <= after && |after| <= |db.trail| + 1 && (|after| > |db.trail| ==> after[|db.trail|].Resolved?)
  {
    hide SessionStatus, NameTaken, EventName;
  }

  lemma EndTrail(db: Db, index: nat, succeeds: bool)
    ensures End(db, index, succeeds).0.trail == db.trail
  {
  }

  lemma CallTrail(db: Db, c: ToolCall)
    ensures var after := Call(db, c).0.trail;
            && db.trail <= after && |after| <= |db.trail| + 1
            && (|after| > |db.trail| && RunsMutating(after[|db.trail|]) ==> Entitled(db, c, after[|db.trail|]))
  {
    hide Call, Trim, SessionOf, InSessionOf, StartBodies;
    if c.name !in MUTATING {
      OtherCall(db, c);
      if Call(db, c).1 != Unsupported {
        var tool :| Names(c.name, tool);
        MutatingIsNotReadOnly(tool);
      }
    } else if Given(c.approval) {
      NamingCall(db, c);
    } else {
      match c.decision
      case Allow => AllowedCall(db, c);
      case Deny => DeniedCall(db, c);
      case Prompt => AskingCall(db, c);
    }
  }

  // Every execution of a mutating tool in a run is that of a call which is entitled to it when it is
  // made.
  lemma {:induction false} MutatingIsEntitled(origin: Origin, steps: seq<Step>, k: int) returns (m: int)
    requires 0 <= k < |After(origin, steps).trail| && After(origin, steps).trail[k].Executed?
    requires var tool := After(origin, steps).trail[k].tool; tool == "create_gitea_issue" || tool == "restart_service"
    ensures RunBy(origin, steps, k, m)
  {
    hide Do, Entitled;
    var (init, last) := (steps[..|steps| - 1], steps[|steps| - 1]);
    var before := After(origin, init);
    assert steps == init + [last];
    AfterMore(origin, init, last);
    StepTrail(before, last);
    if k < |before.trail| {
      m := MutatingIsEntitled(origin, init, k);
      assert steps[..m] == init[..m];
    } else {
      m := |init|;
      assert steps[..m] == init;
    }
  }
}
