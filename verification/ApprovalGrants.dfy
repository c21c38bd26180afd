/** What lets a mutating MCP tool run. An approval that a call requested does, once it is approved.
    So does one that a task brought along: the table has both, and `callTool` looks at the action
    type and the command only. */
module ApprovalGrants {
  import opened Options
  import opened McpApproval
  import opened ApprovalRuns

  predicate RunsMutating(h: Happening) {
    h.Executed? && h.tool in MUTATING
  }

  // The tool was allowed at that call, or an approved row for this tool let it through: one that
  // a call requested or that was mirrored for a task, with its verdict before the call, and that
  // does not belong to another session.
  ghost predicate GrantedBefore(trail: seq<Happening>, k: int)
    requires 0 <= k < |trail| && trail[k].Executed?
  {
    var (tool, grant) := (trail[k].tool, trail[k].grant);
    || grant == ByPolicy(Allow)
    || (grant.ByApproval? && Compatible(grant.owner, trail[k].session) &&
        exists i, j :: GrantedAt(trail, i, j, grant.approvalId, tool, grant.owner) && j < k)
  }

  // A mutating tool is executed only with a grant.
  lemma {:induction false} MutatingNeedsGrant(origin: Origin, steps: seq<Step>)
    ensures var trail := After(origin, steps).trail;
            forall k :: 0 <= k < |trail| && RunsMutating(trail[k]) ==> GrantedBefore(trail, k)
  {
    hide After, GrantedBefore;
    RunConsistent(origin, steps);
    var trail := After(origin, steps).trail;
    forall k | 0 <= k < |trail| && RunsMutating(trail[k])
      ensures GrantedBefore(trail, k)
    {
      LawfulNeedsGrant(trail, k);
    }
  }

  lemma LawfulNeedsGrant(trail: seq<Happening>, k: int)
    requires Lawful(trail) && 0 <= k < |trail| && RunsMutating(trail[k])
    ensures GrantedBefore(trail, k)
    ensures trail[k].grant.ByApproval? ==> Nameable(trail[k].grant.approvalId)
  {
    hide Nameable, Undecided, Unknown;
    assert Justified(trail[..k], trail[k]);
    var (tool, grant) := (trail[k].tool, trail[k].grant);
    match grant
    case NotNeeded =>
      MutatingIsNotReadOnly(tool);
    case ByPolicy(_) =>
    case ByApproval(id, owner) =>
      var i, j :| GrantedAt(trail[..k], i, j, id, tool, owner);
      assert GrantedAt(trail, i, j, id, tool, owner) && j < k;
  }

  lemma MutatingIsNotReadOnly(tool: string)
    ensures !(tool in MUTATING && tool in READ_ONLY)
  {
    assert |"get_project_structure"| == 21 && |"query_git_status"| == 16 && |"read_recent_logs"| == 16;
    assert |"get_docker_status"| == 17 && |"query_gitea_issue"| == 17;
    assert |"create_gitea_issue"| == 18 && |"restart_service"| == 15;
  }

  // ----- requested by a call, or not

  // A mutating tool that an approval lets through.
  predicate ByApprovalAt(trail: seq<Happening>, k: int) {
    0 <= k < |trail| && RunsMutating(trail[k]) && trail[k].grant.ByApproval?
  }

  // Some call before requested the approval for this very tool.
  predicate RequestedByCall(trail: seq<Happening>, k: int)
    requires ByApprovalAt(trail, k)
  {
    Requested(trail[k].grant.approvalId, trail[k].tool, trail[k].grant.owner) in trail[..k]
  }

  ghost predicate AllRequested(trail: seq<Happening>) {
    forall k :: ByApprovalAt(trail, k) ==> RequestedByCall(trail, k)
  }

  predicate MirroredIn(trail: seq<Happening>, id: string) {
    exists i :: 0 <= i < |trail| && trail[i].Mirrored? && trail[i].approvalId == id
  }

  // Over whole runs: every mutating tool that an approval lets through was requested by a call,
  // exactly if no approval of a task was used for one.
  lemma {:induction false} RequestedExactly(origin: Origin, steps: seq<Step>)
    ensures var trail := After(origin, steps).trail;
            AllRequested(trail) <==>
            forall k :: ByApprovalAt(trail, k) ==> !MirroredIn(trail, trail[k].grant.approvalId)
  {
    hide After, MirroredIn, RequestedByCall;
    RunConsistent(origin, steps);
    var trail := After(origin, steps).trail;
    forall k | ByApprovalAt(trail, k)
      ensures RequestedByCall(trail, k) <==> !MirroredIn(trail, trail[k].grant.approvalId)
    {
      RequestedOrMirrored(trail, k);
    }
  }

  lemma RequestedOrMirrored(trail: seq<Happening>, k: int)
    requires Lawful(trail) && ByApprovalAt(trail, k)
    ensures RequestedByCall(trail, k) <==> !MirroredIn(trail, trail[k].grant.approvalId)
  {
    hide Lawful, Compatible;
    LawfulNeedsGrant(trail, k);
    var (tool, grant) := (trail[k].tool, trail[k].grant);
    var i, j :| GrantedAt(trail, i, j, grant.approvalId, tool, grant.owner) && j < k;
    if trail[i].Requested? {
      assert trail[..k][i] == trail[i];
    }
    if RequestedByCall(trail, k) && MirroredIn(trail, grant.approvalId) {
      var r :| 0 <= r < k && trail[..k][r] == Requested(grant.approvalId, tool, grant.owner);
      var m :| 0 <= m < |trail| && trail[m].Mirrored? && trail[m].approvalId == grant.approvalId;
      OneOrigin(trail, r, m, grant.approvalId);
    }
  }

  // ----- from now on

  // A task's approval that lets a mutating tool through, or will once it is approved.
  predicate Lends(db: Db, id: string) {
    && id in db.approvals && Nameable(id)
    && var a := db.approvals[id];
       && a.runId.Some? && a.actionType == MCP_TOOL && a.commandPreview.Some? && a.commandPreview.value in MUTATING
       && (a.status.Pending? || a.status.Approved?)
  }

  // The step brings in no approval of a task for a mutating tool.
  predicate BringsNone(s: Step) {
    s.Creates? || s.Copies? ==>
      var (action, command) := (s.request.actionType, s.request.commandPreview);
      !(action == MCP_TOOL && command.Some? && command.value in MUTATING)
  }

  predicate BringNone(steps: seq<Step>) {
    forall k :: 0 <= k < |steps| ==> BringsNone(steps[k])
  }

  // In all continuations that bring in no further such approval, every mutating tool that an
  // approval lets through was requested by a call, exactly if there is no such approval now.
  lemma {:induction false} RequestedFromNowOn(origin: Origin, steps: seq<Step>)
    ensures (forall more | BringNone(more) :: AllRequested(After(origin, steps + more).trail)) <==>
            forall id :: !Lends(After(origin, steps), id)
  {
    hide After, AllRequested, Lends, BringNone;
    var db := After(origin, steps);
    if forall id :: !Lends(db, id) {
      forall more | BringNone(more)
        ensures AllRequested(After(origin, steps + more).trail)
      {
        NoneLentLater(origin, steps, more);
        NoneLentAllRequested(origin, steps + more);
      }
    } else {
      var id :| Lends(db, id);
      var more := UsesLent(origin, steps, id);
      assert BringNone(more);
    }
  }

  lemma {:induction false} NoneLentAllRequested(origin: Origin, steps: seq<Step>)
    requires forall id :: !Lends(After(origin, steps), id)
    ensures AllRequested(After(origin, steps).trail)
  {
    hide After, Lends, RequestedByCall;
    RunConsistent(origin, steps);
    var db := After(origin, steps);
    forall k | ByApprovalAt(db.trail, k)
      ensures RequestedByCall(db.trail, k)
    {
      if !RequestedByCall(db.trail, k) {
        RequestedOrMirrored(db.trail, k);
        UsedIsLent(db, k);
        assert false;
      }
    }
  }

  // The row behind an execution: for that tool, approved, and mirrored if its id was mirrored.
  lemma UsedIsLent(db: Db, k: int)
    requires Consistent(db) && ByApprovalAt(db.trail, k) && MirroredIn(db.trail, db.trail[k].grant.approvalId)
    ensures Lends(db, db.trail[k].grant.approvalId)
  {
    hide Lawful, Undecided, Truthful, InStep, Nameable, Compatible;
    LawfulNeedsGrant(db.trail, k);
    var (tool, id, owner) := (db.trail[k].tool, db.trail[k].grant.approvalId, db.trail[k].grant.owner);
    var i, j :| GrantedAt(db.trail, i, j, id, tool, owner) && j < k;
    var m :| 0 <= m < |db.trail| && db.trail[m].Mirrored? && db.trail[m].approvalId == id;
    OneOrigin(db.trail, i, m, id);
    assert Recorded(db.trail[i], db);
    RowOf(db, i, j, id);
  }

  // The row of an id agrees with the id's origin and verdict.
  lemma RowOf(db: Db, i: int, j: int, id: string)
    requires Consistent(db) && 0 <= i < |db.trail| && 0 <= j < |db.trail|
    requires IsOrigin(db.trail[i], id) && IsVerdict(db.trail[j], id)
    ensures id in db.approvals && InsertedBy(db.trail[i], id, db.approvals[id])
    ensures db.approvals[id].status == db.trail[j].status
  {
    hide Lawful, Truthful, InStep;
    assert Recorded(db.trail[i], db);
    var a := db.approvals[id];
    assert Backed(db.trail, id, a);
    var i', j' :| StoryAt(db.trail, i', j', id, a);
    OneOrigin(db.trail, i, i', id);
    if !a.status.Pending? {
      OneVerdict(db.trail, j, j', id);
    }
  }

  lemma {:induction false} NoneLentLater(origin: Origin, steps: seq<Step>, more: seq<Step>)
    requires (forall id :: !Lends(After(origin, steps), id)) && BringNone(more)
    ensures forall id :: !Lends(After(origin, steps + more), id)
  {
    hide Do, Lends, After, BringsNone;
    if more == [] {
      assert steps + more == steps;
    } else {
      var (init, last) := (more[..|more| - 1], more[|more| - 1]);
      NoneLentLater(origin, steps, init);
      assert steps + more == steps + init + [last];
      AfterMore(origin, steps + init, last);
      forall id
        ensures !Lends(After(origin, steps + more), id)
      {
        if Lends(After(origin, steps + more), id) {
          LentBefore(After(origin, steps + init), last, id);
        }
      }
    }
  }

  lemma LentBefore(db: Db, s: Step, id: string)
    requires BringsNone(s) && Lends(Do(db, s), id)
    ensures Lends(db, id)
  {
    hide Nameable, Call, Resolve, SessionStatus, Append;
    match s
    case Calls(c) => CallRows(db, c);
    case Decides(rid, approve, _) => ResolveRows(db, rid, approve);
    case Reports(tid, word, session) => AppendOnlyAddsEvents(db, Some(session), ReportBody(db, tid, word));
    case Ends(index, succeeds) => EndRows(db, index, succeeds);
    case _ =>
  }

  // A call changes no row; it may add the one it requests.
  lemma CallRows(db: Db, c: ToolCall)
    ensures var rows := Call(db, c).0.approvals;
            && (forall id :: id in db.approvals ==> id in rows && rows[id] == db.approvals[id])
            && (forall id :: id in rows && id !in db.approvals ==> rows[id].runId.None?)
  {
    hide Canonical, InputString, Objection, Append;
    var (tool, session) := (Canonical(c.name), InputString(c.session));
    forall from, body
      ensures Append(from, session, body).approvals == from.approvals
    {
      AppendOnlyAddsEvents(from, session, body);
    }
    if tool in MUTATING && InputString(c.approval).Some? {
      if Objection(db.approvals, InputString(c.approval).value, tool, session).None? {
        NoObjection(db.approvals, InputString(c.approval).value, tool, session);
      }
    }
  }

  lemma EndRows(db: Db, index: nat, succeeds: bool)
    ensures End(db, index, succeeds).0.approvals == db.approvals
  {
  }

  lemma ResolveRows(db: Db, id: string, approve: bool)
    ensures var rows := Resolve(db, id, approve).0.approvals;
            || rows == db.approvals
            || (id in db.approvals && db.approvals[id].status.Pending? &&
                rows == db.approvals[id := db.approvals[id].(status := Choice(approve))])
  {
    hide SessionStatus, NameTaken, EventName;
  }

  // ----- how it is used

  // The call that the approval lets through, whatever the policy says.
  function Using(id: string, tool: string): ToolCall {
    ToolCall(tool, None, Some(id), Deny, "", true)
  }

  lemma UsingRuns(db: Db, id: string, tool: string)
    requires tool in MUTATING && Nameable(id) && Objection(db.approvals, id, tool, None).None?
    ensures Call(db, Using(id, tool)).0.trail ==
            db.trail + [Executed(tool, None, ByApproval(id, db.approvals[id].sessionId))]
  {
    hide Canonical, Objection;
    MutatingHasNoAlias(tool);
  }

  lemma {:induction false} UsesLent(origin: Origin, steps: seq<Step>, id: string) returns (more: seq<Step>)
    requires Lends(After(origin, steps), id)
    ensures BringNone(more) && !AllRequested(After(origin, steps + more).trail)
  {
    hide After, Do, Lends;
    var db := After(origin, steps);
    var tool := LentTool(db, id);
    more := [];
    assert steps + [] == steps;
    if db.approvals[id].status.Pending? {
      RunConsistent(origin, steps);
      ApprovesLent(db, id, tool);
      more := [SettlesTask(id, Approved)];
      AfterMore(origin, steps, SettlesTask(id, Approved));
    }
    var approved := After(origin, steps + more);
    var call := Calls(Using(id, tool));
    AfterMore(origin, steps + more, call);
    assert steps + more + [call] == steps + (more + [call]);
    RunConsistent(origin, steps + (more + [call]));
    UsedUnrequested(approved, id, tool);
    more := more + [call];
  }

  // An approved row of a task, that is for this tool.
  predicate LendsNow(db: Db, id: string, tool: string) {
    && tool in MUTATING && Nameable(id) && id in db.approvals
    && var a := db.approvals[id];
       a.runId.Some? && a.actionType == MCP_TOOL && a.commandPreview == Some(tool) && a.status.Approved?
  }

  lemma LentTool(db: Db, id: string) returns (tool: string)
    requires Lends(db, id)
    ensures id in db.approvals && (db.approvals[id].status.Pending? || LendsNow(db, id, tool))
    ensures LendsNow(db.(approvals := db.approvals[id := db.approvals[id].(status := Approved)]), id, tool)
  {
    hide Nameable;
    tool := db.approvals[id].commandPreview.value;
  }

  lemma ApprovesLent(db: Db, id: string, tool: string)
    requires Consistent(db) && id in db.approvals && db.approvals[id].status.Pending?
    requires LendsNow(db.(approvals := db.approvals[id := db.approvals[id].(status := Approved)]), id, tool)
    ensures LendsNow(Do(db, SettlesTask(id, Approved)), id, tool)
  {
    hide Nameable, SessionStatus, Consistent;
    StatusesAgree(db, id);
  }

  lemma UsedUnrequested(db: Db, id: string, tool: string)
    requires LendsNow(db, id, tool) && Consistent(Do(db, Calls(Using(id, tool))))
    ensures !AllRequested(Do(db, Calls(Using(id, tool))).trail)
  {
    hide Call, Nameable, Lawful, Undecided, Truthful, InStep;
    var after := Call(db, Using(id, tool)).0;
    UsingRuns(db, id, tool);
    CallRows(db, Using(id, tool));
    var k := |db.trail|;
    assert ByApprovalAt(after.trail, k);
    assert Backed(after.trail, id, after.approvals[id]);
    var i, j :| StoryAt(after.trail, i, j, id, after.approvals[id]);
    assert MirroredIn(after.trail, id);
    RequestedOrMirrored(after.trail, k);
  }

  const WORKER_REQUEST := TaskRequest("x", "t", "s", MCP_TOOL, Some("restart_service"), Pending)

  // A remote worker's task asks for approval of the action type of MCP tools; once it is approved,
  // the tool runs against a denying policy, and no call has ever requested it.
  lemma WorkerApprovalRunsTool(origin: Origin)
    requires origin.tasks == map[]
    ensures var steps := [Creates(WORKER_REQUEST), SettlesTask("x", Approved), Calls(Using("x", "restart_service"))];
            var session := if "s" in origin.sessions then Some(origin.sessions["s"]) else None;
            After(origin, steps).trail ==
            [Mirrored("x", MCP_TOOL, Some("restart_service"), Some("s"), Pending),
             Resolved("x", Approved, Some("s"), session, false),
             Executed("restart_service", None, ByApproval("x", Some("s")))]
  {
    hide After, Call, Nameable, Do, Begin;
    var (first, second) := (Creates(WORKER_REQUEST), SettlesTask("x", Approved));
    var third := Calls(Using("x", "restart_service"));
    NothingAfter(origin);
    AfterMore(origin, [], first);
    AfterMore(origin, [first], second);
    AfterMore(origin, [first, second], third);
    assert [] + [first] == [first] && [first] + [second] == [first, second];
    assert [first, second] + [third] == [first, second, third];
    XIsNameable();
    WorkerSteps(origin);
    UsingRuns(After(origin, [first, second]), "x", "restart_service");
  }

  lemma WorkerSteps(origin: Origin)
    requires origin.tasks == map[]
    ensures var db := Do(Do(Begin(origin), Creates(WORKER_REQUEST)), SettlesTask("x", Approved));
            var session := if "s" in origin.sessions then Some(origin.sessions["s"]) else None;
            && db.trail ==
               [Mirrored("x", MCP_TOOL, Some("restart_service"), Some("s"), Pending),
                Resolved("x", Approved, Some("s"), session, false)]
            && Objection(db.approvals, "x", "restart_service", None).None? && db.approvals["x"].sessionId == Some("s")
    ensures forall db: Db, c :: Do(db, Calls(c)) == Call(db, c).0
  {
  }

  lemma NothingAfter(origin: Origin)
    ensures After(origin, []) == Begin(origin)
  {
  }

  lemma XIsNameable()
    ensures Nameable("x")
  {
  }

  // ----- approvals are not used up

  lemma RowsFinal(db: Db, s: Step, id: string)
    requires id in db.approvals && !db.approvals[id].status.Pending?
    ensures id in Do(db, s).approvals && Do(db, s).approvals[id] == db.approvals[id]
  {
    hide Call, Resolve, SessionStatus, End, Append;
    match s
    case Calls(c) => CallRows(db, c);
    case Decides(rid, approve, _) => ResolveRows(db, rid, approve);
    case Ends(index, succeeds) => EndRows(db, index, succeeds);
    case Reports(tid, word, session) => AppendOnlyAddsEvents(db, Some(session), ReportBody(db, tid, word));
    case _ =>
  }

  // Nothing takes a verdict back or uses it up: what an approval let through once, it lets
  // through after any further steps.
  lemma {:induction false} ApprovalIsNotUsedUp(origin: Origin, steps: seq<Step>, more: seq<Step>,
                                               id: string, tool: string, session: Option<string>)
    ensures Objection(After(origin, steps).approvals, id, tool, session).None? ==>
              Objection(After(origin, steps + more).approvals, id, tool, session).None?
  {
    hide Do, After;
    if more == [] {
      assert steps + more == steps;
    } else {
      var (init, last) := (more[..|more| - 1], more[|more| - 1]);
      ApprovalIsNotUsedUp(origin, steps, init, id, tool, session);
      assert steps + more == steps + init + [last];
      AfterMore(origin, steps + init, last);
      if Objection(After(origin, steps).approvals, id, tool, session).None? {
        RowsFinal(After(origin, steps + init), last, id);
      }
    }
  }
}
