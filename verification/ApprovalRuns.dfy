/** What every run of tool calls, decisions, task approvals and restarts keeps, and what lets a
    mutating tool run: an allow decision, or an approved row that a call requested or that a task
    brought along under the action type of MCP tools. */
module ApprovalRuns {
  import opened Options
  import opened Text
  import opened McpApproval

  // ----- where a row comes from and what becomes of it

  predicate IsOrigin(h: Happening, id: string) {
    (h.Requested? || h.Mirrored?) && h.approvalId == id
  }

  predicate Unknown(trail: seq<Happening>, id: string) {
    forall k :: 0 <= k < |trail| ==> !IsOrigin(trail[k], id)
  }

  // A resolution, or a row that is mirrored with its verdict.
  predicate IsVerdict(h: Happening, id: string) {
    (h.Resolved? || (h.Mirrored? && !h.status.Pending?)) && h.approvalId == id
  }

  predicate Undecided(trail: seq<Happening>, id: string) {
    forall k :: 0 <= k < |trail| ==> !IsVerdict(trail[k], id)
  }

  // The approval was requested by a call of this tool from this session, or mirrored for it.
  predicate IsFor(h: Happening, id: string, tool: string, owner: Option<string>) {
    || h == Requested(id, tool, owner)
    || (h.Mirrored? && h == Mirrored(id, MCP_TOOL, Some(tool), owner, h.status))
  }

  predicate GrantedAt(trail: seq<Happening>, i: int, j: int, id: string, tool: string, owner: Option<string>) {
    && 0 <= i <= j < |trail| && IsFor(trail[i], id, tool, owner)
    && IsVerdict(trail[j], id) && trail[j].status.Approved?
  }

  ghost predicate Granted(trail: seq<Happening>, id: string, tool: string, owner: Option<string>) {
    exists i, j :: GrantedAt(trail, i, j, id, tool, owner)
  }

  // Two sessions disagree only if both are given.
  predicate Compatible(owner: Option<string>, session: Option<string>) {
    session.None? || owner.None? || owner.value == "" || owner == session
  }

  // An id that a call can name: its argument is trimmed.
  predicate Nameable(id: string) {
    InputString(Some(id)) == Some(id)
  }

  // What entitles a happening to come next.
  ghost predicate Justified(before: seq<Happening>, h: Happening) {
    match h
    case Requested(id, tool, _) => tool in MUTATING && Unknown(before, id) && Undecided(before, id)
    case Mirrored(id, _, _, _, _) => Unknown(before, id) && Undecided(before, id)
    case Resolved(id, status, _, sessionStatus, byRoute) =>
      && Undecided(before, id) && !Unknown(before, id) && !status.Pending?
      && (byRoute && sessionStatus.Some? ==> sessionStatus.value !in TERMINAL)
    case Denied(tool, _) => tool in MUTATING
    case Executed(tool, _, NotNeeded) => tool in READ_ONLY
    case Executed(_, _, ByPolicy(decision)) => decision.Allow?
    case Executed(tool, session, ByApproval(id, owner)) =>
      Granted(before, id, tool, owner) && Compatible(owner, session) && Nameable(id)
  }

  ghost predicate Lawful(trail: seq<Happening>) {
    forall k :: 0 <= k < |trail| ==> Justified(trail[..k], trail[k])
  }

  // The happening that a row was inserted by.
  predicate InsertedBy(h: Happening, id: string, a: Approval) {
    if a.runId.None? then
      a.actionType == MCP_TOOL && a.commandPreview.Some? && h == Requested(id, a.commandPreview.value, a.sessionId)
    else h.Mirrored? && h == Mirrored(id, a.actionType, a.commandPreview, a.sessionId, h.status)
  }

  predicate StoryAt(trail: seq<Happening>, i: int, j: int, id: string, a: Approval) {
    && 0 <= i <= j < |trail| && InsertedBy(trail[i], id, a)
    && (a.status.Pending? || (IsVerdict(trail[j], id) && trail[j].status == a.status))
  }

  // How a row agrees with the trail: it was inserted by a call or for a task, it is pending
  // exactly while there is no verdict, and otherwise has the status of the verdict.
  ghost predicate Backed(trail: seq<Happening>, id: string, a: Approval) {
    && (a.status.Pending? <==> Undecided(trail, id))
    && exists i, j :: StoryAt(trail, i, j, id, a)
  }

  predicate Recorded(h: Happening, db: Db) {
    h.Requested? || h.Mirrored? || h.Resolved? ==> h.approvalId in db.approvals
  }

  // The events of the route are those with names. They tell the verdict in the table.
  predicate Truthful(e: Event, db: Db) {
    e.name.Some? ==>
      && e.body.ApprovalResolved?
      && var (id, status) := (e.body.approvalId, e.body.status);
         && e.name.value == EventName(id, status) && (status.Approved? || status.Rejected?)
         && id in db.approvals && db.approvals[id].status == status
  }

  // A row mirrored for a task has the status of the task's approval.
  predicate InStep(db: Db, id: string) {
    id in db.approvals && db.approvals[id].runId.Some? ==>
      id in db.tasks && db.tasks[id] == db.approvals[id].status
  }

  ghost predicate Truths(db: Db) {
    && (forall k :: 0 <= k < |db.trail| ==> Recorded(db.trail[k], db))
    && (forall k :: 0 <= k < |db.events| ==> Truthful(db.events[k], db))
    && (forall id :: id in db.approvals ==> InStep(db, id))
  }

  ghost predicate Consistent(db: Db) {
    && Lawful(db.trail)
    && (forall id :: id in db.approvals ==> Backed(db.trail, id, db.approvals[id]))
    && Truths(db)
  }

  // ----- trails

  lemma OneMore(trail: seq<Happening>, h: Happening)
    requires Lawful(trail) && Justified(trail, h)
    ensures Lawful(trail + [h])
  {
    hide Justified;
    forall k | 0 <= k < |trail + [h]|
      ensures Justified((trail + [h])[..k], (trail + [h])[k])
    {
      if k < |trail| {
        assert (trail + [h])[..k] == trail[..k];
      } else {
        assert (trail + [h])[..k] == trail;
      }
    }
  }

  lemma LawfulInit(trail: seq<Happening>)
    requires Lawful(trail) && trail != []
    ensures Lawful(trail[..|trail| - 1])
  {
    hide Justified;
    var init := trail[..|trail| - 1];
    forall k | 0 <= k < |init|
      ensures Justified(init[..k], init[k])
    {
      assert init[..k] == trail[..k];
    }
  }

  lemma UndecidedMore(trail: seq<Happening>, h: Happening, id: string)
    ensures Undecided(trail + [h], id) <==> Undecided(trail, id) && !IsVerdict(h, id)
  {
    hide IsVerdict;
    var longer := trail + [h];
    assert longer[|trail|] == h;
    assert forall k :: 0 <= k < |trail| ==> longer[k] == trail[k];
  }

  lemma BackedMore(trail: seq<Happening>, h: Happening, id: string, a: Approval)
    requires Backed(trail, id, a) && !IsVerdict(h, id)
    ensures Backed(trail + [h], id, a)
  {
    hide Undecided, InsertedBy, IsVerdict;
    UndecidedMore(trail, h, id);
    var i, j :| StoryAt(trail, i, j, id, a);
    assert StoryAt(trail + [h], i, j, id, a);
  }

  // An id is inserted once, and decided once.
  lemma OneOrigin(trail: seq<Happening>, i: int, j: int, id: string)
    requires Lawful(trail) && 0 <= i < |trail| && 0 <= j < |trail|
    requires IsOrigin(trail[i], id) && IsOrigin(trail[j], id)
    ensures i == j
  {
    hide Granted, Undecided;
    assert Justified(trail[..i], trail[i]) && Justified(trail[..j], trail[j]);
  }

  lemma OneVerdict(trail: seq<Happening>, i: int, j: int, id: string)
    requires Lawful(trail) && 0 <= i < |trail| && 0 <= j < |trail|
    requires IsVerdict(trail[i], id) && IsVerdict(trail[j], id)
    ensures i == j
  {
    hide Granted, Unknown;
    assert Justified(trail[..i], trail[i]) && Justified(trail[..j], trail[j]);
  }

  // ----- every step keeps it

  // A happening that neither inserts nor decides disturbs nothing.
  lemma HappenKeeps(db: Db, h: Happening)
    requires Consistent(db) && Justified(db.trail, h) && Recorded(h, db)
    requires !h.Requested? && !h.Mirrored? && !h.Resolved?
    ensures Consistent(Happen(db, h))
  {
    hide Lawful, Backed, Justified, Truthful, InStep;
    OneMore(db.trail, h);
    forall id | id in db.approvals
      ensures Backed(db.trail + [h], id, db.approvals[id])
    {
      BackedMore(db.trail, h, id, db.approvals[id]);
    }
    SameTruths(db, Happen(db, h));
  }

  lemma SameTruths(db: Db, after: Db)
    requires after.approvals == db.approvals && after.tasks == db.tasks
    ensures forall e :: Truthful(e, after) == Truthful(e, db)
    ensures forall h :: Recorded(h, after) == Recorded(h, db)
    ensures forall id :: InStep(after, id) == InStep(db, id)
  {
  }

  // What is neither table nor trail does not matter.
  lemma OtherwiseSame(db: Db, after: Db)
    requires Consistent(db)
    requires after == db.(sessions := after.sessions, running := after.running, lost := after.lost)
    ensures Consistent(after)
  {
    hide Lawful, Backed, Recorded, Truthful, InStep;
    SameTruths(db, after);
  }

  lemma EventKeeps(db: Db, e: Event)
    requires Consistent(db) && Truthful(e, db)
    ensures Consistent(db.(events := db.events + [e]))
  {
    hide Lawful, Backed, Recorded, Truthful, InStep;
    SameTruths(db, db.(events := db.events + [e]));
  }

  lemma AppendKeeps(db: Db, session: Option<string>, body: EventType)
    requires Consistent(db)
    ensures Consistent(Append(db, session, body))
  {
    hide Consistent;
    if session.Some? {
      EventKeeps(db, Event(None, session.value, None, body));
    }
  }

  lemma AppendOnlyAddsEvents(db: Db, session: Option<string>, body: EventType)
    ensures Append(db, session, body) == db.(events := Append(db, session, body).events)
  {
  }

  lemma FinishKeeps(db: Db, session: Option<string>, tool: string, succeeds: bool)
    requires Consistent(db)
    ensures Consistent(Finish(db, session, tool, succeeds).0)
  {
    hide Consistent, Append;
    AppendKeeps(db, session, ToolSucceeded(tool));
    AppendKeeps(db, session, ToolFailed(tool));
  }

  lemma ExecuteKeeps(db: Db, session: Option<string>, tool: string, grant: Grant, succeeds: bool)
    requires Consistent(db) && Justified(db.trail, Executed(tool, session, grant))
    ensures Consistent(Execute(db, session, tool, grant, succeeds).0)
  {
    hide Consistent, Justified, Happen, Finish;
    var ran := Happen(db, Executed(tool, session, grant));
    HappenKeeps(db, Executed(tool, session, grant));
    FinishKeeps(ran, session, tool, succeeds);
    OtherwiseSame(ran, ran.(running := ran.running + [Running(tool, session)]));
  }

  lemma EndKeeps(db: Db, index: nat, succeeds: bool)
    requires Consistent(db)
    ensures Consistent(End(db, index, succeeds).0)
  {
    hide Consistent, Finish;
    if index < |db.running| {
      var call := db.running[index];
      var without := db.(running := db.running[..index] + db.running[index + 1..]);
      OtherwiseSame(db, without);
      FinishKeeps(without, call.session, call.tool, succeeds);
    }
  }

  lemma RefuseKeeps(db: Db, session: Option<string>, tool: string)
    requires Consistent(db) && tool in MUTATING
    ensures Consistent(Refuse(db, session, tool).0)
  {
    hide Consistent, Happen, Append;
    HappenKeeps(db, Denied(tool, session));
    AppendKeeps(Happen(db, Denied(tool, session)), session, ToolFailed(tool));
  }

  // Nothing is known of an id that is not in the table.
  lemma NewId(db: Db, id: string)
    requires Consistent(db) && id !in db.approvals
    ensures Unknown(db.trail, id) && Undecided(db.trail, id)
  {
    hide Lawful, Backed, Truthful, InStep;
    assert forall k :: 0 <= k < |db.trail| ==> Recorded(db.trail[k], db);
  }

  lemma NewRowBacked(trail: seq<Happening>, h: Happening, id: string, a: Approval)
    requires Undecided(trail, id) && InsertedBy(h, id, a)
    requires if h.Mirrored? then h.status == a.status else a.status.Pending?
    ensures Backed(trail + [h], id, a)
  {
    UndecidedMore(trail, h, id);
    assert (trail + [h])[|trail|] == h;
    assert StoryAt(trail + [h], |trail|, |trail|, id, a);
  }

  lemma InsertedTruths(db: Db, h: Happening, id: string, a: Approval)
    requires Truths(db) && id !in db.approvals && InsertedBy(h, id, a)
    requires a.runId.Some? ==> id in db.tasks && db.tasks[id] == a.status
    ensures Truths(Happen(db, h).(approvals := db.approvals[id := a]))
  {
    hide EventName;
    assert forall k :: 0 <= k < |db.events| ==> Truthful(db.events[k], db);
    assert forall k :: 0 <= k < |db.trail| ==> Recorded(db.trail[k], db);
    assert forall other :: other in db.approvals ==> InStep(db, other);
  }

  lemma InsertKeeps(db: Db, h: Happening, id: string, a: Approval)
    requires Consistent(db) && id !in db.approvals && InsertedBy(h, id, a)
    requires if h.Mirrored? then h.status == a.status else a.status.Pending?
    requires h.Requested? ==> h.tool in MUTATING
    requires a.runId.Some? ==> id in db.tasks && db.tasks[id] == a.status
    ensures Consistent(Happen(db, h).(approvals := db.approvals[id := a]))
  {
    hide Lawful, Undecided, Unknown, StoryAt, Truths;
    var after := Happen(db, h).(approvals := db.approvals[id := a]);
    NewId(db, id);
    OneMore(db.trail, h);
    NewRowBacked(db.trail, h, id, a);
    forall other | other in after.approvals
      ensures Backed(after.trail, other, after.approvals[other])
    {
      if other != id {
        BackedMore(db.trail, h, other, db.approvals[other]);
      }
    }
    InsertedTruths(db, h, id, a);
  }

  lemma RequestKeeps(db: Db, session: Option<string>, tool: string, id: string)
    requires Consistent(db) && tool in MUTATING
    ensures Consistent(Request(db, session, tool, id).0)
  {
    hide Consistent, Append;
    if id !in db.approvals {
      InsertKeeps(db, Requested(id, tool, session), id, Row(session, tool));
      AppendKeeps(Happen(db, Requested(id, tool, session)).(approvals := db.approvals[id := Row(session, tool)]),
                  session, ApprovalRequested(id));
    }
  }

  lemma {:induction false} CallKeeps(db: Db, c: ToolCall)
    requires Consistent(db)
    ensures Consistent(Call(db, c).0)
  {
    hide Consistent, Canonical, InputString, Append, Execute, Request, Refuse, Objection, Justified;
    var tool := Canonical(c.name);
    if tool in READ_ONLY + MUTATING {
      var (session, approval) := (InputString(c.session), InputString(c.approval));
      var called := Append(db, session, ToolCalled(tool));
      AppendKeeps(db, session, ToolCalled(tool));
      AppendOnlyAddsEvents(db, session, ToolCalled(tool));
      if tool !in MUTATING {
        ReadingJustified(called.trail, tool, session);
        ExecuteKeeps(called, session, tool, NotNeeded, c.succeeds);
      } else if approval.Some? {
        if Objection(db.approvals, approval.value, tool, session).None? {
          NoObjection(db.approvals, approval.value, tool, session);
          var grant := ByApproval(approval.value, db.approvals[approval.value].sessionId);
          ArgumentsNameable(c.approval);
          ApprovedIsGranted(called, approval.value, tool, session);
          ExecuteKeeps(called, session, tool, grant, c.succeeds);
        }
      } else {
        RefuseKeeps(called, session, tool);
        RequestKeeps(called, session, tool, c.freshId);
        if c.decision.Allow? {
          AllowJustifies(called.trail, tool, session);
          ExecuteKeeps(called, session, tool, ByPolicy(c.decision), c.succeeds);
        }
      }
    }
  }

  lemma ReadingJustified(trail: seq<Happening>, tool: string, session: Option<string>)
    requires tool in READ_ONLY
    ensures Justified(trail, Executed(tool, session, NotNeeded))
  {
  }

  lemma AllowJustifies(trail: seq<Happening>, tool: string, session: Option<string>)
    ensures Justified(trail, Executed(tool, session, ByPolicy(Allow)))
  {
  }

  lemma ArgumentsNameable(argument: Option<string>)
    ensures InputString(argument).Some? ==> Nameable(InputString(argument).value)
  {
    hide Trim;
    if argument.Some? {
      TrimTwice(argument.value);
    }
  }

  lemma NoObjection(approvals: map<string, Approval>, id: string, tool: string, session: Option<string>)
    requires Objection(approvals, id, tool, session).None?
    ensures id in approvals && approvals[id].status.Approved?
    ensures approvals[id].actionType == MCP_TOOL && approvals[id].commandPreview == Some(tool)
    ensures Compatible(approvals[id].sessionId, session)
  {
  }

  lemma ApprovedIsGranted(db: Db, id: string, tool: string, session: Option<string>)
    requires Consistent(db) && Objection(db.approvals, id, tool, session).None? && Nameable(id)
    ensures Justified(db.trail, Executed(tool, session, ByApproval(id, db.approvals[id].sessionId)))
  {
    hide Lawful, Undecided, Objection, Truthful, InStep, Recorded, Nameable;
    NoObjection(db.approvals, id, tool, session);
    var a := db.approvals[id];
    assert Backed(db.trail, id, a);
    var i, j :| StoryAt(db.trail, i, j, id, a);
    assert GrantedAt(db.trail, i, j, id, tool, a.sessionId);
  }

  // ----- resolving

  lemma SettledRowBacked(db: Db, id: string, status: Settled, byRoute: bool)
    requires Consistent(db) && id in db.approvals && db.approvals[id].status.Pending?
    ensures Backed(Settle(db, id, status, byRoute).trail, id, db.approvals[id].(status := status))
  {
    hide Lawful, SessionStatus, Undecided, Truthful, InStep, Recorded;
    var (a, trail) := (db.approvals[id], Settle(db, id, status, byRoute).trail);
    assert Backed(db.trail, id, a);
    UndecidedMore(db.trail, trail[|db.trail|], id);
    var i, j :| StoryAt(db.trail, i, j, id, a);
    assert StoryAt(trail, i, |db.trail|, id, a.(status := status));
  }

  lemma RowIsKnown(db: Db, id: string)
    requires Consistent(db) && id in db.approvals
    ensures !Unknown(db.trail, id)
    ensures db.approvals[id].status.Pending? <==> Undecided(db.trail, id)
  {
    hide Lawful, Undecided, Truthful, InStep, Recorded;
    assert Backed(db.trail, id, db.approvals[id]);
    var i, j :| StoryAt(db.trail, i, j, id, db.approvals[id]);
    assert IsOrigin(db.trail[i], id);
  }

  lemma SettledTruths(db: Db, id: string, status: Settled, byRoute: bool, tasks: map<string, Status>)
    requires Truths(db) && id in db.approvals && db.approvals[id].status.Pending?
    requires tasks == db.tasks || (id in db.tasks && db.tasks[id].Pending? && tasks == db.tasks[id := status])
    requires db.approvals[id].runId.Some? ==> id in tasks && tasks[id] == status
    ensures Truths(Settle(db, id, status, byRoute).(tasks := tasks))
  {
    hide EventName, SessionStatus;
    assert forall k :: 0 <= k < |db.events| ==> Truthful(db.events[k], db);
    assert forall k :: 0 <= k < |db.trail| ==> Recorded(db.trail[k], db);
    assert forall other :: other in db.approvals ==> InStep(db, other);
  }

  // The table of tasks is updated with the row.
  lemma SettleKeeps(db: Db, id: string, status: Settled, byRoute: bool, tasks: map<string, Status>)
    requires Consistent(db) && id in db.approvals && db.approvals[id].status.Pending?
    requires var session := SessionStatus(db, db.approvals[id]);
             byRoute && session.Some? ==> session.value !in TERMINAL
    requires tasks == db.tasks || (id in db.tasks && db.tasks[id].Pending? && tasks == db.tasks[id := status])
    requires db.approvals[id].runId.Some? ==> id in tasks && tasks[id] == status
    ensures Consistent(Settle(db, id, status, byRoute).(tasks := tasks))
  {
    hide Lawful, SessionStatus, Undecided, Unknown, StoryAt, InsertedBy, Truths;
    var after := Settle(db, id, status, byRoute).(tasks := tasks);
    var h := after.trail[|db.trail|];
    RowIsKnown(db, id);
    OneMore(db.trail, h);
    SettledRowBacked(db, id, status, byRoute);
    forall other | other in after.approvals
      ensures Backed(after.trail, other, after.approvals[other])
    {
      if other != id {
        BackedMore(db.trail, h, other, db.approvals[other]);
      }
    }
    SettledTruths(db, id, status, byRoute, tasks);
  }

  // Event names tell both the approval and the verdict.
  lemma EventNamesDiffer(id: string, status: Status, other: string, otherStatus: Status)
    requires status.Approved? || status.Rejected?
    requires otherStatus.Approved? || otherStatus.Rejected?
    requires EventName(id, status) == EventName(other, otherStatus)
    ensures id == other && status == otherStatus
  {
    var (name, other') := (EventName(id, status), EventName(other, otherStatus));
    var n := |"approval-event-"|;
    assert |Word(status)| == 8 && |Word(otherStatus)| == 8;
    assert name[|name| - 8..] == Word(status) && other'[|name| - 8..] == Word(otherStatus);
    assert Word(Approved)[0] == 'a' && Word(Rejected)[0] == 'r';
    assert name[n..|name| - 9] == id && other'[n..|name| - 9] == other;
  }

  // So the insert after the update never fails.
  lemma PendingNameFree(db: Db, id: string, status: Status)
    requires Consistent(db) && id in db.approvals && db.approvals[id].status.Pending?
    requires status.Approved? || status.Rejected?
    ensures !NameTaken(db.events, EventName(id, status))
  {
    hide Lawful, EventName, Backed, Recorded, InStep;
    if NameTaken(db.events, EventName(id, status)) {
      var k :| 0 <= k < |db.events| && db.events[k].name == Some(EventName(id, status));
      assert Truthful(db.events[k], db);
      EventNamesDiffer(id, status, db.events[k].body.approvalId, db.events[k].body.status);
    }
  }

  lemma ResolveKeeps(db: Db, id: string, approve: bool)
    requires Consistent(db) && id !in db.tasks
    ensures Consistent(Resolve(db, id, approve).0) && !Resolve(db, id, approve).1.EventClash?
  {
    hide Consistent, EventName, NameTaken, Settle;
    if id in db.approvals && db.approvals[id].status.Pending? {
      var (a, status) := (db.approvals[id], Choice(approve));
      var session := SessionStatus(db, a);
      if session.None? || session.value !in TERMINAL {
        NotMirrored(db, id);
        SettleKeeps(db, id, status, true, db.tasks);
        SettlesRow(db, id, status, true);
        PendingNameFree(db, id, status);
        if InSession(a) {
          NamedEventTruthful(db, id, status, a.sessionId.value, a.runId);
          EventKeeps(Settle(db, id, status, true), ResolvedEvent(id, status, a.sessionId.value, a.runId));
        }
      }
    }
  }

  lemma NotMirrored(db: Db, id: string)
    requires Consistent(db) && id in db.approvals && id !in db.tasks
    ensures db.approvals[id].runId.None?
  {
    hide Lawful, Backed, Recorded, Truthful;
    assert InStep(db, id);
  }

  lemma NamedEventTruthful(db: Db, id: string, status: Settled, sessionId: string, run: Option<string>)
    requires id in db.approvals && !status.Expired?
    ensures Truthful(ResolvedEvent(id, status, sessionId, run), Settle(db, id, status, true))
  {
  }

  lemma SettlesRow(db: Db, id: string, status: Settled, byRoute: bool)
    requires id in db.approvals
    ensures Settle(db, id, status, byRoute).(tasks := db.tasks) == Settle(db, id, status, byRoute)
    ensures Settle(db, id, status, byRoute).events == db.events
  {
  }

  lemma SettleTaskKeeps(db: Db, id: string, status: Settled)
    requires Consistent(db) && id in db.tasks
    ensures Consistent(SettleTask(db, id, status))
  {
    hide Consistent;
    var tasks := if db.tasks[id].Pending? then db.tasks[id := status] else db.tasks;
    if id in db.approvals {
      StatusesAgree(db, id);
    }
    if id in db.approvals && db.approvals[id].status.Pending? {
      SettleKeeps(db, id, status, false, tasks);
    } else if db.tasks[id].Pending? {
      NotedKeeps(db, id, status);
    }
  }

  lemma StatusesAgree(db: Db, id: string)
    requires Consistent(db) && id in db.approvals
    ensures InStep(db, id)
  {
    hide Lawful, Backed, Recorded, Truthful, InStep;
  }

  lemma NotedKeeps(db: Db, id: string, status: Status)
    requires Consistent(db) && (id in db.tasks ==> db.tasks[id].Pending?)
    requires id in db.approvals ==> db.approvals[id].runId.None?
    ensures Consistent(db.(tasks := db.tasks[id := status]))
  {
    hide Lawful, Backed;
    var after := db.(tasks := db.tasks[id := status]);
    assert forall k :: 0 <= k < |db.events| ==> Truthful(db.events[k], db);
    assert forall k :: 0 <= k < |db.trail| ==> Recorded(db.trail[k], db);
    assert forall other :: other in db.approvals ==> InStep(db, other);
  }

  lemma DecideKeeps(db: Db, id: string, approve: bool, awaited: bool)
    requires Consistent(db)
    ensures Consistent(Decide(db, id, approve, awaited).0) && !Decide(db, id, approve, awaited).1.EventClash?
  {
    hide Consistent, Resolve, SettleTask;
    if id !in db.tasks {
      ResolveKeeps(db, id, approve);
    } else {
      SettleTaskKeeps(db, id, Choice(approve));
    }
  }

  // A task's approval gets into the table whatever it is for and whatever its status.
  lemma MirrorKeeps(db: Db, r: TaskRequest)
    requires Consistent(db) && r.id in db.tasks && db.tasks[r.id] == r.status
    ensures Consistent(Mirror(db, r))
  {
    hide Consistent;
    if r.id !in db.approvals {
      var h := Mirrored(r.id, r.actionType, r.commandPreview, Some(r.sessionId), r.status);
      InsertKeeps(db, h, r.id, MirrorRow(r));
    }
  }

  lemma CreateKeeps(db: Db, r: TaskRequest)
    requires Consistent(db)
    ensures Consistent(Create(db, r))
  {
    hide Consistent, Mirror;
    if r.id !in db.tasks {
      if r.id in db.approvals {
        NotMirrored(db, r.id);
      }
      NotedKeeps(db, r.id, r.status);
      MirrorKeeps(db.(tasks := db.tasks[r.id := r.status]), r);
    }
  }

  lemma CopyKeeps(db: Db, r: TaskRequest)
    requires Consistent(db)
    ensures Consistent(Copy(db, r))
  {
    hide Consistent, Mirror;
    if r.id in db.tasks {
      MirrorKeeps(db, r.(status := db.tasks[r.id]));
    }
  }

  lemma ReportKeeps(db: Db, id: string, word: string, session: string)
    requires Consistent(db)
    ensures Consistent(Report(db, id, word, session))
  {
    hide Consistent, ReportBody, Append;
    AppendKeeps(db, Some(session), ReportBody(db, id, word));
  }

  lemma FileKeeps(db: Db, session: string, run: string, body: EventType)
    requires Consistent(db)
    ensures Consistent(File(db, session, run, body))
  {
    hide Consistent;
    EventKeeps(db, Event(None, session, Some(run), body));
  }

  lemma DoKeeps(db: Db, s: Step)
    requires Consistent(db)
    ensures Consistent(Do(db, s))
  {
    hide Consistent, Call, End, Decide, Create, Copy, SettleTask, Report, File;
    match s
    case Calls(c) => CallKeeps(db, c);
    case Ends(index, succeeds) => EndKeeps(db, index, succeeds);
    case Decides(id, approve, awaited) => DecideKeeps(db, id, approve, awaited);
    case Creates(r) => CreateKeeps(db, r);
    case Copies(r) => CopyKeeps(db, r);
    case SettlesTask(id, status) => if id in db.tasks { SettleTaskKeeps(db, id, status); }
    case Reports(id, word, session) => ReportKeeps(db, id, word, session);
    case Files(session, run, body) => FileKeeps(db, session, run, body);
    case SetsSession(id, status) => OtherwiseSame(db, Do(db, s));
    case Restarts => OtherwiseSame(db, Do(db, s));
  }

  lemma {:induction false} RunConsistent(origin: Origin, steps: seq<Step>)
    ensures Consistent(After(origin, steps))
  {
    hide Do;
    if steps != [] {
      hide Consistent;
      RunConsistent(origin, steps[..|steps| - 1]);
      DoKeeps(After(origin, steps[..|steps| - 1]), steps[|steps| - 1]);
    }
  }

  // ----- one verdict

  // There is at most one verdict on an approval, and the route gives none in a terminal session.
  lemma {:induction false} ResolvedOnce(origin: Origin, steps: seq<Step>)
    ensures var trail := After(origin, steps).trail;
            && (forall i, j, id :: 0 <= i < j < |trail| && IsVerdict(trail[i], id) ==> !IsVerdict(trail[j], id))
            && (forall i :: 0 <= i < |trail| && trail[i].Resolved? && trail[i].byRoute ==>
                  trail[i].sessionStatus.None? || trail[i].sessionStatus.value !in TERMINAL)
  {
    hide After, IsVerdict, Unknown, Undecided, Granted;
    RunConsistent(origin, steps);
    var trail := After(origin, steps).trail;
    forall i, j, id | 0 <= i < j < |trail| && IsVerdict(trail[i], id)
      ensures !IsVerdict(trail[j], id)
    {
      if IsVerdict(trail[j], id) {
        OneVerdict(trail, i, j, id);
      }
    }
    forall i | 0 <= i < |trail| && trail[i].Resolved? && trail[i].byRoute
      ensures trail[i].sessionStatus.None? || trail[i].sessionStatus.value !in TERMINAL
    {
      assert Justified(trail[..i], trail[i]);
    }
  }
}
