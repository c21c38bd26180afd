/** Approval of mutating MCP tools: `callTool`, `createAgentApproval` and `appendMcpEvent` of
    apps/host/src/services/mcp-service.ts, the routes of apps/host/src/routes/approvals.ts, and
    `ApprovalRepository` of packages/storage/src/repositories/approval-repo.ts, which writes the
    approvals of tasks into the same table.

    The tables are values; a trail beside them remembers what was requested, mirrored, resolved,
    denied and executed. A run is any interleaving of tool calls, of the ends of the tools that
    are awaited, of decisions through the route, of what the task and session services do to the
    same tables, also on behalf of remote workers, and of restarts. */
module McpApproval {
  import opened Options
  import opened Text
  import opened Lists

  datatype Status = Pending | Approved | Rejected | Expired
  type Settled = s: Status | !s.Pending? witness Approved

  // A row of `agent_approvals`; runId is set on rows that mirror a task's own approval.
  datatype Approval = Approval(sessionId: Option<string>, runId: Option<string>, actionType: string,
                               commandPreview: Option<string>, status: Status)

  datatype EventType =
    | ToolCalled(tool: string)
    | ToolSucceeded(tool: string)
    | ToolFailed(tool: string)
    | ApprovalRequested(approvalId: string)
    | ApprovalResolved(approvalId: string, status: Status)
    | ApprovalUnclear(approvalId: string) // resolved, without saying how

  // `name` is the event's primary key where it is not a fresh UUID, `run` its runId.
  datatype Event = Event(name: Option<string>, sessionId: string, run: Option<string>, body: EventType)

  datatype Decision = Allow | Prompt | Deny
  // `owner` is the session the approval belongs to.
  datatype Grant = ByPolicy(decision: Decision) | ByApproval(approvalId: string, owner: Option<string>) | NotNeeded

  datatype Happening =
    | Requested(approvalId: string, tool: string, session: Option<string>)
    | Mirrored(approvalId: string, actionType: string, commandPreview: Option<string>, sessionId: Option<string>,
               status: Status)
    | Resolved(approvalId: string, status: Status, sessionId: Option<string>, sessionStatus: Option<string>,
               byRoute: bool)
    | Denied(tool: string, session: Option<string>)
    | Executed(tool: string, session: Option<string>, grant: Grant)

  // A call whose tool has started and is still awaited.
  datatype Running = Running(tool: string, session: Option<string>)

  // `tasks` holds the statuses of the table `approvals`, which is for tasks only; `lost` the calls
  // whose tool was in progress when the host was restarted.
  datatype Db = Db(approvals: map<string, Approval>, tasks: map<string, Status>, sessions: map<string, string>,
                   events: seq<Event>, running: seq<Running>, lost: seq<Running>, trail: seq<Happening>)

  // ----- tools

  const MCP_TOOL := "mcp_tool"
  const READ_ONLY := {"get_project_structure", "query_git_status", "read_recent_logs", "get_docker_status",
                      "query_gitea_issue"}
  const MUTATING := {"create_gitea_issue", "restart_service"}

  // The tools whose result is there at once; all others are awaited.
  const IMMEDIATE := {"read_recent_logs", "restart_service"}

  function Canonical(name: string): string {
    if name == "project_structure" then "get_project_structure"
    else if name == "git_status" then "query_git_status"
    else if name == "recent_logs" then "read_recent_logs"
    else if name == "docker_status" then "get_docker_status"
    else if name == "gitea_issue" then "query_gitea_issue"
    else name
  }

  // The policy is asked about the name as requested; for a mutating tool that is its own name.
  lemma MutatingHasNoAlias(name: string)
    ensures Canonical(name) in MUTATING <==> name in MUTATING
    ensures name in MUTATING ==> Canonical(name) == name
    ensures Canonical(Canonical(name)) == Canonical(name)
  {
    assert |"get_project_structure"| == 21 && |"query_git_status"| == 16 && |"read_recent_logs"| == 16;
    assert |"get_docker_status"| == 17 && |"query_gitea_issue"| == 17;
    assert |"create_gitea_issue"| == 18 && |"restart_service"| == 15;
  }

  // A string argument, trimmed; blank counts as missing.
  function InputString(argument: Option<string>): Option<string> {
    if argument.Some? && Trim(argument.value) != "" then Some(Trim(argument.value)) else None
  }

  // ----- a tool call

  // `succeeds` is how the tool ends if it is not awaited.
  datatype ToolCall = ToolCall(name: string, session: Option<string>, approval: Option<string>,
                               decision: Decision, freshId: string, succeeds: bool)

  datatype Answer =
    | Unsupported
    | ApprovalNotFound
    | OtherTool
    | OtherSession
    | StillWaiting(status: Status)
    | DeniedByPolicy
    | AskedFor(approvalId: string)
    | IdTaken
    | Started
    | Succeeded
    | Failed
    | NotRunning

  function Append(db: Db, session: Option<string>, body: EventType): Db {
    if session.None? then db else db.(events := db.events + [Event(None, session.value, None, body)])
  }

  function Happen(db: Db, h: Happening): Db {
    db.(trail := db.trail + [h])
  }

  function Finish(db: Db, session: Option<string>, tool: string, succeeds: bool): (Db, Answer) {
    if succeeds then (Append(db, session, ToolSucceeded(tool)), Succeeded)
    else (Append(db, session, ToolFailed(tool)), Failed)
  }

  function Execute(db: Db, session: Option<string>, tool: string, grant: Grant, succeeds: bool): (Db, Answer) {
    var ran := Happen(db, Executed(tool, session, grant));
    if tool in IMMEDIATE then Finish(ran, session, tool, succeeds)
    else (ran.(running := ran.running + [Running(tool, session)]), Started)
  }

  // The end of a tool that was awaited; other things may have happened since it started.
  function End(db: Db, index: nat, succeeds: bool): (Db, Answer) {
    if index >= |db.running| then (db, NotRunning)
    else
      var call := db.running[index];
      Finish(db.(running := db.running[..index] + db.running[index + 1..]), call.session, call.tool, succeeds)
  }

  function Refuse(db: Db, session: Option<string>, tool: string): (Db, Answer) {
    (Append(Happen(db, Denied(tool, session)), session, ToolFailed(tool)), DeniedByPolicy)
  }

  function Row(session: Option<string>, tool: string): Approval {
    Approval(session, None, MCP_TOOL, Some(tool), Pending)
  }

  function Request(db: Db, session: Option<string>, tool: string, id: string): (Db, Answer) {
    if id in db.approvals then (db, IdTaken)
    else
      var asked := Happen(db, Requested(id, tool, session));
      (Append(asked.(approvals := db.approvals[id := Row(session, tool)]), session, ApprovalRequested(id)),
       AskedFor(id))
  }

  // Why an approval does not let this call through, if it does not.
  function Objection(approvals: map<string, Approval>, id: string, tool: string,
                     session: Option<string>): Option<Answer> {
    if id !in approvals then Some(ApprovalNotFound)
    else
      var a := approvals[id];
      if a.actionType != MCP_TOOL || a.commandPreview != Some(tool) then Some(OtherTool)
      else if session.Some? && InSession(a) && a.sessionId != session then Some(OtherSession)
      else if !a.status.Approved? then Some(StillWaiting(a.status))
      else None
  }

  function Call(db: Db, c: ToolCall): (Db, Answer) {
    var tool := Canonical(c.name);
    if tool !in READ_ONLY + MUTATING then (db, Unsupported)
    else
      var (session, approval) := (InputString(c.session), InputString(c.approval));
      var called := Append(db, session, ToolCalled(tool));
      if tool !in MUTATING then Execute(called, session, tool, NotNeeded, c.succeeds)
      else if approval.Some? then
        var objection := Objection(db.approvals, approval.value, tool, session);
        if objection.Some? then (called, objection.value)
        else
          var grant := ByApproval(approval.value, db.approvals[approval.value].sessionId);
          Execute(called, session, tool, grant, c.succeeds)
      else match c.decision
        case Deny => Refuse(called, session, tool)
        case Prompt => Request(called, session, tool, c.freshId)
        case Allow => Execute(called, session, tool, ByPolicy(c.decision), c.succeeds)
  }

  // ----- a resolution

  datatype Verdict = NotFound | AlreadyResolved | TerminalSession | Done | EventClash | NotAwaited

  const TERMINAL := {"completed", "failed", "cancelled", "archived"}

  function Word(status: Status): string {
    match status
    case Pending => "pending"
    case Approved => "approved"
    case Rejected => "rejected"
    case Expired => "expired"
  }

  function EventName(id: string, status: Status): string {
    "approval-event-" + id + "-" + Word(status)
  }

  function ResolvedEvent(id: string, status: Status, sessionId: string, run: Option<string>): Event {
    Event(Some(EventName(id, status)), sessionId, run, ApprovalResolved(id, status))
  }

  predicate NameTaken(events: seq<Event>, name: string) {
    exists k :: 0 <= k < |events| && events[k].name == Some(name)
  }

  // A session id that is absent or empty counts as none.
  predicate InSession(a: Approval) {
    a.sessionId.Some? && a.sessionId.value != ""
  }

  function SessionStatus(db: Db, a: Approval): Option<string> {
    if InSession(a) && a.sessionId.value in db.sessions then Some(db.sessions[a.sessionId.value]) else None
  }

  // What resolving a row does to the table, by the route or by its task.
  function Settle(db: Db, id: string, status: Settled, byRoute: bool): Db
    requires id in db.approvals
  {
    var a := db.approvals[id];
    db.(approvals := db.approvals[id := a.(status := status)],
        trail := db.trail + [Resolved(id, status, a.sessionId, SessionStatus(db, a), byRoute)])
  }

  function Choice(approve: bool): Settled {
    if approve then Approved else Rejected
  }

  // The update and the insert are separate statements: a clash of event names would leave the
  // approval resolved without its event.
  function Resolve(db: Db, id: string, approve: bool): (Db, Verdict) {
    if id !in db.approvals then (db, NotFound)
    else
      var (a, status) := (db.approvals[id], Choice(approve));
      if !a.status.Pending? then (db, AlreadyResolved)
      else
        var session := SessionStatus(db, a);
        if session.Some? && session.value in TERMINAL then (db, TerminalSession)
        else
          var resolved := Settle(db, id, status, true);
          if !InSession(a) then (resolved, Done)
          else if NameTaken(db.events, EventName(id, status)) then (resolved, EventClash)
          else (resolved.(events := db.events + [ResolvedEvent(id, status, a.sessionId.value, a.runId)]), Done)
  }

  // The routes `/:id/approve` and `/:id/reject`: an approval of a task is for the task service,
  // which refuses it unless the task awaits it.
  function Decide(db: Db, id: string, approve: bool, awaited: bool): (Db, Verdict) {
    if id !in db.tasks then Resolve(db, id, approve)
    else if !db.tasks[id].Pending? then (db, AlreadyResolved)
    else if !awaited then (db, NotAwaited)
    else (SettleTask(db, id, Choice(approve)), Done)
  }

  // ----- approvals of tasks

  // What a task asks for. A remote worker chooses the action type and the command.
  datatype TaskRequest = TaskRequest(id: string, run: string, sessionId: string, actionType: string,
                                     commandPreview: Option<string>, status: Status)

  function MirrorRow(r: TaskRequest): Approval {
    Approval(Some(r.sessionId), Some(r.run), r.actionType, r.commandPreview, r.status)
  }

  // INSERT OR IGNORE: the row is kept out only if its id is there already.
  function Mirror(db: Db, r: TaskRequest): Db {
    if r.id in db.approvals then db
    else Happen(db, Mirrored(r.id, r.actionType, r.commandPreview, Some(r.sessionId), r.status))
         .(approvals := db.approvals[r.id := MirrorRow(r)])
  }

  // `ApprovalRepository.create`; its first insert fails if the id is taken.
  function Create(db: Db, r: TaskRequest): Db {
    if r.id in db.tasks then db else Mirror(db.(tasks := db.tasks[r.id := r.status]), r)
  }

  // A start copies the approvals of tasks that are not in the table yet.
  function Copy(db: Db, r: TaskRequest): Db {
    if r.id !in db.tasks then db else Mirror(db, r.(status := db.tasks[r.id]))
  }

  // `ApprovalRepository.resolve`: two updates, each of a row that is still pending.
  function SettleTask(db: Db, id: string, status: Settled): Db
    requires id in db.tasks
  {
    var noted := if db.tasks[id].Pending? then db.(tasks := db.tasks[id := status]) else db;
    if id in db.approvals && db.approvals[id].status.Pending? then Settle(noted, id, status, false) else noted
  }

  // ----- events about resolutions

  function VerdictOf(word: string): Option<Settled> {
    if word == Word(Approved) then Some(Approved)
    else if word == Word(Rejected) then Some(Rejected)
    else if word == Word(Expired) then Some(Expired)
    else None
  }

  // What the session service makes of a `task.approval_resolved`: the task's approval as it is, if
  // there is one of this id, and otherwise what the event says of itself.
  function ReportBody(db: Db, id: string, word: string): EventType {
    if id in db.tasks then ApprovalResolved(id, db.tasks[id])
    else if VerdictOf(word).Some? then ApprovalResolved(id, VerdictOf(word).value)
    else ApprovalUnclear(id)
  }

  // A task event of that type comes from the task service or from a remote worker, which may put
  // any id and any word in it. It is stored as an `approval.resolved` of the session.
  function Report(db: Db, id: string, word: string, session: string): Db {
    Append(db, Some(session), ReportBody(db, id, word))
  }

  // Every task event is copied to the events under its own type, whatever a worker chose, and so is
  // what a provider sent along with it.
  function File(db: Db, session: string, run: string, body: EventType): Db {
    db.(events := db.events + [Event(None, session, Some(run), body)])
  }

  // Tools in progress do not survive a restart.
  function Restart(db: Db): Db {
    db.(running := [], lost := db.lost + db.running)
  }

  datatype Step =
    | Calls(call: ToolCall)
    | Ends(index: nat, succeeds: bool)
    | Decides(id: string, approve: bool, awaited: bool)
    | Creates(request: TaskRequest)
    | Copies(request: TaskRequest)
    | SettlesTask(id: string, status: Settled)
    | Reports(id: string, word: string, toSession: string)
    | Files(toSession: string, run: string, body: EventType)
    | SetsSession(id: string, sessionStatus: string)
    | Restarts

  function Do(db: Db, s: Step): Db {
    match s
    case Calls(c) => Call(db, c).0
    case Ends(index, succeeds) => End(db, index, succeeds).0
    case Decides(id, approve, awaited) => Decide(db, id, approve, awaited).0
    case Creates(r) => Create(db, r)
    case Copies(r) => Copy(db, r)
    case SettlesTask(id, status) => if id in db.tasks then SettleTask(db, id, status) else db
    case Reports(id, word, session) => Report(db, id, word, session)
    case Files(session, run, body) => File(db, session, run, body)
    case SetsSession(id, status) => db.(sessions := db.sessions[id := status])
    case Restarts => Restart(db)
  }

  // What there may be before the first start: sessions, and approvals of tasks.
  datatype Origin = Origin(sessions: map<string, string>, tasks: map<string, Status>)

  function Begin(origin: Origin): Db {
    Db(map[], origin.tasks, origin.sessions, [], [], [], [])
  }

  function After(origin: Origin, steps: seq<Step>): Db {
    if steps == [] then Begin(origin) else Do(After(origin, steps[..|steps| - 1]), steps[|steps| - 1])
  }

  lemma AfterMore(origin: Origin, steps: seq<Step>, s: Step)
    ensures After(origin, steps + [s]) == Do(After(origin, steps), s)
  {
    hide Do;
    assert (steps + [s])[..|steps|] == steps;
  }

  // ----- the services and the routes, statement by statement

  class Host {
    var approvals: map<string, Approval>
    var tasks: map<string, Status>
    var sessions: map<string, string>
    var events: seq<Event>
    var running: seq<Running>
    ghost var lost: seq<Running>
    ghost var trail: seq<Happening>

    constructor (origin: Origin)
      ensures State() == Begin(origin)
    {
      approvals, tasks, sessions, events := map[], origin.tasks, origin.sessions, [];
      running, lost, trail := [], [], [];
    }

    ghost function State(): Db
      reads this
    {
      Db(approvals, tasks, sessions, events, running, lost, trail)
    }

    method AppendMcpEvent(session: Option<string>, body: EventType)
      modifies this`events
      ensures State() == Append(old(State()), session, body)
    {
      if session.None? {
        return;
      }
      events := events + [Event(None, session.value, None, body)];
    }

    method CreateAgentApproval(tool: string, session: Option<string>, id: string) returns (ok: bool)
      modifies this`approvals, this`trail
      ensures ok == (id !in old(approvals))
      ensures !ok ==> State() == old(State())
      ensures ok ==> State() == Happen(old(State()), Requested(id, tool, session))
                                .(approvals := old(approvals)[id := Row(session, tool)])
    {
      ok := id !in approvals;
      if ok {
        approvals := approvals[id := Approval(session, None, MCP_TOOL, Some(tool), Pending)];
        trail := trail + [Requested(id, tool, session)];
      }
    }

    method CallTool(c: ToolCall) returns (answer: Answer)
      modifies this
      ensures (State(), answer) == Call(old(State()), c)
    {
      hide Trim, Canonical;
      var tool := Canonical(c.name);
      if tool !in READ_ONLY + MUTATING {
        return Unsupported;
      }
      var session := InputString(c.session);
      AppendMcpEvent(session, ToolCalled(tool));
      ghost var grant := NotNeeded;
      if tool in MUTATING {
        var approvalId := InputString(c.approval);
        if approvalId.Some? {
          if approvalId.value !in approvals {
            return ApprovalNotFound;
          }
          var approval := approvals[approvalId.value];
          if approval.actionType != MCP_TOOL || approval.commandPreview != Some(tool) {
            return OtherTool;
          }
          if session.Some? && InSession(approval) && approval.sessionId != session {
            return OtherSession;
          }
          if approval.status != Approved {
            return StillWaiting(approval.status);
          }
          grant := ByApproval(approvalId.value, approval.sessionId);
        } else {
          if c.decision == Deny {
            trail := trail + [Denied(tool, session)];
            AppendMcpEvent(session, ToolFailed(tool));
            return DeniedByPolicy;
          }
          if c.decision == Prompt {
            var created := CreateAgentApproval(tool, session, c.freshId);
            if !created {
              return IdTaken;
            }
            AppendMcpEvent(session, ApprovalRequested(c.freshId));
            return AskedFor(c.freshId);
          }
          grant := ByPolicy(c.decision);
        }
      }
      trail := trail + [Executed(tool, session, grant)];
      if tool !in IMMEDIATE {
        running := running + [Running(tool, session)];
        return Started;
      }
      answer := FinishTool(tool, session, c.succeeds);
    }

    method FinishTool(tool: string, session: Option<string>, succeeds: bool) returns (answer: Answer)
      modifies this`events
      ensures (State(), answer) == Finish(old(State()), session, tool, succeeds)
    {
      if succeeds {
        AppendMcpEvent(session, ToolSucceeded(tool));
        return Succeeded;
      }
      AppendMcpEvent(session, ToolFailed(tool));
      return Failed;
    }

    // What callTool does when an awaited tool ends.
    method EndTool(index: nat, succeeds: bool) returns (answer: Answer)
      modifies this`running, this`events
      ensures (State(), answer) == End(old(State()), index, succeeds)
    {
      if index >= |running| {
        return NotRunning;
      }
      var call := running[index];
      running := running[..index] + running[index + 1..];
      answer := FinishTool(call.tool, call.session, succeeds);
    }

    method ResolveAgentApproval(id: string, approve: bool) returns (verdict: Verdict)
      modifies this`approvals, this`events, this`trail
      ensures (State(), verdict) == Resolve(old(State()), id, approve)
    {
      if id !in approvals {
        return NotFound;
      }
      var approval := approvals[id];
      if approval.status != Pending {
        return AlreadyResolved;
      }
      if InSession(approval) && approval.sessionId.value in sessions {
        if sessions[approval.sessionId.value] in TERMINAL {
          return TerminalSession;
        }
      }
      var status := if approve then Approved else Rejected;
      trail := trail + [Resolved(id, status, approval.sessionId, SessionStatus(State(), approval), true)];
      approvals := approvals[id := approval.(status := status)];
      if InSession(approval) {
        if NameTaken(events, EventName(id, status)) {
          return EventClash;
        }
        events := events + [ResolvedEvent(id, status, approval.sessionId.value, approval.runId)];
      }
      return Done;
    }

    // The route; `awaited` is whether the task service holds a resolver for the approval.
    method DecideApproval(id: string, approve: bool, awaited: bool) returns (verdict: Verdict)
      modifies this`approvals, this`tasks, this`events, this`trail
      ensures (State(), verdict) == Decide(old(State()), id, approve, awaited)
    {
      hide Resolve, SettleTask;
      if id !in tasks {
        verdict := ResolveAgentApproval(id, approve);
        return;
      }
      if tasks[id] != Pending {
        return AlreadyResolved;
      }
      if !awaited {
        return NotAwaited;
      }
      ResolveTaskApproval(id, if approve then Approved else Rejected);
      return Done;
    }

    // `ApprovalRepository.create`
    method CreateTaskApproval(r: TaskRequest) returns (ok: bool)
      modifies this`approvals, this`tasks, this`trail
      ensures ok == (r.id !in old(tasks))
      ensures State() == Create(old(State()), r)
    {
      if r.id in tasks {
        return false;
      }
      tasks := tasks[r.id := r.status];
      if r.id !in approvals {
        var row := Approval(Some(r.sessionId), Some(r.run), r.actionType, r.commandPreview, r.status);
        approvals := approvals[r.id := row];
        trail := trail + [Mirrored(r.id, r.actionType, r.commandPreview, Some(r.sessionId), r.status)];
      }
      return true;
    }

    // `ApprovalRepository.resolve`
    method ResolveTaskApproval(id: string, status: Settled)
      requires id in tasks
      modifies this`approvals, this`tasks, this`trail
      ensures State() == SettleTask(old(State()), id, status)
    {
      if tasks[id] == Pending {
        tasks := tasks[id := status];
      }
      if id in approvals && approvals[id].status == Pending {
        var approval := approvals[id];
        trail := trail + [Resolved(id, status, approval.sessionId, SessionStatus(State(), approval), false)];
        approvals := approvals[id := approval.(status := status)];
      }
    }

    // What the session service does about a `task.approval_resolved`.
    method HandleApprovalResolved(id: string, word: string, session: string)
      modifies this`events
      ensures State() == Report(old(State()), id, word, session)
    {
      if id in tasks {
        AppendMcpEvent(Some(session), ApprovalResolved(id, tasks[id]));
      } else if word == Word(Approved) {
        AppendMcpEvent(Some(session), ApprovalResolved(id, Approved));
      } else if word == Word(Rejected) {
        AppendMcpEvent(Some(session), ApprovalResolved(id, Rejected));
      } else if word == Word(Expired) {
        AppendMcpEvent(Some(session), ApprovalResolved(id, Expired));
      } else {
        AppendMcpEvent(Some(session), ApprovalUnclear(id));
      }
    }

    // `appendAgentEvent` of the event repository, for every task event.
    method AppendTaskEvent(session: string, run: string, body: EventType)
      modifies this`events
      ensures State() == File(old(State()), session, run, body)
    {
      events := events + [Event(None, session, Some(run), body)];
    }
  }
}
