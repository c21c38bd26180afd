/** How many events there are about resolutions and about tools: the route writes one for each of its
    own resolutions, all others come from reports, and no execution goes without its result. */
module ApprovalEvents {
  import opened Options
  import opened Lists
  import opened McpApproval
  import opened ApprovalRuns
  import opened ApprovalGrants

  // ----- approval.resolved

  // An event about this verdict in this session, of the route or not.
  datatype Notice = Notice(id: string, status: Status, sessionId: string, byRoute: bool)

  predicate IsNotice(e: Event, n: Notice) {
    e.body == ApprovalResolved(n.id, n.status) && e.sessionId == n.sessionId && e.name.Some? == n.byRoute
  }

  function NoticeIn(n: Notice): Event -> nat {
    (e: Event) => if IsNotice(e, n) then 1 else 0
  }

  // The resolution that an event of the route is written for.
  predicate Gives(h: Happening, n: Notice) {
    && n.byRoute && h.Resolved? && h.byRoute
    && h.approvalId == n.id && h.status == n.status && h.sessionId == Some(n.sessionId)
  }

  function GivenBy(n: Notice): Happening -> nat {
    (h: Happening) => if Gives(h, n) then 1 else 0
  }

  function NoticeOf(body: EventType, sessionId: string): Option<Notice> {
    if body.ApprovalResolved? then Some(Notice(body.approvalId, body.status, sessionId, false)) else None
  }

  // What a step tells that is no resolution itself.
  function Tells(db: Db, s: Step): Option<Notice> {
    match s
    case Reports(id, word, session) => NoticeOf(ReportBody(db, id, word), session)
    case Files(session, _, body) => NoticeOf(body, session)
    case _ => None
  }

  function Count(db: Db, s: Step, n: Notice): nat {
    if Tells(db, s) == Some(n) then 1 else 0
  }

  // How many steps of a run tell this.
  function Tellings(origin: Origin, steps: seq<Step>, n: Notice): nat {
    if steps == [] then 0
    else
      var (init, last) := (steps[..|steps| - 1], steps[|steps| - 1]);
      Tellings(origin, init, n) + Count(After(origin, init), last, n)
  }

  // The events are those of the route's resolutions and as many as have been told.
  predicate Tallied(db: Db, n: Notice, told: nat) {
    Total(db.events, NoticeIn(n)) == Total(db.trail, GivenBy(n)) + told
  }

  lemma EventTallied(db: Db, e: Event, n: Notice, told: nat)
    requires !IsNotice(e, n) && Tallied(db, n, told)
    ensures Tallied(db.(events := db.events + [e]), n, told)
  {
    hide Total;
    TotalMore(db.events, e, NoticeIn(n));
  }

  lemma HappenTallied(db: Db, h: Happening, n: Notice, told: nat)
    requires !Gives(h, n) && Tallied(db, n, told)
    ensures Tallied(Happen(db, h), n, told)
  {
    hide Total;
    TotalMore(db.trail, h, GivenBy(n));
  }

  lemma BothTallied(db: Db, h: Happening, e: Event, n: Notice, told: nat)
    requires (IsNotice(e, n) <==> Gives(h, n)) && Tallied(db, n, told)
    ensures Tallied(db.(events := db.events + [e], trail := db.trail + [h]), n, told)
  {
    hide Total;
    TotalMore(db.events, e, NoticeIn(n));
    TotalMore(db.trail, h, GivenBy(n));
  }

  lemma AppendTallied(db: Db, session: Option<string>, body: EventType, n: Notice, told: nat)
    requires !body.ApprovalResolved? && Tallied(db, n, told)
    ensures Tallied(Append(db, session, body), n, told)
  {
    hide Tallied;
    if session.Some? {
      EventTallied(db, Event(None, session.value, None, body), n, told);
    }
  }

  lemma TablesTallied(db: Db, after: Db, n: Notice, told: nat)
    requires after.events == db.events && after.trail == db.trail && Tallied(db, n, told)
    ensures Tallied(after, n, told)
  {
    hide Total;
  }

  lemma FinishTallied(db: Db, session: Option<string>, tool: string, succeeds: bool, n: Notice, told: nat)
    requires Tallied(db, n, told)
    ensures Tallied(Finish(db, session, tool, succeeds).0, n, told)
  {
    hide Tallied, Append;
    AppendTallied(db, session, ToolSucceeded(tool), n, told);
    AppendTallied(db, session, ToolFailed(tool), n, told);
  }

  lemma ExecuteTallied(db: Db, session: Option<string>, tool: string, grant: Grant, succeeds: bool, n: Notice,
                       told: nat)
    requires Tallied(db, n, told)
    ensures Tallied(Execute(db, session, tool, grant, succeeds).0, n, told)
  {
    hide Tallied, Happen, Finish;
    var ran := Happen(db, Executed(tool, session, grant));
    HappenTallied(db, Executed(tool, session, grant), n, told);
    FinishTallied(ran, session, tool, succeeds, n, told);
    TablesTallied(ran, ran.(running := ran.running + [Running(tool, session)]), n, told);
  }

  lemma EndTallied(db: Db, index: nat, succeeds: bool, n: Notice, told: nat)
    requires Tallied(db, n, told)
    ensures Tallied(End(db, index, succeeds).0, n, told)
  {
    hide Tallied, Finish;
    if index < |db.running| {
      var call := db.running[index];
      var without := db.(running := db.running[..index] + db.running[index + 1..]);
      TablesTallied(db, without, n, told);
      FinishTallied(without, call.session, call.tool, succeeds, n, told);
    }
  }

  lemma RefuseTallied(db: Db, session: Option<string>, tool: string, n: Notice, told: nat)
    requires Tallied(db, n, told)
    ensures Tallied(Refuse(db, session, tool).0, n, told)
  {
    hide Tallied, Happen, Append;
    HappenTallied(db, Denied(tool, session), n, told);
    AppendTallied(Happen(db, Denied(tool, session)), session, ToolFailed(tool), n, told);
  }

  lemma RequestTallied(db: Db, session: Option<string>, tool: string, freshId: string, n: Notice, told: nat)
    requires Tallied(db, n, told)
    ensures Tallied(Request(db, session, tool, freshId).0, n, told)
  {
    hide Tallied, Append;
    if freshId !in db.approvals {
      var asked := Happen(db, Requested(freshId, tool, session));
      var inserted := asked.(approvals := db.approvals[freshId := Row(session, tool)]);
      HappenTallied(db, Requested(freshId, tool, session), n, told);
      TablesTallied(asked, inserted, n, told);
      AppendTallied(inserted, session, ApprovalRequested(freshId), n, told);
    }
  }

  lemma CallTallied(db: Db, c: ToolCall, n: Notice, told: nat)
    requires Tallied(db, n, told)
    ensures Tallied(Call(db, c).0, n, told)
  {
    hide Tallied, Canonical, InputString, Append, Objection, Execute, Request, Refuse;
    var tool := Canonical(c.name);
    if tool in READ_ONLY + MUTATING {
      var (session, approval) := (InputString(c.session), InputString(c.approval));
      AppendTallied(db, session, ToolCalled(tool), n, told);
      var called := Append(db, session, ToolCalled(tool));
      RefuseTallied(called, session, tool, n, told);
      forall grant
        ensures Tallied(Execute(called, session, tool, grant, c.succeeds).0, n, told)
      {
        ExecuteTallied(called, session, tool, grant, c.succeeds, n, told);
      }
      RequestTallied(called, session, tool, c.freshId, n, told);
      if approval.Some? && Objection(db.approvals, approval.value, tool, session).None? {
        NoObjection(db.approvals, approval.value, tool, session);
      }
    }
  }

  // An event of the route needs a session.
  predicate InASession(n: Notice) {
    n.byRoute ==> n.sessionId != ""
  }

  lemma ResolveTallied(db: Db, id: string, approve: bool, n: Notice, told: nat)
    requires Consistent(db) && id !in db.tasks && Tallied(db, n, told) && InASession(n)
    ensures Tallied(Resolve(db, id, approve).0, n, told)
  {
    hide Consistent, Total, EventName, NameTaken, SessionStatus, Tallied;
    ResolveKeeps(db, id, approve);
    if id in db.approvals && db.approvals[id].status.Pending? {
      var (a, status) := (db.approvals[id], Choice(approve));
      var settled := Settle(db, id, status, true);
      var h := settled.trail[|db.trail|];
      if InSession(a) {
        var e := ResolvedEvent(id, status, a.sessionId.value, a.runId);
        BothTallied(db, h, e, n, told);
        var noted := db.(events := db.events + [e], trail := db.trail + [h]);
        TablesTallied(noted, settled.(events := db.events + [e]), n, told);
      } else {
        HappenTallied(db, h, n, told);
        TablesTallied(Happen(db, h), settled, n, told);
      }
    }
  }

  lemma SettleTaskTallied(db: Db, id: string, status: Settled, n: Notice, told: nat)
    requires id in db.tasks && Tallied(db, n, told)
    ensures Tallied(SettleTask(db, id, status), n, told)
  {
    hide Total, SessionStatus, Tallied;
    var after := SettleTask(db, id, status);
    if id in db.approvals && db.approvals[id].status.Pending? {
      var h := after.trail[|db.trail|];
      HappenTallied(db, h, n, told);
      TablesTallied(Happen(db, h), after, n, told);
    } else {
      TablesTallied(db, after, n, told);
    }
  }

  lemma MirrorTallied(db: Db, r: TaskRequest, n: Notice, told: nat)
    requires Tallied(db, n, told)
    ensures Tallied(Mirror(db, r), n, told)
  {
    hide Tallied;
    if r.id !in db.approvals {
      var h := Mirrored(r.id, r.actionType, r.commandPreview, Some(r.sessionId), r.status);
      HappenTallied(db, h, n, told);
      TablesTallied(Happen(db, h), Mirror(db, r), n, told);
    }
  }

  lemma CreateTallied(db: Db, r: TaskRequest, n: Notice, told: nat)
    requires Tallied(db, n, told)
    ensures Tallied(Create(db, r), n, told)
  {
    hide Tallied, Mirror;
    if r.id !in db.tasks {
      var noted := db.(tasks := db.tasks[r.id := r.status]);
      TablesTallied(db, noted, n, told);
      MirrorTallied(noted, r, n, told);
    }
  }

  // An event without a name tells what it says.
  lemma StoredTallied(db: Db, e: Event, n: Notice, told: nat)
    requires e.name.None? && Tallied(db, n, told)
    ensures Tallied(db.(events := db.events + [e]), n,
                    told + if NoticeOf(e.body, e.sessionId) == Some(n) then 1 else 0)
  {
    hide Total;
    TotalMore(db.events, e, NoticeIn(n));
  }

  lemma DoTallied(db: Db, s: Step, n: Notice, told: nat)
    requires Consistent(db) && Tallied(db, n, told) && InASession(n)
    ensures Tallied(Do(db, s), n, told + Count(db, s, n))
  {
    hide Consistent, Tallied, Call, End, Resolve, Create, Mirror, SettleTask, ReportBody, NoticeOf;
    match s
    case Calls(c) => CallTallied(db, c, n, told);
    case Ends(index, succeeds) => EndTallied(db, index, succeeds, n, told);
    case Decides(id, approve, _) =>
      if id !in db.tasks {
        ResolveTallied(db, id, approve, n, told);
      } else {
        SettleTaskTallied(db, id, Choice(approve), n, told);
      }
    case Creates(r) => CreateTallied(db, r, n, told);
    case Copies(r) => if r.id in db.tasks { MirrorTallied(db, r.(status := db.tasks[r.id]), n, told); }
    case SettlesTask(id, status) => if id in db.tasks { SettleTaskTallied(db, id, status, n, told); }
    case Reports(id, word, session) => StoredTallied(db, Event(None, session, None, ReportBody(db, id, word)), n, told);
    case Files(session, run, body) => StoredTallied(db, Event(None, session, Some(run), body), n, told);
    case SetsSession(id, status) => TablesTallied(db, Do(db, s), n, told);
    case Restarts => TablesTallied(db, Do(db, s), n, told);
  }

  lemma {:induction false} RunTallied(origin: Origin, steps: seq<Step>, n: Notice)
    requires InASession(n)
    ensures Tallied(After(origin, steps), n, Tellings(origin, steps, n))
  {
    hide Do, Consistent, Count;
    if steps != [] {
      hide Total;
      var (init, last) := (steps[..|steps| - 1], steps[|steps| - 1]);
      RunTallied(origin, init, n);
      RunConsistent(origin, init);
      DoTallied(After(origin, init), last, n, Tellings(origin, init, n));
    }
  }

  predicate Given(trail: seq<Happening>, n: Notice) {
    exists k :: 0 <= k < |trail| && Gives(trail[k], n)
  }

  // What happens once is counted once.
  lemma {:induction false} GivenOnce(trail: seq<Happening>, n: Notice)
    requires Lawful(trail) && n.byRoute
    ensures Total(trail, GivenBy(n)) == if Given(trail, n) then 1 else 0
  {
    if trail != [] {
      hide Lawful;
      var (init, last) := (trail[..|trail| - 1], trail[|trail| - 1]);
      LawfulInit(trail);
      GivenOnce(init, n);
      GivenMore(init, last, n);
      assert trail == init + [last];
      if Gives(last, n) && Given(init, n) {
        var k :| 0 <= k < |init| && Gives(init[k], n);
        OneVerdict(trail, k, |trail| - 1, n.id);
      }
    }
  }

  lemma GivenMore(trail: seq<Happening>, h: Happening, n: Notice)
    ensures Given(trail + [h], n) <==> Given(trail, n) || Gives(h, n)
  {
    hide Gives;
    var longer := trail + [h];
    assert longer[|trail|] == h && forall k :: 0 <= k < |trail| ==> longer[k] == trail[k];
  }

  lemma {:induction false} NoneTold(origin: Origin, steps: seq<Step>, n: Notice)
    requires n.byRoute
    ensures Tellings(origin, steps, n) == 0
  {
    hide ReportBody;
    if steps != [] {
      NoneTold(origin, steps[..|steps| - 1], n);
    }
  }

  lemma {:induction false} NoneGiven(trail: seq<Happening>, n: Notice)
    requires !n.byRoute
    ensures Total(trail, GivenBy(n)) == 0
  {
    if trail != [] {
      NoneGiven(trail[..|trail| - 1], n);
    }
  }

  // Per approval, verdict and session, whatever is told of it otherwise: if the route gave this
  // verdict, there is exactly one event of the route about it, and none otherwise.
  lemma {:induction false} ExactlyOneEvent(origin: Origin, steps: seq<Step>, id: string, status: Status,
                                           sessionId: string)
    requires sessionId != ""
    ensures var (db, n) := (After(origin, steps), Notice(id, status, sessionId, true));
            Total(db.events, NoticeIn(n)) == if Given(db.trail, n) then 1 else 0
  {
    hide After, Total, Tellings;
    var n := Notice(id, status, sessionId, true);
    RunConsistent(origin, steps);
    RunTallied(origin, steps, n);
    NoneTold(origin, steps, n);
    GivenOnce(After(origin, steps).trail, n);
  }

  function ResolvedIn(id: string, status: Status, sessionId: string): Event -> nat {
    (e: Event) => if e.body == ApprovalResolved(id, status) && e.sessionId == sessionId then 1 else 0
  }

  lemma {:induction false} ByEither(events: seq<Event>, id: string, status: Status, sessionId: string)
    ensures Total(events, ResolvedIn(id, status, sessionId)) ==
            Total(events, NoticeIn(Notice(id, status, sessionId, true))) +
            Total(events, NoticeIn(Notice(id, status, sessionId, false)))
  {
    if events != [] {
      ByEither(events[..|events| - 1], id, status, sessionId);
    }
  }

  // Of all `approval.resolved` events, about any approval or none: there are as many as the run
  // has told, by reports to the session service or by task events of that very type, and one more
  // if the route resolved it so.
  lemma {:induction false} ResolvedEvents(origin: Origin, steps: seq<Step>, id: string, status: Status,
                                          sessionId: string)
    requires sessionId != ""
    ensures var (db, n) := (After(origin, steps), Notice(id, status, sessionId, true));
            Total(db.events, ResolvedIn(id, status, sessionId)) ==
            (if Given(db.trail, n) then 1 else 0) + Tellings(origin, steps, n.(byRoute := false))
  {
    hide After, Total, Tellings;
    var (db, told) := (After(origin, steps), Notice(id, status, sessionId, false));
    ExactlyOneEvent(origin, steps, id, status, sessionId);
    RunTallied(origin, steps, told);
    NoneGiven(db.trail, told);
    ByEither(db.events, id, status, sessionId);
  }

  // ----- no execution without its result

  // A result that the MCP service writes has no runId; task events that look like one have.
  predicate IsResult(e: Event, tool: string, session: string) {
    e.run.None? && e.sessionId == session && (e.body == ToolSucceeded(tool) || e.body == ToolFailed(tool))
  }

  function Result(tool: string, session: string): Event -> nat {
    (e: Event) => if IsResult(e, tool, session) then 1 else 0
  }

  function InProgress(tool: string, session: string): Running -> nat {
    (r: Running) => if r == Running(tool, Some(session)) then 1 else 0
  }

  // A happening that has to be followed by a result.
  predicate WantsResult(h: Happening, tool: string, session: string) {
    (h.Executed? || h.Denied?) && h.tool == tool && h.session == Some(session)
  }

  function Wanting(tool: string, session: string): Happening -> nat {
    (h: Happening) => if WantsResult(h, tool, session) then 1 else 0
  }

  // Results that are due but neither written, nor on their way, nor lost.
  function Due(db: Db, tool: string, session: string): int {
    Total(db.trail, Wanting(tool, session)) - Total(db.events, Result(tool, session)) -
    Total(db.running, InProgress(tool, session)) - Total(db.lost, InProgress(tool, session))
  }

  lemma EventDue(db: Db, e: Event, tool: string, session: string)
    ensures Due(db.(events := db.events + [e]), tool, session) ==
            Due(db, tool, session) - if IsResult(e, tool, session) then 1 else 0
  {
    hide Total;
    TotalMore(db.events, e, Result(tool, session));
  }

  lemma AppendDue(db: Db, from: Option<string>, body: EventType, tool: string, session: string)
    ensures Due(Append(db, from, body), tool, session) == Due(db, tool, session) -
            if from.Some? && IsResult(Event(None, from.value, None, body), tool, session) then 1 else 0
  {
    hide Due;
    if from.Some? {
      EventDue(db, Event(None, from.value, None, body), tool, session);
    }
  }

  lemma HappenDue(db: Db, h: Happening, tool: string, session: string)
    ensures Due(Happen(db, h), tool, session) == Due(db, tool, session) + if WantsResult(h, tool, session) then 1 else 0
  {
    hide Total;
    TotalMore(db.trail, h, Wanting(tool, session));
  }

  function One(of: string, from: Option<string>, tool: string, session: string): int {
    if of == tool && from == Some(session) then 1 else 0
  }

  lemma FinishDue(db: Db, from: Option<string>, of: string, succeeds: bool, tool: string, session: string)
    ensures Due(Finish(db, from, of, succeeds).0, tool, session) ==
            Due(db, tool, session) - One(of, from, tool, session)
  {
    hide Due, Append;
    AppendDue(db, from, ToolSucceeded(of), tool, session);
    AppendDue(db, from, ToolFailed(of), tool, session);
  }

  lemma StartDue(db: Db, from: Option<string>, of: string, tool: string, session: string)
    ensures Due(db.(running := db.running + [Running(of, from)]), tool, session) ==
            Due(db, tool, session) - One(of, from, tool, session)
  {
    hide Total;
    TotalMore(db.running, Running(of, from), InProgress(tool, session));
  }

  lemma {:induction false} ExecuteDue(db: Db, from: Option<string>, of: string, grant: Grant, succeeds: bool,
                                      tool: string, session: string)
    ensures Due(Execute(db, from, of, grant, succeeds).0, tool, session) == Due(db, tool, session)
  {
    hide Due, Happen, Finish;
    var ran := Happen(db, Executed(of, from, grant));
    HappenDue(db, Executed(of, from, grant), tool, session);
    FinishDue(ran, from, of, succeeds, tool, session);
    StartDue(ran, from, of, tool, session);
  }

  lemma EndDue(db: Db, index: nat, succeeds: bool, tool: string, session: string)
    ensures Due(End(db, index, succeeds).0, tool, session) == Due(db, tool, session)
  {
    hide Total, Finish;
    if index < |db.running| {
      var call := db.running[index];
      var (before, rest) := (db.running[..index], db.running[index + 1..]);
      TotalWithout(db.running, index, InProgress(tool, session));
      FinishDue(db.(running := before + rest), call.session, call.tool, succeeds, tool, session);
    }
  }

  lemma RefuseDue(db: Db, from: Option<string>, of: string, tool: string, session: string)
    ensures Due(Refuse(db, from, of).0, tool, session) == Due(db, tool, session)
  {
    hide Due, Happen, Append;
    HappenDue(db, Denied(of, from), tool, session);
    AppendDue(Happen(db, Denied(of, from)), from, ToolFailed(of), tool, session);
  }

  // Tables do not matter.
  lemma TablesDue(db: Db, after: Db, tool: string, session: string)
    requires after == db.(approvals := after.approvals, tasks := after.tasks, sessions := after.sessions)
    ensures Due(after, tool, session) == Due(db, tool, session)
  {
    hide Total;
  }

  lemma RequestDue(db: Db, from: Option<string>, of: string, id: string, tool: string, session: string)
    ensures Due(Request(db, from, of, id).0, tool, session) == Due(db, tool, session)
  {
    hide Due, Append;
    if id !in db.approvals {
      var asked := Happen(db, Requested(id, of, from));
      var inserted := asked.(approvals := db.approvals[id := Row(from, of)]);
      HappenDue(db, Requested(id, of, from), tool, session);
      TablesDue(asked, inserted, tool, session);
      AppendDue(inserted, from, ApprovalRequested(id), tool, session);
    }
  }

  lemma CallDue(db: Db, c: ToolCall, tool: string, session: string)
    ensures Due(Call(db, c).0, tool, session) == Due(db, tool, session)
  {
    hide Due, Canonical, InputString, Append, Objection, Execute, Request, Refuse;
    var of := Canonical(c.name);
    if of in READ_ONLY + MUTATING {
      var (from, approval) := (InputString(c.session), InputString(c.approval));
      AppendDue(db, from, ToolCalled(of), tool, session);
      var called := Append(db, from, ToolCalled(of));
      RefuseDue(called, from, of, tool, session);
      forall grant
        ensures Due(Execute(called, from, of, grant, c.succeeds).0, tool, session) == Due(called, tool, session)
      {
        ExecuteDue(called, from, of, grant, c.succeeds, tool, session);
      }
      RequestDue(called, from, of, c.freshId, tool, session);
      if approval.Some? && Objection(db.approvals, approval.value, of, from).None? {
        NoObjection(db.approvals, approval.value, of, from);
      }
    }
  }

  lemma SettleDue(db: Db, id: string, status: Settled, byRoute: bool, tool: string, session: string)
    requires id in db.approvals
    ensures Due(Settle(db, id, status, byRoute), tool, session) == Due(db, tool, session)
  {
    hide Due, SessionStatus;
    var a := db.approvals[id];
    var h := Resolved(id, status, a.sessionId, SessionStatus(db, a), byRoute);
    HappenDue(db, h, tool, session);
    TablesDue(Happen(db, h), Settle(db, id, status, byRoute), tool, session);
  }

  lemma ResolveDue(db: Db, id: string, approve: bool, tool: string, session: string)
    ensures Due(Resolve(db, id, approve).0, tool, session) == Due(db, tool, session)
  {
    hide Due, EventName, NameTaken, SessionStatus, Settle;
    if id in db.approvals {
      var (a, status) := (db.approvals[id], Choice(approve));
      SettleDue(db, id, status, true, tool, session);
      SettlesRow(db, id, status, true);
      if InSession(a) {
        EventDue(Settle(db, id, status, true), ResolvedEvent(id, status, a.sessionId.value, a.runId), tool, session);
      }
    }
  }

  lemma SettleTaskDue(db: Db, id: string, status: Settled, tool: string, session: string)
    requires id in db.tasks
    ensures Due(SettleTask(db, id, status), tool, session) == Due(db, tool, session)
  {
    hide Due, Settle;
    var noted := if db.tasks[id].Pending? then db.(tasks := db.tasks[id := status]) else db;
    TablesDue(db, noted, tool, session);
    if id in db.approvals {
      SettleDue(noted, id, status, false, tool, session);
    }
  }

  lemma MirrorDue(db: Db, r: TaskRequest, tool: string, session: string)
    ensures Due(Mirror(db, r), tool, session) == Due(db, tool, session)
  {
    hide Due;
    var h := Mirrored(r.id, r.actionType, r.commandPreview, Some(r.sessionId), r.status);
    HappenDue(db, h, tool, session);
    if r.id !in db.approvals {
      TablesDue(Happen(db, h), Mirror(db, r), tool, session);
    }
  }

  lemma CreateDue(db: Db, r: TaskRequest, tool: string, session: string)
    ensures Due(Create(db, r), tool, session) == Due(db, tool, session)
  {
    hide Due, Mirror;
    var noted := db.(tasks := db.tasks[r.id := r.status]);
    TablesDue(db, noted, tool, session);
    MirrorDue(noted, r, tool, session);
  }

  lemma RestartDue(db: Db, tool: string, session: string)
    ensures Due(Restart(db), tool, session) == Due(db, tool, session)
  {
    TotalConcat(db.lost, db.running, InProgress(tool, session));
  }

  lemma {:induction false} DoDue(db: Db, s: Step, tool: string, session: string)
    ensures Due(Do(db, s), tool, session) == Due(db, tool, session)
  {
    hide Due, Call, End, Resolve, SettleTask, Mirror, Create, Append, Restart;
    match s
    case Calls(c) => CallDue(db, c, tool, session);
    case Ends(index, succeeds) => EndDue(db, index, succeeds, tool, session);
    case Decides(id, approve, _) =>
      ResolveDue(db, id, approve, tool, session);
      if id in db.tasks { SettleTaskDue(db, id, Choice(approve), tool, session); }
    case Creates(r) => CreateDue(db, r, tool, session);
    case Copies(r) => if r.id in db.tasks { MirrorDue(db, r.(status := db.tasks[r.id]), tool, session); }
    case SettlesTask(id, status) => if id in db.tasks { SettleTaskDue(db, id, status, tool, session); }
    case Reports(id, word, to) => AppendDue(db, Some(to), ReportBody(db, id, word), tool, session);
    case Files(to, run, body) => EventDue(db, Event(None, to, Some(run), body), tool, session);
    case SetsSession(id, status) => TablesDue(db, Do(db, s), tool, session);
    case Restarts => RestartDue(db, tool, session);
  }

  // Every execution and every denial in a session has one result event there, or is in progress,
  // or was lost in a restart, and no result event without a runId comes from elsewhere.
  lemma {:induction false} ResultsConserved(origin: Origin, steps: seq<Step>, tool: string, session: string)
    ensures var db := After(origin, steps);
            Total(db.trail, Wanting(tool, session)) ==
            Total(db.events, Result(tool, session)) + Total(db.running, InProgress(tool, session)) +
            Total(db.lost, InProgress(tool, session))
  {
    hide Do;
    if steps != [] {
      hide Total;
      ResultsConserved(origin, steps[..|steps| - 1], tool, session);
      DoDue(After(origin, steps[..|steps| - 1]), steps[|steps| - 1], tool, session);
    }
  }
}
