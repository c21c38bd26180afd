/** When the events about resolutions tell the truth. The route's always do. The others are reports,
    and a remote worker may report what has not happened: that does harm exactly if the tables do
    not hold the reported verdict at that moment. */
module ApprovalReports {
  import opened Options
  import opened McpApproval
  import opened ApprovalRuns
  import opened ApprovalGrants
  import opened ApprovalEvents

  // Some table holds this verdict on the approval.
  predicate Holds(db: Db, id: string, status: Status) {
    && !status.Pending?
    && ((id in db.approvals && db.approvals[id].status == status) || (id in db.tasks && db.tasks[id] == status))
  }

  // The event is about this approval, and tells a verdict that no table holds.
  predicate Wrong(e: Event, id: string, db: Db) {
    e.body.ApprovalResolved? && e.body.approvalId == id && !Holds(db, id, e.body.status)
  }

  predicate AllTrue(db: Db, id: string) {
    forall k :: 0 <= k < |db.events| ==> !Wrong(db.events[k], id, db)
  }

  // What the step tells of the approval, if anything, is the verdict of a table before the step.
  predicate WellTold(db: Db, s: Step, id: string) {
    var n := Tells(db, s);
    n.Some? && n.value.id == id ==> Holds(db, id, n.value.status)
  }

  // For a report to the session service: the task's approval is settled, or there is none and the
  // reported word, if it is a verdict, is the one on the approval of this id.
  lemma WellReported(db: Db, id: string, word: string, session: string)
    requires Consistent(db)
    ensures WellTold(db, Reports(id, word, session), id) <==>
            if id in db.tasks then !db.tasks[id].Pending?
            else VerdictOf(word).None? || (id in db.approvals && db.approvals[id].status == VerdictOf(word).value)
  {
    hide Lawful, Backed, Recorded, Truthful;
    if id in db.approvals {
      StatusesAgree(db, id);
    }
  }

  // ----- verdicts stay

  lemma TasksFinal(db: Db, s: Step, id: string)
    requires id in db.tasks && !db.tasks[id].Pending?
    ensures id in Do(db, s).tasks && Do(db, s).tasks[id] == db.tasks[id]
  {
    hide Call, Resolve, SessionStatus, End, Append;
    match s
    case Calls(c) => CallTasks(db, c);
    case Decides(rid, approve, _) => ResolveTasks(db, rid, approve);
    case Ends(index, succeeds) => EndTasks(db, index, succeeds);
    case Reports(rid, word, session) => AppendOnlyAddsEvents(db, Some(session), ReportBody(db, rid, word));
    case _ =>
  }

  lemma CallTasks(db: Db, c: ToolCall)
    ensures Call(db, c).0.tasks == db.tasks
  {
    hide Canonical, InputString, Objection, Append;
    var (tool, session) := (Canonical(c.name), InputString(c.session));
    forall from, body
      ensures Append(from, session, body).tasks == from.tasks
    {
      AppendOnlyAddsEvents(from, session, body);
    }
    if tool in MUTATING && InputString(c.approval).Some? {
      if Objection(db.approvals, InputString(c.approval).value, tool, session).None? {
        NoObjection(db.approvals, InputString(c.approval).value, tool, session);
      }
    }
  }

  lemma EndTasks(db: Db, index: nat, succeeds: bool)
    ensures End(db, index, succeeds).0.tasks == db.tasks
  {
  }

  lemma ResolveTasks(db: Db, id: string, approve: bool)
    ensures Resolve(db, id, approve).0.tasks == db.tasks
  {
    hide SessionStatus, NameTaken, EventName;
  }

  lemma HoldsStays(db: Db, s: Step, id: string, status: Status)
    requires Holds(db, id, status)
    ensures Holds(Do(db, s), id, status)
  {
    hide Do;
    if id in db.approvals && db.approvals[id].status == status {
      RowsFinal(db, s, id);
    } else {
      TasksFinal(db, s, id);
    }
  }

  // ----- the events that a step adds

  // The new events about resolutions are what the step tells, or the route's about a verdict it
  // gives; and what it tells is among them.
  ghost predicate Adds(db: Db, s: Step, after: Db) {
    && db.events <= after.events
    && (forall k :: |db.events| <= k < |after.events| && after.events[k].body.ApprovalResolved? ==>
          var e := after.events[k];
          || e.name.Some?
          || Tells(db, s) == NoticeOf(e.body, e.sessionId))
    && (Tells(db, s).Some? ==>
          && |after.events| == |db.events| + 1
          && Tells(db, s) == NoticeOf(after.events[|db.events|].body, after.events[|db.events|].sessionId))
  }

  predicate Plain(e: Event) {
    !e.body.ApprovalResolved?
  }

  // Events about tools and requests only.
  predicate AddsPlain(before: seq<Event>, after: seq<Event>) {
    before <= after && forall k :: |before| <= k < |after| ==> Plain(after[k])
  }

  lemma AppendPlain(db: Db, session: Option<string>, body: EventType)
    requires !body.ApprovalResolved?
    ensures AddsPlain(db.events, Append(db, session, body).events)
  {
  }

  lemma PlainTwice(a: seq<Event>, b: seq<Event>, c: seq<Event>)
    requires AddsPlain(a, b) && AddsPlain(b, c)
    ensures AddsPlain(a, c)
  {
  }

  lemma FinishPlain(db: Db, session: Option<string>, tool: string, succeeds: bool)
    ensures AddsPlain(db.events, Finish(db, session, tool, succeeds).0.events)
  {
    hide Append, AddsPlain;
    AppendPlain(db, session, ToolSucceeded(tool));
    AppendPlain(db, session, ToolFailed(tool));
  }

  lemma NothingPlain(events: seq<Event>)
    ensures AddsPlain(events, events)
  {
  }

  lemma ExecutePlain(db: Db, session: Option<string>, tool: string, grant: Grant, succeeds: bool)
    ensures AddsPlain(db.events, Execute(db, session, tool, grant, succeeds).0.events)
  {
    hide Finish, AddsPlain;
    FinishPlain(Happen(db, Executed(tool, session, grant)), session, tool, succeeds);
    NothingPlain(db.events);
  }

  lemma EndPlain(db: Db, index: nat, succeeds: bool)
    ensures AddsPlain(db.events, End(db, index, succeeds).0.events)
  {
    hide Finish, AddsPlain;
    NothingPlain(db.events);
    if index < |db.running| {
      var call := db.running[index];
      FinishPlain(db.(running := db.running[..index] + db.running[index + 1..]), call.session, call.tool, succeeds);
    }
  }

  lemma AskPlain(db: Db, session: Option<string>, tool: string, id: string)
    ensures AddsPlain(db.events, Request(db, session, tool, id).0.events)
    ensures AddsPlain(db.events, Refuse(db, session, tool).0.events)
  {
    hide Append, AddsPlain;
    NothingPlain(db.events);
    AppendPlain(Happen(db, Denied(tool, session)), session, ToolFailed(tool));
    AppendPlain(Happen(db, Requested(id, tool, session)).(approvals := db.approvals[id := Row(session, tool)]), session,
                ApprovalRequested(id));
  }

  lemma CallPlain(db: Db, c: ToolCall)
    ensures AddsPlain(db.events, Call(db, c).0.events)
  {
    hide Canonical, InputString, Append, Objection, Execute, Request, Refuse, AddsPlain;
    var tool := Canonical(c.name);
    NothingPlain(db.events);
    if tool in READ_ONLY + MUTATING {
      var (session, approval) := (InputString(c.session), InputString(c.approval));
      var called := Append(db, session, ToolCalled(tool));
      AppendPlain(db, session, ToolCalled(tool));
      AskPlain(called, session, tool, c.freshId);
      forall grant
        ensures AddsPlain(called.events, Execute(called, session, tool, grant, c.succeeds).0.events)
      {
        ExecutePlain(called, session, tool, grant, c.succeeds);
      }
      if approval.Some? && Objection(db.approvals, approval.value, tool, session).None? {
        NoObjection(db.approvals, approval.value, tool, session);
      }
      PlainTwice(db.events, called.events, Call(db, c).0.events);
    }
  }

  lemma ResolveAdds(db: Db, id: string, approve: bool)
    ensures var after := Resolve(db, id, approve).0.events;
            && db.events <= after
            && forall k :: |db.events| <= k < |after| ==> after[k].name.Some?
  {
    hide SessionStatus, NameTaken, EventName;
  }

  lemma DoAdds(db: Db, s: Step)
    ensures Adds(db, s, Do(db, s))
  {
    hide Call, End, Resolve, SessionStatus, ReportBody;
    match s
    case Calls(c) => CallPlain(db, c);
    case Ends(index, succeeds) => EndPlain(db, index, succeeds);
    case Decides(id, approve, _) => ResolveAdds(db, id, approve);
    case _ =>
  }

  // ----- one step

  lemma StepTrue(db: Db, s: Step, id: string)
    requires Consistent(db) && AllTrue(db, id)
    ensures AllTrue(Do(db, s), id) <==> WellTold(db, s, id)
  {
    hide Do, Consistent, Holds;
    var after := Do(db, s);
    DoAdds(db, s);
    DoKeeps(db, s);
    if WellTold(db, s, id) {
      forall k | 0 <= k < |after.events|
        ensures !Wrong(after.events[k], id, after)
      {
        if k < |db.events| {
          OldStaysTrue(db, s, id, k);
        } else {
          NewIsTrue(db, s, id, k);
        }
      }
    } else {
      ToldIsWrong(db, s, id);
    }
  }

  lemma OldStaysTrue(db: Db, s: Step, id: string, k: int)
    requires AllTrue(db, id) && 0 <= k < |db.events| && db.events <= Do(db, s).events
    ensures !Wrong(Do(db, s).events[k], id, Do(db, s))
  {
    hide Do, Holds;
    var e := db.events[k];
    assert !Wrong(e, id, db);
    if e.body.ApprovalResolved? && e.body.approvalId == id {
      HoldsStays(db, s, id, e.body.status);
    }
  }

  lemma NewIsTrue(db: Db, s: Step, id: string, k: int)
    requires Adds(db, s, Do(db, s)) && Consistent(Do(db, s)) && WellTold(db, s, id)
    requires |db.events| <= k < |Do(db, s).events|
    ensures !Wrong(Do(db, s).events[k], id, Do(db, s))
  {
    hide Do, Tells, Lawful, Backed, Recorded, InStep, EventName, Holds;
    var (e, after) := (Do(db, s).events[k], Do(db, s));
    if e.body.ApprovalResolved? && e.body.approvalId == id {
      if e.name.Some? {
        assert Truthful(e, after);
        RowHolds(after, id, e.body.status);
      } else {
        assert Tells(db, s) == Some(Notice(id, e.body.status, e.sessionId, false));
        HoldsStays(db, s, id, e.body.status);
      }
    }
  }

  lemma RowHolds(db: Db, id: string, status: Status)
    requires id in db.approvals && db.approvals[id].status == status && !status.Pending?
    ensures Holds(db, id, status)
  {
  }

  lemma ToldIsWrong(db: Db, s: Step, id: string)
    requires !WellTold(db, s, id)
    ensures !AllTrue(Do(db, s), id)
  {
    hide Call, Resolve, End, Mirror, SettleTask, ReportBody, Holds;
    var (n, after) := (Tells(db, s).value, Do(db, s));
    DoAdds(db, s);
    TellingLeavesTables(db, s, id, n.status);
    assert Wrong(after.events[|db.events|], id, after);
  }

  lemma TellingLeavesTables(db: Db, s: Step, id: string, status: Status)
    requires Tells(db, s).Some?
    ensures Holds(Do(db, s), id, status) <==> Holds(db, id, status)
  {
    hide ReportBody, NoticeOf;
  }

  // ----- whole runs

  // At every moment of the run, every event stored about the approval tells a verdict that a table
  // holds.
  predicate TrueThroughout(origin: Origin, steps: seq<Step>, id: string) {
    forall m :: 0 <= m <= |steps| ==> AllTrue(After(origin, steps[..m]), id)
  }

  predicate AllWellTold(origin: Origin, steps: seq<Step>, id: string) {
    forall m :: 0 <= m < |steps| ==> WellTold(After(origin, steps[..m]), steps[m], id)
  }

  lemma ThroughoutMore(origin: Origin, steps: seq<Step>, s: Step, id: string)
    ensures TrueThroughout(origin, steps + [s], id) <==>
            TrueThroughout(origin, steps, id) && AllTrue(After(origin, steps + [s]), id)
  {
    hide After, AllTrue;
    var longer := steps + [s];
    assert longer[..|longer|] == longer;
    assert forall m :: 0 <= m <= |steps| ==> longer[..m] == steps[..m];
  }

  lemma WellToldMore(origin: Origin, steps: seq<Step>, s: Step, id: string)
    ensures AllWellTold(origin, steps + [s], id) <==>
            AllWellTold(origin, steps, id) && WellTold(After(origin, steps), s, id)
  {
    hide After, WellTold;
    var longer := steps + [s];
    assert longer[|steps|] == s && longer[..|steps|] == steps;
    assert forall m :: 0 <= m < |steps| ==> longer[..m] == steps[..m] && longer[m] == steps[m];
  }

  // Every event about an approval tells the verdict of the tables, from when it is stored and at
  // all later times, exactly if each report about it told their verdict when it was made.
  lemma {:induction false} EventsTrueExactly(origin: Origin, steps: seq<Step>, id: string)
    ensures TrueThroughout(origin, steps, id) <==> AllWellTold(origin, steps, id)
  {
    hide After, Do, AllTrue, WellTold, TrueThroughout, AllWellTold;
    if steps == [] {
      NothingStored(origin, id);
    } else {
      var (init, last) := (steps[..|steps| - 1], steps[|steps| - 1]);
      assert steps == init + [last];
      EventsTrueExactly(origin, init, id);
      RunConsistent(origin, init);
      ThroughoutMore(origin, init, last, id);
      WellToldMore(origin, init, last, id);
      AfterMore(origin, init, last);
      TrueAtEnd(origin, init, id);
      if TrueThroughout(origin, init, id) {
        StepTrue(After(origin, init), last, id);
      }
    }
  }

  lemma TrueAtEnd(origin: Origin, steps: seq<Step>, id: string)
    ensures TrueThroughout(origin, steps, id) ==> AllTrue(After(origin, steps), id)
  {
    hide After, AllTrue;
    assert steps[..|steps|] == steps;
  }

  lemma NothingStored(origin: Origin, id: string)
    ensures TrueThroughout(origin, [], id) && AllWellTold(origin, [], id)
  {
    var none: seq<Step> := [];
    assert none[..0] == none;
  }

  // The route's own events tell the verdict of the table at any time, whatever is reported.
  lemma {:induction false} RouteEventsTrue(origin: Origin, steps: seq<Step>)
    ensures var db := After(origin, steps);
            forall k :: 0 <= k < |db.events| && db.events[k].name.Some? ==>
              db.events[k].body.ApprovalResolved? &&
              var (id, status) := (db.events[k].body.approvalId, db.events[k].body.status);
              id in db.approvals && db.approvals[id].status == status && Holds(db, id, status)
  {
    hide After, Lawful, Backed, Recorded, InStep, EventName;
    RunConsistent(origin, steps);
    var db := After(origin, steps);
    forall k | 0 <= k < |db.events| && db.events[k].name.Some?
      ensures Truthful(db.events[k], db)
    {
    }
  }

  // ----- reports of what has not happened

  const PENDING := TaskRequest("x", "t", "s", "command", None, Pending)

  // Reported while it is pending, a task's approval is told as it is; it is then rejected.
  lemma PendingReported(origin: Origin, word: string)
    requires origin.tasks == map[]
    ensures var db := After(origin, [Creates(PENDING), Reports("x", word, "s"), SettlesTask("x", Rejected)]);
            && db.events == [Event(None, "s", None, ApprovalResolved("x", Pending))]
            && "x" in db.tasks && db.tasks["x"] == Rejected
            && "x" in db.approvals && db.approvals["x"].status == Rejected
  {
    hide After;
    var (first, second, third) := (Creates(PENDING), Reports("x", word, "s"), SettlesTask("x", Rejected));
    NothingAfter(origin);
    AfterMore(origin, [], first);
    AfterMore(origin, [first], second);
    AfterMore(origin, [first, second], third);
    assert [] + [first] == [first] && [first] + [second] == [first, second];
    assert [first, second] + [third] == [first, second, third];
  }

  const ASKING := ToolCall("restart_service", None, None, Prompt, "agent-approval-1", true)

  // A call is answered with the id of the approval it needs; reported as approved, it is told so,
  // while it is still pending. The call is not let through by that.
  lemma UnresolvedReported(origin: Origin)
    requires origin.tasks == map[]
    ensures var db := After(origin, [Calls(ASKING), Reports("agent-approval-1", "approved", "s")]);
            && db.events == [Event(None, "s", None, ApprovalResolved("agent-approval-1", Approved))]
            && "agent-approval-1" in db.approvals
            && db.approvals["agent-approval-1"] == Row(None, "restart_service")
            && Objection(db.approvals, "agent-approval-1", "restart_service", None) == Some(StillWaiting(Pending))
  {
    hide After, Call;
    var (first, second) := (Calls(ASKING), Reports("agent-approval-1", "approved", "s"));
    NothingAfter(origin);
    AfterMore(origin, [], first);
    AfterMore(origin, [first], second);
    assert [] + [first] == [first] && [first] + [second] == [first, second];
    AskedCall(Begin(origin));
  }

  lemma AskedCall(db: Db)
    requires "agent-approval-1" !in db.approvals
    ensures Call(db, ASKING).0 ==
            Happen(db, Requested("agent-approval-1", "restart_service", None))
            .(approvals := db.approvals["agent-approval-1" := Row(None, "restart_service")])
  {
    hide Canonical;
    MutatingHasNoAlias("restart_service");
  }

  // A task event of the type `approval.resolved` is stored as it is.
  lemma FiledUnchecked(db: Db, session: string, run: string, id: string, status: Status)
    ensures var after := Do(db, Files(session, run, ApprovalResolved(id, status)));
            && after.events == db.events + [Event(None, session, Some(run), ApprovalResolved(id, status))]
            && (AllTrue(after, id) <==> AllTrue(db, id) && Holds(db, id, status))
  {
    hide Holds;
    var s := Files(session, run, ApprovalResolved(id, status));
    var after := Do(db, s);
    forall told
      ensures Holds(after, id, told) <==> Holds(db, id, told)
    {
      TellingLeavesTables(db, s, id, told);
    }
    assert after.events[|db.events|] == Event(None, session, Some(run), ApprovalResolved(id, status));
    assert forall k :: 0 <= k < |db.events| ==> after.events[k] == db.events[k];
  }
}
