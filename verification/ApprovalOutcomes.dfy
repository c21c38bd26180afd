/** What a decision about an approval, the end of a tool, and what a task or a worker says do to the
    tables after any run, told row by row. */
module ApprovalOutcomes {
  import opened Options
  import opened Text
  import opened McpApproval
  import opened ApprovalRuns
  import opened CallOutcomes

  // ----- a decision by the routes

  // The approval is of a session that is over.
  predicate SessionOver(db: Db, a: Approval) {
    && a.sessionId.Some? && a.sessionId.value != "" && a.sessionId.value in db.sessions
    && var status := db.sessions[a.sessionId.value];
       status == "completed" || status == "failed" || status == "cancelled" || status == "archived"
  }

  function VerdictFor(db: Db, id: string, awaited: bool): Verdict {
    if id in db.tasks then
      if db.tasks[id] != Pending then AlreadyResolved else if awaited then Done else NotAwaited
    else if id !in db.approvals then NotFound
    else if db.approvals[id].status != Pending then AlreadyResolved
    else if SessionOver(db, db.approvals[id]) then TerminalSession
    else Done
  }

  // The row has the decision and is otherwise as it was; so are all other rows.
  predicate RowDecided(before: map<string, Approval>, after: map<string, Approval>, id: string, status: Status) {
    && id in before && after.Keys == before.Keys
    && after[id] == Approval(before[id].sessionId, before[id].runId, before[id].actionType,
                             before[id].commandPreview, status)
    && forall other :: other in before && other != id ==> after[other] == before[other]
  }

  // The one event of a decision, named after it, in the session of the approval.
  function DecisionEvents(a: Approval, id: string, status: Status): seq<Event> {
    if a.sessionId.None? || a.sessionId.value == "" then []
    else
      var name := "approval-event-" + id + if status.Approved? then "-approved" else "-rejected";
      [Event(Some(name), a.sessionId.value, a.runId, ApprovalResolved(id, status))]
  }

  predicate Decided(db: Db, after: Db, id: string, status: Status) {
    && after.sessions == db.sessions && after.running == db.running
    && if id in db.tasks then
         && after.tasks == db.tasks[id := status] && after.events == db.events
         && if id in db.approvals && db.approvals[id].status == Pending
            then RowDecided(db.approvals, after.approvals, id, status) else after.approvals == db.approvals
       else
         && after.tasks == db.tasks
         && RowDecided(db.approvals, after.approvals, id, status)
         && after.events == db.events + DecisionEvents(db.approvals[id], id, status)
  }

  // After any run a decision by the routes is refused for a stated reason, and then changes nothing;
  // or it is entered in the row, and told by one event of the approval's session if it has one.
  lemma DecisionTaken(origin: Origin, steps: seq<Step>, id: string, approve: bool, awaited: bool)
    ensures var db := After(origin, steps);
            var (after, verdict) := Decide(db, id, approve, awaited);
            && verdict == VerdictFor(db, id, awaited)
            && if verdict.Done? then Decided(db, after, id, if approve then Approved else Rejected) else after == db
  {
    hide After, Consistent;
    RunConsistent(origin, steps);
    var db := After(origin, steps);
    if id in db.tasks {
      TaskDecided(db, id, approve, awaited);
    } else {
      ResolveKeeps(db, id, approve);
      RouteDecided(db, id, approve);
    }
  }

  lemma SessionOverIs(db: Db, a: Approval)
    ensures SessionOver(db, a) <==> SessionStatus(db, a).Some? && SessionStatus(db, a).value in TERMINAL
  {
  }

  lemma TaskDecided(db: Db, id: string, approve: bool, awaited: bool)
    requires id in db.tasks
    ensures var (after, verdict) := Decide(db, id, approve, awaited);
            && verdict == VerdictFor(db, id, awaited)
            && if verdict.Done? then Decided(db, after, id, if approve then Approved else Rejected) else after == db
  {
    hide Resolve, SessionStatus;
  }

  lemma RouteDecided(db: Db, id: string, approve: bool)
    requires id !in db.tasks && !Resolve(db, id, approve).1.EventClash?
    ensures var (after, verdict) := Decide(db, id, approve, false);
            && Decide(db, id, approve, true) == (after, verdict)
            && verdict == VerdictFor(db, id, false) == VerdictFor(db, id, true)
            && if verdict.Done? then Decided(db, after, id, if approve then Approved else Rejected) else after == db
  {
    hide NameTaken, SessionStatus, SessionOver, EventName, DecisionEvents;
    if id in db.approvals {
      SessionOverIs(db, db.approvals[id]);
      DecisionEventIs(db.approvals[id], id, Choice(approve));
    }
  }

  lemma DecisionEventIs(a: Approval, id: string, status: Settled)
    requires status != Expired
    ensures DecisionEvents(a, id, status) ==
            if InSession(a) then [ResolvedEvent(id, status, a.sessionId.value, a.runId)] else []
  {
    var word := if status.Approved? then "-approved" else "-rejected";
    assert word == "-" + Word(status);
    assert "approval-event-" + id + word == EventName(id, status);
  }

  // ----- the end of a tool

  // The tool that is awaited at this place ends: it leaves the list, and its session is told how.
  lemma ToolEnded(db: Db, index: nat, succeeds: bool)
    ensures var (after, answer) := End(db, index, succeeds);
            if index >= |db.running| then answer == NotRunning && after == db
            else
              var ended := db.running[index];
              && answer == (if succeeds then Succeeded else Failed)
              && |after.running| == |db.running| - 1
              && (forall i :: 0 <= i < |after.running| ==>
                 after.running[i] == db.running[if i < index then i else i + 1])
              && after == db.(running := after.running,
                              events := db.events +
                                        if ended.session.None? then []
                                        else [Event(None, ended.session.value, None,
                                                    if succeeds then ToolSucceeded(ended.tool)
                                                    else ToolFailed(ended.tool))])
  {
  }

  // ----- approvals of tasks

  // A task's approval is entered in both tables if its id is new to the first; the row of the second
  // is the task's own, and is kept out only by one of the same id.
  lemma TaskApprovalCreated(db: Db, r: TaskRequest)
    ensures var after := Create(db, r);
            if r.id in db.tasks then after == db
            else
              && after.tasks == db.tasks[r.id := r.status] && after.events == db.events
              && after.approvals == if r.id in db.approvals then db.approvals
                                    else db.approvals[r.id := Approval(Some(r.sessionId), Some(r.run), r.actionType,
                                                                       r.commandPreview, r.status)]
  {
  }

  lemma TaskApprovalCopied(db: Db, r: TaskRequest)
    ensures var after := Copy(db, r);
            && after.tasks == db.tasks && after.events == db.events
            && after.approvals == if r.id !in db.tasks || r.id in db.approvals then db.approvals
                                  else db.approvals[r.id := Approval(Some(r.sessionId), Some(r.run), r.actionType,
                                                                     r.commandPreview, db.tasks[r.id])]
  {
  }

  // It is resolved once: a row that is not pending stays.
  lemma TaskApprovalSettled(db: Db, id: string, status: Settled)
    requires id in db.tasks
    ensures var after := SettleTask(db, id, status);
            && after.events == db.events
            && after.tasks == (if db.tasks[id] == Pending then db.tasks[id := status] else db.tasks)
            && if id in db.approvals && db.approvals[id].status == Pending
               then RowDecided(db.approvals, after.approvals, id, status) else after.approvals == db.approvals
  {
    hide SessionStatus;
  }

  // ----- what is reported

  // A report adds one event to its session, with the task's approval as it is, if there is one, and
  // otherwise with the reported word, if it is one of the three.
  lemma Reported(db: Db, id: string, word: string, session: string)
    ensures var after := Report(db, id, word, session);
            var body := if id in db.tasks then ApprovalResolved(id, db.tasks[id])
                        else if word == "approved" then ApprovalResolved(id, Approved)
                        else if word == "rejected" then ApprovalResolved(id, Rejected)
                        else if word == "expired" then ApprovalResolved(id, Expired)
                        else ApprovalUnclear(id);
            after == db.(events := db.events + [Event(None, session, None, body)])
  {
  }
}
