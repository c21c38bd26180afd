/** `recoverStuckTasks` of apps/host/src/bootstrap.ts: what a host does on start to the tasks,
    sessions, messages and commands a previous run left unfinished.

    `Recovered` says row by row what the database is afterwards. The method in class `Database`
    gets there the way the source does, statement by statement and session by session. */
module Recovery {
  import opened Options
  import opened Text

  datatype TaskStatus = Queued | Running | WaitingApproval | Completed | Failed | Cancelled | Unlisted(name: string)
  datatype SessionStatus = SessionRunning | SessionWaiting | SessionFailed | SessionOther(name: string)
  datatype MessageStatus = Streaming | MessageFailed | MessageOther(name: string)
  datatype Role = Assistant | System | OtherRole

  // Rows, each table in rowid order. Columns the procedure neither reads nor writes are left out.
  datatype Task = Task(id: string, status: TaskStatus, finishedAt: Option<string>, errorMessage: Option<string>)
  datatype Session = Session(id: string, status: SessionStatus, activeTaskId: Option<string>,
                             lastMessageAt: Option<string>, updatedAt: string)
  datatype Message = Message(id: string, sessionId: string, taskId: Option<string>, role: Role, content: string,
                             status: MessageStatus, sequence: int)
  datatype Command = Command(id: string, sessionId: string, finishedAt: Option<string>, exitCode: Option<int>)
  datatype TaskFailed = TaskFailed(taskId: string, errorMessage: string)

  datatype Db = Db(tasks: seq<Task>, sessions: seq<Session>, messages: seq<Message>, commands: seq<Command>,
                   events: seq<TaskFailed>)

  const STUCK_TASK := "Host restarted while task was in progress."
  const UNREPORTED := "Host restarted before the active task could report completion."
  const NO_ACTIVE_TASK := "Host restarted while session was marked running without an active task."

  // ----- which rows are concerned

  predicate Stuck(t: Task) {
    t.status.Queued? || t.status.Running? || t.status.WaitingApproval?
  }

  function StuckIds(tasks: seq<Task>): set<string> {
    set i | 0 <= i < |tasks| && Stuck(tasks[i]) :: tasks[i].id
  }

  function FailTask(t: Task, now: string): Task {
    if Stuck(t) then t.(status := Failed, finishedAt := Some(now), errorMessage := Some(STUCK_TASK)) else t
  }

  predicate Stale(s: Session) {
    s.status.SessionRunning? || s.status.SessionWaiting?
  }

  // An empty id counts as none, as in the source's truth tests.
  predicate HasTask(s: Session) {
    s.activeTaskId.Some? && s.activeTaskId.value != ""
  }

  function StatusOf(tasks: seq<Task>, id: Option<string>): Option<TaskStatus> {
    if tasks == [] || id.None? then None
    else if tasks[0].id == id.value then Some(tasks[0].status)
    else StatusOf(tasks[1..], id)
  }

  predicate Terminal(status: Option<TaskStatus>) {
    status.None? || status.value.Completed? || status.value.Failed? || status.value.Cancelled?
  }

  // Decided after the stuck tasks have been failed.
  predicate Recovers(s: Session, stuck: set<string>, tasks: seq<Task>) {
    Stale(s) && !(HasTask(s) && s.activeTaskId.value !in stuck && !Terminal(StatusOf(tasks, s.activeTaskId)))
  }

  function Reason(s: Session, stuck: set<string>): string {
    if !HasTask(s) then NO_ACTIVE_TASK
    else if s.activeTaskId.value in stuck then STUCK_TASK
    else UNREPORTED
  }

  // The session's newest assistant message, of the active task if there is one.
  predicate Candidate(m: Message, s: Session) {
    m.sessionId == s.id && m.role.Assistant? && (s.activeTaskId.None? || m.taskId == s.activeTaskId)
  }

  function LatestAssistant(messages: seq<Message>, s: Session): (latest: Option<Message>)
    ensures latest.Some? ==> latest.value in messages && Candidate(latest.value, s)
    ensures forall i :: 0 <= i < |messages| && Candidate(messages[i], s) ==>
              latest.Some? && messages[i].sequence <= latest.value.sequence
  {
    if messages == [] then None
    else
      var rest := LatestAssistant(messages[1..], s);
      if Candidate(messages[0], s) && (rest.None? || rest.value.sequence < messages[0].sequence)
      then Some(messages[0]) else rest
  }

  predicate OccursAt(text: string, part: string, i: int) {
    0 <= i <= |text| - |part| && text[i..i + |part|] == part
  }

  predicate Contains(text: string, part: string) {
    exists i :: 0 <= i <= |text| && OccursAt(text, part, i)
  }

  function Repair(content: string, reason: string): string {
    var current := Trim(content);
    if Contains(current, reason) then current
    else if current == "" then reason
    else current + "\n\n" + reason
  }

  // ----- what the procedure does with one session

  // A session to recover, why, and its newest assistant message before any repair.
  datatype Fix = Fix(session: Session, reason: string, latest: Option<Message>)

  function FailSession(s: Session, f: Fix, now: string): Session {
    if s.id != f.session.id then s
    else s.(status := SessionFailed, activeTaskId := None, lastMessageAt := Some(now), updatedAt := now)
  }

  function RepairLatest(m: Message, f: Fix): Message {
    if f.latest.Some? && f.latest.value.id != "" && m.id == f.latest.value.id
    then m.(content := Repair(f.latest.value.content, f.reason), status := MessageFailed) else m
  }

  function StopStreaming(m: Message, f: Fix): Message {
    if m.sessionId == f.session.id && m.status.Streaming? && (HasTask(f.session) ==> m.taskId == f.session.activeTaskId)
    then m.(status := MessageFailed) else m
  }

  function CloseCommand(c: Command, f: Fix, now: string): Command {
    if c.sessionId == f.session.id && c.finishedAt.None?
    then c.(finishedAt := Some(now), exitCode := if c.exitCode.Some? then c.exitCode else Some(1))
    else c
  }

  function MaxSequence(messages: seq<Message>, sessionId: string): (max: Option<int>)
    ensures forall i :: 0 <= i < |messages| && messages[i].sessionId == sessionId ==>
              max.Some? && messages[i].sequence <= max.value
  {
    if messages == [] then None
    else
      var (rest, last) := (MaxSequence(messages[..|messages| - 1], sessionId), messages[|messages| - 1]);
      if last.sessionId == sessionId && (rest.None? || rest.value < last.sequence) then Some(last.sequence) else rest
  }

  function NextSequence(messages: seq<Message>, sessionId: string): int {
    var max := MaxSequence(messages, sessionId);
    (if max.Some? then max.value else 0) + 1
  }

  function Notice(id: string, f: Fix, sequence: int): Message {
    Message(id, f.session.id, f.session.activeTaskId, System, f.reason, MessageFailed, sequence)
  }

  function FixedMessages(messages: seq<Message>, f: Fix): seq<Message> {
    seq(|messages|, i requires 0 <= i < |messages| => StopStreaming(RepairLatest(messages[i], f), f))
  }

  function ApplyFix(db: Db, f: Fix, id: string, now: string): Db {
    var messages := FixedMessages(db.messages, f);
    db.(sessions := seq(|db.sessions|, i requires 0 <= i < |db.sessions| => FailSession(db.sessions[i], f, now)),
        messages := messages + [Notice(id, f, NextSequence(messages, f.session.id))],
        commands := seq(|db.commands|, i requires 0 <= i < |db.commands| => CloseCommand(db.commands[i], f, now)))
  }

  // Message ids are fresh UUIDs, the k-th one for the k-th recovered session.
  function ApplyAll(db: Db, plan: seq<Fix>, uuid: nat -> string, now: string): Db {
    if plan == [] then db
    else ApplyFix(ApplyAll(db, plan[..|plan| - 1], uuid, now), plan[|plan| - 1], uuid(|plan| - 1), now)
  }

  // ----- the whole procedure

  function FailTasks(db: Db, now: string): Db {
    db.(tasks := seq(|db.tasks|, i requires 0 <= i < |db.tasks| => FailTask(db.tasks[i], now)),
        events := db.events + Failures(db.tasks))
  }

  function Failures(tasks: seq<Task>): seq<TaskFailed> {
    if tasks == [] then []
    else Failures(tasks[..|tasks| - 1]) +
         (if Stuck(tasks[|tasks| - 1]) then [TaskFailed(tasks[|tasks| - 1].id, STUCK_TASK)] else [])
  }

  lemma FailuresMore(tasks: seq<Task>, i: int)
    requires 0 <= i < |tasks|
    ensures Failures(tasks[..i + 1]) ==
            if Stuck(tasks[i]) then Failures(tasks[..i]) + [TaskFailed(tasks[i].id, STUCK_TASK)]
            else Failures(tasks[..i])
  {
    assert tasks[..i + 1][..i] == tasks[..i];
    assert Failures(tasks[..i]) + [] == Failures(tasks[..i]);
  }

  function Plan(sessions: seq<Session>, stuck: set<string>, tasks: seq<Task>, messages: seq<Message>): (plan: seq<Fix>)
    ensures forall f :: f in plan ==> f.session in sessions && Recovers(f.session, stuck, tasks)
    ensures forall i :: 0 <= i < |sessions| && Recovers(sessions[i], stuck, tasks) ==>
              Fix(sessions[i], Reason(sessions[i], stuck), LatestAssistant(messages, sessions[i])) in plan
  {
    if sessions == [] then []
    else
      var (rest, last) := (Plan(sessions[..|sessions| - 1], stuck, tasks, messages), sessions[|sessions| - 1]);
      if Recovers(last, stuck, tasks)
      then rest + [Fix(last, Reason(last, stuck), LatestAssistant(messages, last))] else rest
  }

  function PlanFor(db: Db, now: string): seq<Fix> {
    Plan(db.sessions, StuckIds(db.tasks), FailTasks(db, now).tasks, db.messages)
  }

  function Recovered(db: Db, uuid: nat -> string, now: string): Db {
    ApplyAll(FailTasks(db, now), PlanFor(db, now), uuid, now)
  }

  datatype Report = Report(recoveredTasks: nat, recoveredSessions: nat)

  function ReportFor(db: Db, now: string): Report {
    Report(|Failures(db.tasks)|, |PlanFor(db, now)|)
  }

  class Database {
    var tasks: seq<Task>
    var sessions: seq<Session>
    var messages: seq<Message>
    var commands: seq<Command>
    var events: seq<TaskFailed>

    constructor (db: Db)
      ensures State() == db
    {
      tasks, sessions, messages, commands, events := db.tasks, db.sessions, db.messages, db.commands, db.events;
    }

    function State(): Db
      reads this
    {
      Db(tasks, sessions, messages, commands, events)
    }

    method RecoverStuckTasks(uuid: nat -> string, now: string) returns (report: Report)
      modifies this
      ensures State() == Recovered(old(State()), uuid, now)
      ensures report == ReportFor(old(State()), now)
    {
      hide Plan, Failures, ApplyFix, Recovers;
      var stuck := StuckIds(tasks);
      var recoveredTasks := FailStuckTasks(now);
      var stale := StaleSessions(stuck);
      var i := 0;
      ghost var failed := State();
      while i < |stale|
        invariant 0 <= i <= |stale|
        invariant State() == ApplyAll(failed, stale[..i], uuid, now)
      {
        assert stale[..i + 1][..i] == stale[..i];
        RecoverSession(stale[i], uuid(i), now);
        i := i + 1;
      }
      assert stale[..|stale|] == stale;
      report := Report(recoveredTasks, |stale|);
    }

    method FailStuckTasks(now: string) returns (n: nat)
      modifies this`tasks, this`events
      ensures State() == FailTasks(old(State()), now) && n == |Failures(old(tasks))|
    {
      hide Failures;
      ghost var before := tasks;
      n := 0;
      NoFailures(tasks[..0]);
      for i := 0 to |tasks|
        invariant |tasks| == |before| && n == |Failures(before[..i])|
        invariant events == old(events) + Failures(before[..i])
        invariant forall j :: 0 <= j < i ==> tasks[j] == FailTask(before[j], now)
        invariant forall j :: i <= j < |tasks| ==> tasks[j] == before[j]
      {
        FailuresMore(before, i);
        if Stuck(tasks[i]) {
          events := events + [TaskFailed(tasks[i].id, STUCK_TASK)];
          n := n + 1;
          tasks := tasks[i := tasks[i].(status := Failed, finishedAt := Some(now), errorMessage := Some(STUCK_TASK))];
        }
      }
      assert before[..|before|] == before;
    }

    // The query for stale sessions, without the rows the loop over it skips.
    method StaleSessions(stuck: set<string>) returns (stale: seq<Fix>)
      ensures stale == Plan(sessions, stuck, tasks, messages)
    {
      hide LatestAssistant, StatusOf;
      stale := [];
      for i := 0 to |sessions|
        invariant stale == Plan(sessions[..i], stuck, tasks, messages)
      {
        assert sessions[..i + 1][..i] == sessions[..i];
        var s := sessions[i];
        if Stale(s) {
          var status := StatusOf(tasks, s.activeTaskId);
          var taskRecovered := HasTask(s) && s.activeTaskId.value in stuck;
          if !(HasTask(s) && !taskRecovered && !Terminal(status)) {
            stale := stale + [Fix(s, Reason(s, stuck), LatestAssistant(messages, s))];
          }
        }
      }
      assert sessions[..|sessions|] == sessions;
    }

    method RecoverSession(f: Fix, id: string, now: string)
      modifies this`sessions, this`messages, this`commands
      ensures State() == ApplyFix(old(State()), f, id, now)
    {
      hide Repair, MaxSequence;
      var (oldSessions, oldMessages, oldCommands) := (sessions, messages, commands);
      sessions := seq(|oldSessions|, i requires 0 <= i < |oldSessions| => FailSession(oldSessions[i], f, now));
      var repaired := oldMessages;
      if f.latest.Some? && f.latest.value.id != "" {
        repaired := seq(|oldMessages|, i requires 0 <= i < |oldMessages| => RepairLatest(oldMessages[i], f));
      }
      assert forall i :: 0 <= i < |repaired| ==> repaired[i] == RepairLatest(oldMessages[i], f);
      var stopped := seq(|repaired|, i requires 0 <= i < |repaired| => StopStreaming(repaired[i], f));
      assert stopped == FixedMessages(oldMessages, f);
      commands := seq(|oldCommands|, i requires 0 <= i < |oldCommands| => CloseCommand(oldCommands[i], f, now));
      messages := stopped + [Notice(id, f, NextSequence(stopped, f.session.id))];
    }
  }

  // ----- what recovery leaves behind

  predicate InPlan(plan: seq<Fix>, sessionId: string) {
    exists i :: 0 <= i < |plan| && plan[i].session.id == sessionId
  }

  // Tasks and events are not touched again, and no row is dropped or reordered.
  lemma {:induction false} ApplyAllShape(db: Db, plan: seq<Fix>, uuid: nat -> string, now: string)
    ensures var after := ApplyAll(db, plan, uuid, now);
            && after.tasks == db.tasks && after.events == db.events
            && |after.sessions| == |db.sessions| && |after.commands| == |db.commands|
            && |after.messages| == |db.messages| + |plan|
  {
    if plan != [] {
      ApplyAllShape(db, plan[..|plan| - 1], uuid, now);
    }
  }

  lemma {:induction false} SessionAfter(db: Db, plan: seq<Fix>, uuid: nat -> string, now: string, i: int)
    requires 0 <= i < |db.sessions|
    ensures |ApplyAll(db, plan, uuid, now).sessions| == |db.sessions|
    ensures var s := db.sessions[i];
            ApplyAll(db, plan, uuid, now).sessions[i] ==
            if InPlan(plan, s.id) then Session(s.id, SessionFailed, None, Some(now), now) else s
  {
    ApplyAllShape(db, plan, uuid, now);
    if plan != [] {
      var init := plan[..|plan| - 1];
      SessionAfter(db, init, uuid, now, i);
      InPlanInit(plan, db.sessions[i].id);
    }
  }

  lemma InPlanInit(plan: seq<Fix>, sessionId: string)
    requires plan != []
    ensures InPlan(plan, sessionId) <==>
            InPlan(plan[..|plan| - 1], sessionId) || plan[|plan| - 1].session.id == sessionId
  {
    var init := plan[..|plan| - 1];
    if InPlan(plan, sessionId) {
      var i :| 0 <= i < |plan| && plan[i].session.id == sessionId;
      if i < |init| { assert init[i] == plan[i]; }
    }
    if InPlan(init, sessionId) {
      var i :| 0 <= i < |init| && init[i].session.id == sessionId;
      assert plan[i].session.id == sessionId;
    }
  }

  lemma {:induction false} CommandAfter(db: Db, plan: seq<Fix>, uuid: nat -> string, now: string, i: int)
    requires 0 <= i < |db.commands|
    ensures |ApplyAll(db, plan, uuid, now).commands| == |db.commands|
    ensures var c := db.commands[i];
            ApplyAll(db, plan, uuid, now).commands[i] ==
            if InPlan(plan, c.sessionId) && c.finishedAt.None?
            then c.(finishedAt := Some(now), exitCode := if c.exitCode.Some? then c.exitCode else Some(1)) else c
  {
    ApplyAllShape(db, plan, uuid, now);
    if plan != [] {
      CommandAfter(db, plan[..|plan| - 1], uuid, now, i);
      InPlanInit(plan, db.commands[i].sessionId);
    }
  }

  // Primary keys and fresh UUIDs.
  predicate DistinctIds(messages: seq<Message>) {
    forall i, j :: 0 <= i < j < |messages| ==> messages[i].id != messages[j].id
  }

  // A fix's newest message is one of the session's own.
  predicate OwnLatest(f: Fix, messages: seq<Message>) {
    f.latest.Some? ==> f.latest.value in messages && f.latest.value.sessionId == f.session.id
  }

  // A message of a session that is not recovered is left as it is.
  lemma {:induction false} OtherMessagesUntouched(db: Db, plan: seq<Fix>, uuid: nat -> string, now: string, i: int)
    requires 0 <= i < |db.messages| && DistinctIds(db.messages)
    requires forall f :: f in plan ==> OwnLatest(f, db.messages)
    requires !InPlan(plan, db.messages[i].sessionId)
    ensures |ApplyAll(db, plan, uuid, now).messages| == |db.messages| + |plan|
    ensures ApplyAll(db, plan, uuid, now).messages[i] == db.messages[i]
  {
    ApplyAllShape(db, plan, uuid, now);
    if plan != [] {
      var f := plan[|plan| - 1];
      assert f in plan;
      InPlanInit(plan, db.messages[i].sessionId);
      OtherMessagesUntouched(db, plan[..|plan| - 1], uuid, now, i);
    }
  }

  predicate DistinctSessions(plan: seq<Fix>) {
    forall i, j :: 0 <= i < j < |plan| ==> plan[i].session.id != plan[j].session.id
  }

  // A message of a recovered session gets that session's repair and nothing else.
  lemma {:induction false} MessageAfter(db: Db, plan: seq<Fix>, uuid: nat -> string, now: string, i: int, k: int)
    requires 0 <= i < |db.messages| && DistinctIds(db.messages)
    requires forall f :: f in plan ==> OwnLatest(f, db.messages)
    requires 0 <= k < |plan| && DistinctSessions(plan) && plan[k].session.id == db.messages[i].sessionId
    ensures |ApplyAll(db, plan, uuid, now).messages| == |db.messages| + |plan|
    ensures ApplyAll(db, plan, uuid, now).messages[i] == StopStreaming(RepairLatest(db.messages[i], plan[k]), plan[k])
  {
    ApplyAllShape(db, plan, uuid, now);
    var (init, last) := (plan[..|plan| - 1], plan[|plan| - 1]);
    assert last in plan;
    ApplyAllShape(db, init, uuid, now);
    if k == |init| {
      assert !InPlan(init, db.messages[i].sessionId);
      OtherMessagesUntouched(db, init, uuid, now, i);
    } else {
      assert init[k] == plan[k];
      MessageAfter(db, init, uuid, now, i, k);
      NotTheirs(db.messages, last, i);
    }
  }

  lemma NotTheirs(messages: seq<Message>, f: Fix, i: int)
    requires 0 <= i < |messages| && DistinctIds(messages) && OwnLatest(f, messages)
    requires f.session.id != messages[i].sessionId
    ensures f.latest.Some? ==> f.latest.value.id != messages[i].id
  {
    if f.latest.Some? {
      var j :| 0 <= j < |messages| && messages[j] == f.latest.value;
    }
  }

  // The k-th inserted message is the notice of the k-th recovered session.
  lemma {:induction false} NoticeAfter(db: Db, plan: seq<Fix>, uuid: nat -> string, now: string, k: int)
    requires 0 <= k < |plan|
    ensures |ApplyAll(db, plan, uuid, now).messages| == |db.messages| + |plan|
    ensures ApplyAll(db, plan, uuid, now).messages[|db.messages| + k].sessionId == plan[k].session.id
  {
    ApplyAllShape(db, plan, uuid, now);
    var init := plan[..|plan| - 1];
    ApplyAllShape(db, init, uuid, now);
    if k < |init| {
      NoticeAfter(db, init, uuid, now, k);
    }
  }

  predicate NewId(messages: seq<Message>, id: string) {
    forall i :: 0 <= i < |messages| ==> messages[i].id != id
  }

  // The sequence number is one more than the largest of the session's earlier messages, or 1.
  predicate Tops(messages: seq<Message>, at: int)
    requires 0 <= at < |messages|
  {
    && (forall i :: 0 <= i < at && messages[i].sessionId == messages[at].sessionId ==>
          messages[i].sequence < messages[at].sequence)
    && (messages[at].sequence == 1 ||
        exists i :: 0 <= i < at && messages[i].sessionId == messages[at].sessionId &&
                    messages[i].sequence + 1 == messages[at].sequence)
    && ((forall i :: 0 <= i < at ==> messages[i].sessionId != messages[at].sessionId) ==> messages[at].sequence == 1)
  }

  lemma {:induction false} MaxAttained(messages: seq<Message>, sessionId: string)
    ensures var max := MaxSequence(messages, sessionId);
            if max.Some?
            then exists i :: 0 <= i < |messages| && messages[i].sessionId == sessionId
                                                 && messages[i].sequence == max.value
            else forall i :: 0 <= i < |messages| ==> messages[i].sessionId != sessionId
  {
    if messages != [] {
      var init := messages[..|messages| - 1];
      MaxAttained(init, sessionId);
      assert forall i :: 0 <= i < |init| ==> init[i] == messages[i];
    }
  }

  // ... with the reason as its text, the lost task, and a sequence number above all that the
  // session had; fixes of later sessions leave it alone.
  lemma {:induction false} NoticeStays(db: Db, plan: seq<Fix>, uuid: nat -> string, now: string, k: int)
    requires 0 <= k < |plan| && NewId(db.messages, uuid(k))
    requires forall f :: f in plan ==> OwnLatest(f, db.messages)
    ensures |ApplyAll(db, plan, uuid, now).messages| == |db.messages| + |plan|
    ensures var (messages, at) := (ApplyAll(db, plan, uuid, now).messages, |db.messages| + k);
            messages[at] == Notice(uuid(k), plan[k], messages[at].sequence) && Tops(messages, at)
  {
    hide MaxSequence, Repair, OwnLatest, NewId;
    ApplyAllShape(db, plan, uuid, now);
    var (init, last) := (plan[..|plan| - 1], plan[|plan| - 1]);
    assert last in plan;
    ApplyAllShape(db, init, uuid, now);
    var before := ApplyAll(db, init, uuid, now).messages;
    if k < |init| {
      NoticeStays(db, init, uuid, now, k);
      NotLatest(db.messages, last, uuid(k));
      FixedKeepsNotice(before, last, uuid(|init|), |db.messages| + k);
    } else {
      NewNoticeTops(FixedMessages(before, last), last, uuid(k));
    }
  }

  lemma NotLatest(messages: seq<Message>, f: Fix, id: string)
    requires NewId(messages, id) && OwnLatest(f, messages)
    ensures f.latest.Some? ==> f.latest.value.id != id
  {
  }

  lemma FixedKeepsNotice(messages: seq<Message>, f: Fix, id: string, at: int)
    requires 0 <= at < |messages| && messages[at].status.MessageFailed? && Tops(messages, at)
    requires f.latest.Some? ==> f.latest.value.id != messages[at].id
    ensures var fixed := FixedMessages(messages, f);
            var after := fixed + [Notice(id, f, NextSequence(fixed, f.session.id))];
            |fixed| == |messages| && after[at] == messages[at] && Tops(after, at)
  {
    hide MaxSequence, Repair, NextSequence;
    var fixed := FixedMessages(messages, f);
    var after := fixed + [Notice(id, f, NextSequence(fixed, f.session.id))];
    assert after[at] == messages[at];
    assert forall i :: 0 <= i < |messages| ==>
        after[i].sessionId == messages[i].sessionId && after[i].sequence == messages[i].sequence;
    if messages[at].sequence != 1 {
      var i :| 0 <= i < at && messages[i].sessionId == messages[at].sessionId &&
               messages[i].sequence + 1 == messages[at].sequence;
      assert after[i].sequence + 1 == after[at].sequence;
    }
  }

  lemma NewNoticeTops(messages: seq<Message>, f: Fix, id: string)
    ensures Tops(messages + [Notice(id, f, NextSequence(messages, f.session.id))], |messages|)
  {
    hide MaxSequence;
    MaxAttained(messages, f.session.id);
    var after := messages + [Notice(id, f, NextSequence(messages, f.session.id))];
    assert forall i :: 0 <= i < |messages| ==> after[i] == messages[i];
  }

  predicate UniqueSequences(messages: seq<Message>) {
    forall i, j :: 0 <= i < j < |messages| && messages[i].sessionId == messages[j].sessionId ==>
      messages[i].sequence != messages[j].sequence
  }

  lemma FixKeepsUnique(messages: seq<Message>, f: Fix, id: string)
    requires UniqueSequences(messages)
    ensures var fixed := FixedMessages(messages, f);
            UniqueSequences(fixed + [Notice(id, f, NextSequence(fixed, f.session.id))])
  {
    hide MaxSequence, Repair;
    var fixed := FixedMessages(messages, f);
    assert forall i :: 0 <= i < |messages| ==>
        fixed[i].sessionId == messages[i].sessionId && fixed[i].sequence == messages[i].sequence;
  }

  lemma {:induction false} ApplyKeepsUnique(db: Db, plan: seq<Fix>, uuid: nat -> string, now: string)
    requires UniqueSequences(db.messages)
    ensures UniqueSequences(ApplyAll(db, plan, uuid, now).messages)
  {
    hide UniqueSequences, FixedMessages, NextSequence;
    if plan != [] {
      ApplyKeepsUnique(db, plan[..|plan| - 1], uuid, now);
      FixKeepsUnique(ApplyAll(db, plan[..|plan| - 1], uuid, now).messages, plan[|plan| - 1], uuid(|plan| - 1));
    }
  }

  // What a repair makes of a text: nothing of it is lost but white space around it, and the
  // reason is added, after a blank line, unless it is there already.
  predicate KeepsAndNames(old': string, new': string, reason: string) {
    && Trim(old') <= new' && Contains(new', reason)
    && (Contains(Trim(old'), reason) ==> new' == Trim(old'))
    && (!Contains(Trim(old'), reason) && Trim(old') == "" ==> new' == reason)
    && (!Contains(Trim(old'), reason) && Trim(old') != "" ==> new' == Trim(old') + "\n\n" + reason)
  }

  lemma ContainsMeans(text: string, part: string)
    ensures Contains(text, part) <==> exists a: string, b: string :: text == a + part + b
  {
    if Contains(text, part) {
      var i :| 0 <= i <= |text| && OccursAt(text, part, i);
      assert text == text[..i] + part + text[i + |part|..];
    }
    if a: string, b: string :| text == a + part + b {
      assert (a + part + b)[|a|..|a| + |part|] == part;
      assert OccursAt(text, part, |a|);
    }
  }

  lemma RepairNamesReason(content: string, reason: string)
    ensures Contains(Repair(content, reason), reason)
    ensures KeepsAndNames(content, Repair(content, reason), reason)
  {
    hide Trim;
    var current := Trim(content);
    if !Contains(current, reason) {
      var before := if current == "" then "" else current + "\n\n";
      assert "" + reason == reason;
      assert Repair(content, reason) == before + reason;
      assert (before + reason)[|before|..|before| + |reason|] == reason;
      assert OccursAt(before + reason, reason, |before|);
    }
  }

  // ----- the promises of a recovery

  // Every queued, running or waiting task is failed, now and with the reason; no other task has
  // changed.
  lemma NothingStuck(db: Db, uuid: nat -> string, now: string)
    ensures var after := Recovered(db, uuid, now).tasks;
            && |after| == |db.tasks|
            && forall i :: 0 <= i < |after| ==>
                 var t := db.tasks[i];
                 after[i] == if t.status !in {Queued, Running, WaitingApproval} then t
                             else Task(t.id, Failed, Some(now), Some("Host restarted while task was in progress."))
    ensures forall i :: 0 <= i < |db.tasks| ==> !Stuck(Recovered(db, uuid, now).tasks[i])
  {
    ApplyAllShape(FailTasks(db, now), PlanFor(db, now), uuid, now);
  }

  // The one thing that keeps a stale session from being recovered is an active task whose
  // status is outside the closed set of task statuses.
  predicate Unknown(s: Session, db: Db) {
    && HasTask(s) && s.activeTaskId.value !in StuckIds(db.tasks)
    && var status := StatusOf(db.tasks, s.activeTaskId); status.Some? && status.value.Unlisted?
  }

  // Primary keys.
  predicate DistinctTaskIds(tasks: seq<Task>) {
    forall i, j :: 0 <= i < j < |tasks| ==> tasks[i].id != tasks[j].id
  }

  lemma {:induction false} StatusIs(tasks: seq<Task>, i: int)
    requires DistinctTaskIds(tasks) && 0 <= i < |tasks|
    ensures StatusOf(tasks, Some(tasks[i].id)) == Some(tasks[i].status)
  {
    if i > 0 {
      StatusIs(tasks[1..], i - 1);
    }
  }

  lemma {:induction false} StatusFound(tasks: seq<Task>, id: string)
    ensures StatusOf(tasks, Some(id)).Some? ==> exists i :: 0 <= i < |tasks| && tasks[i].id == id
  {
    if tasks != [] && tasks[0].id != id {
      StatusFound(tasks[1..], id);
      assert forall i :: 0 <= i < |tasks[1..]| ==> tasks[1..][i] == tasks[i + 1];
    }
  }

  // That is: there is such a task, and its status is not one of the six.
  lemma UnknownMeans(s: Session, db: Db)
    requires DistinctTaskIds(db.tasks)
    ensures Unknown(s, db) <==>
            HasTask(s) && exists i :: 0 <= i < |db.tasks| && db.tasks[i].id == s.activeTaskId.value &&
                                      db.tasks[i].status.Unlisted?
  {
    hide StatusOf;
    if HasTask(s) {
      StatusFound(db.tasks, s.activeTaskId.value);
      forall i | 0 <= i < |db.tasks| && db.tasks[i].id == s.activeTaskId.value
        ensures StatusOf(db.tasks, s.activeTaskId) == Some(db.tasks[i].status)
      {
        StatusIs(db.tasks, i);
      }
    }
  }

  lemma {:induction false} StatusAfterFailing(tasks: seq<Task>, after: seq<Task>, now: string, id: string)
    requires |after| == |tasks| && forall i :: 0 <= i < |tasks| ==> after[i] == FailTask(tasks[i], now)
    requires forall i :: 0 <= i < |tasks| && tasks[i].id == id ==> !Stuck(tasks[i])
    ensures StatusOf(after, Some(id)) == StatusOf(tasks, Some(id))
    ensures var status := StatusOf(tasks, Some(id));
            status.Some? ==> !status.value.Queued? && !status.value.Running? && !status.value.WaitingApproval?
  {
    if tasks != [] {
      StatusAfterFailing(tasks[1..], after[1..], now, id);
    }
  }

  lemma InStuckIds(tasks: seq<Task>, i: int)
    requires 0 <= i < |tasks| && Stuck(tasks[i])
    ensures tasks[i].id in StuckIds(tasks)
  {
  }

  // What a session that was at work is left as.
  predicate Interrupted(status: SessionStatus) {
    status == SessionRunning || status == SessionWaiting
  }

  lemma RecoversUnlessUnknown(db: Db, now: string, s: Session)
    ensures Recovers(s, StuckIds(db.tasks), FailTasks(db, now).tasks) <==> Interrupted(s.status) && !Unknown(s, db)
  {
    hide StatusOf;
    if HasTask(s) && s.activeTaskId.value !in StuckIds(db.tasks) {
      var id := s.activeTaskId.value;
      forall i | 0 <= i < |db.tasks| && db.tasks[i].id == id
        ensures !Stuck(db.tasks[i])
      {
        if Stuck(db.tasks[i]) {
          InStuckIds(db.tasks, i);
        }
      }
      StatusAfterFailing(db.tasks, FailTasks(db, now).tasks, now, id);
    }
  }

  predicate DistinctSessionIds(sessions: seq<Session>) {
    forall i, j :: 0 <= i < j < |sessions| ==> sessions[i].id != sessions[j].id
  }

  // A session is still running or waiting afterwards exactly when its active task is unknown;
  // it and its rows are then as they were, like those of every session that was not stale.
  lemma SessionsRecovered(db: Db, uuid: nat -> string, now: string, i: int)
    requires DistinctSessionIds(db.sessions) && 0 <= i < |db.sessions|
    ensures |Recovered(db, uuid, now).sessions| == |db.sessions|
    ensures var (s, after) := (db.sessions[i], Recovered(db, uuid, now).sessions[i]);
            && (Interrupted(after.status) <==> Interrupted(s.status) && Unknown(s, db))
            && (InPlan(PlanFor(db, now), s.id) <==> Interrupted(s.status) && !Unknown(s, db))
            && after == if !Interrupted(s.status) || Unknown(s, db) then s
                        else Session(s.id, SessionFailed, None, Some(now), now)
  {
    hide Plan, Unknown, Recovers;
    var (s, plan) := (db.sessions[i], PlanFor(db, now));
    RecoversUnlessUnknown(db, now, s);
    SessionAfter(FailTasks(db, now), plan, uuid, now, i);
    PlannedExactly(db, now, i);
  }

  lemma PlannedExactly(db: Db, now: string, i: int)
    requires DistinctSessionIds(db.sessions) && 0 <= i < |db.sessions|
    ensures InPlan(PlanFor(db, now), db.sessions[i].id) <==>
            Recovers(db.sessions[i], StuckIds(db.tasks), FailTasks(db, now).tasks)
  {
    hide Plan, Recovers, FailTasks;
    var (s, plan) := (db.sessions[i], PlanFor(db, now));
    if Recovers(s, StuckIds(db.tasks), FailTasks(db, now).tasks) {
      var f := Fix(s, Reason(s, StuckIds(db.tasks)), LatestAssistant(db.messages, s));
      assert f in plan;
      var k :| 0 <= k < |plan| && plan[k] == f;
      assert plan[k].session.id == s.id;
    }
    if InPlan(plan, s.id) {
      var k :| 0 <= k < |plan| && plan[k].session.id == s.id;
      assert plan[k] in plan;
      var j :| 0 <= j < |db.sessions| && db.sessions[j] == plan[k].session;
      assert j == i;
    }
  }

  lemma {:induction false} PlanOwns(sessions: seq<Session>, stuck: set<string>, tasks: seq<Task>,
                                    messages: seq<Message>)
    ensures forall f :: f in Plan(sessions, stuck, tasks, messages) ==> OwnLatest(f, messages)
  {
    hide LatestAssistant, Recovers;
    if sessions != [] {
      PlanOwns(sessions[..|sessions| - 1], stuck, tasks, messages);
    }
  }

  lemma {:induction false} PlanDistinct(sessions: seq<Session>, stuck: set<string>, tasks: seq<Task>,
                                        messages: seq<Message>)
    requires DistinctSessionIds(sessions)
    ensures DistinctSessions(Plan(sessions, stuck, tasks, messages))
    ensures forall f :: f in Plan(sessions, stuck, tasks, messages) ==> OwnLatest(f, messages)
  {
    hide LatestAssistant, Recovers;
    PlanOwns(sessions, stuck, tasks, messages);
    if sessions != [] {
      hide OwnLatest;
      var (init, last) := (sessions[..|sessions| - 1], sessions[|sessions| - 1]);
      PlanDistinct(init, stuck, tasks, messages);
      var rest := Plan(init, stuck, tasks, messages);
      forall k | 0 <= k < |rest|
        ensures rest[k].session.id != last.id
      {
        assert rest[k] in rest;
        var j :| 0 <= j < |init| && init[j] == rest[k].session;
        assert sessions[j] == init[j];
      }
    }
  }

  // Messages of the k-th recovered session: none that belongs to the lost work is still
  // streaming, the newest assistant message says why it failed, every other text survives.
  lemma MessagesRecovered(db: Db, uuid: nat -> string, now: string, k: int, i: int)
    requires DistinctIds(db.messages) && DistinctSessionIds(db.sessions)
    requires 0 <= k < |PlanFor(db, now)| && 0 <= i < |db.messages|
    requires db.messages[i].sessionId == PlanFor(db, now)[k].session.id
    ensures |Recovered(db, uuid, now).messages| == |db.messages| + |PlanFor(db, now)|
    ensures var (f, m, after) := (PlanFor(db, now)[k], db.messages[i], Recovered(db, uuid, now).messages[i]);
            var repaired := f.latest == Some(m) && m.id != "";
            var lost := m.status.Streaming? && (HasTask(f.session) ==> m.taskId == f.session.activeTaskId);
            && after == m.(content := after.content, status := if repaired || lost then MessageFailed else m.status)
            && (if repaired then KeepsAndNames(m.content, after.content, f.reason) else after.content == m.content)
  {
    hide Plan, LatestAssistant, Repair, KeepsAndNames;
    var plan := PlanFor(db, now);
    PlanDistinct(db.sessions, StuckIds(db.tasks), FailTasks(db, now).tasks, db.messages);
    MessageAfter(FailTasks(db, now), plan, uuid, now, i, k);
    var (f, m) := (plan[k], db.messages[i]);
    assert f in plan;
    if f.latest.Some? {
      RepairNamesReason(f.latest.value.content, f.reason);
      var j :| 0 <= j < |db.messages| && db.messages[j] == f.latest.value;
      assert j != i ==> db.messages[j].id != m.id;
    }
  }

  // An assistant message of the session, and of its active task unless that is NULL.
  predicate Answers(m: Message, s: Session) {
    m.sessionId == s.id && m.role == Assistant && (s.activeTaskId == None || m.taskId == s.activeTaskId)
  }

  predicate Newest(messages: seq<Message>, j: int, s: Session)
    requires 0 <= j < |messages|
  {
    && Answers(messages[j], s)
    && forall i ::
         0 <= i < |messages| && i != j && Answers(messages[i], s) ==> messages[i].sequence < messages[j].sequence
  }

  // Why a session is failed.
  predicate Explains(reason: string, s: Session, tasks: seq<Task>) {
    reason ==
    if s.activeTaskId in {None, Some("")} then
      "Host restarted while session was marked running without an active task."
    else if exists i :: 0 <= i < |tasks| && Some(tasks[i].id) == s.activeTaskId &&
                        tasks[i].status in {Queued, Running, WaitingApproval}
    then "Host restarted while task was in progress."
    else "Host restarted before the active task could report completion."
  }

  // The same from the tables as they were: of a session that was running or waiting and whose
  // active task is not unknown, the newest assistant message keeps its text and names the reason,
  // every other text survives, and exactly that message and those streaming for the lost work fail.
  lemma MessageRecovered(db: Db, uuid: nat -> string, now: string, i: int, j: int)
    requires DistinctIds(db.messages) && DistinctSessionIds(db.sessions)
    requires 0 <= i < |db.sessions| && Interrupted(db.sessions[i].status) && !Unknown(db.sessions[i], db)
    requires 0 <= j < |db.messages| && db.messages[j].sessionId == db.sessions[i].id && db.messages[j].id != ""
    requires UniqueSequences(db.messages)
    ensures j < |Recovered(db, uuid, now).messages|
    ensures var (s, m, after) := (db.sessions[i], db.messages[j], Recovered(db, uuid, now).messages[j]);
            var newest := Newest(db.messages, j, s);
            var lost := m.status == Streaming && (s.activeTaskId in {None, Some("")} || m.taskId == s.activeTaskId);
            && after == m.(content := after.content, status := if newest || lost then MessageFailed else m.status)
            && (!newest ==> after.content == m.content)
            && (newest ==>
                  exists reason ::
                    Explains(reason, s, db.tasks) && KeepsAndNames(m.content, after.content, reason))
  {
    hide Plan, Unknown, Recovers, KeepsAndNames, UniqueSequences, ApplyAll;
    var (s, plan) := (db.sessions[i], PlanFor(db, now));
    RecoversUnlessUnknown(db, now, s);
    var f := Fix(s, Reason(s, StuckIds(db.tasks)), LatestAssistant(db.messages, s));
    assert f in plan;
    var k :| 0 <= k < |plan| && plan[k] == f;
    MessagesRecovered(db, uuid, now, k, j);
    NewestIsLatest(db.messages, j, s);
    ReasonExplains(s, db.tasks);
  }

  lemma NewestIsLatest(messages: seq<Message>, j: int, s: Session)
    requires DistinctIds(messages) && UniqueSequences(messages) && 0 <= j < |messages|
    ensures Newest(messages, j, s) <==> LatestAssistant(messages, s) == Some(messages[j])
  {
    hide LatestAssistant;
    var latest := LatestAssistant(messages, s);
    if latest.Some? {
      var l :| 0 <= l < |messages| && messages[l] == latest.value;
      assert Candidate(messages[l], s) && Answers(messages[l], s);
      if l != j && Answers(messages[j], s) {
        assert messages[j].sequence < messages[l].sequence;
      }
    }
    assert forall i :: 0 <= i < |messages| ==> Candidate(messages[i], s) == Answers(messages[i], s);
  }

  lemma ReasonExplains(s: Session, tasks: seq<Task>)
    ensures Explains(Reason(s, StuckIds(tasks)), s, tasks)
  {
  }

  lemma OthersUntouchedBy(db: Db, plan: seq<Fix>, uuid: nat -> string, now: string, sessionId: string)
    requires DistinctIds(db.messages) && !InPlan(plan, sessionId)
    requires forall f :: f in plan ==> OwnLatest(f, db.messages)
    ensures var after := ApplyAll(db, plan, uuid, now);
            && |after.messages| == |db.messages| + |plan| && |after.commands| == |db.commands|
            && (forall i :: 0 <= i < |db.messages| && db.messages[i].sessionId == sessionId ==>
               after.messages[i] == db.messages[i])
            && (forall i :: |db.messages| <= i < |after.messages| ==> after.messages[i].sessionId != sessionId)
            && (forall i :: 0 <= i < |db.commands| && db.commands[i].sessionId == sessionId ==>
               after.commands[i] == db.commands[i])
  {
    hide ApplyAll, DistinctIds, OwnLatest, CloseCommand;
    var after := ApplyAll(db, plan, uuid, now);
    ApplyAllShape(db, plan, uuid, now);
    forall i | 0 <= i < |db.messages| && db.messages[i].sessionId == sessionId
      ensures after.messages[i] == db.messages[i]
    {
      OtherMessagesUntouched(db, plan, uuid, now, i);
    }
    forall i | |db.messages| <= i < |after.messages|
      ensures after.messages[i].sessionId != sessionId
    {
      NoticeAfter(db, plan, uuid, now, i - |db.messages|);
    }
    forall i | 0 <= i < |db.commands| && db.commands[i].sessionId == sessionId
      ensures after.commands[i] == db.commands[i]
    {
      CommandAfter(db, plan, uuid, now, i);
    }
  }

  // A session outside the plan keeps every message and every command as it was, and gets no
  // new message.
  lemma OthersUntouched(db: Db, uuid: nat -> string, now: string, sessionId: string)
    requires DistinctIds(db.messages) && DistinctSessionIds(db.sessions) && !InPlan(PlanFor(db, now), sessionId)
    ensures var after := Recovered(db, uuid, now);
            && |after.messages| == |db.messages| + |PlanFor(db, now)| && |after.commands| == |db.commands|
            && (forall i :: 0 <= i < |db.messages| && db.messages[i].sessionId == sessionId ==>
               after.messages[i] == db.messages[i])
            && (forall i :: |db.messages| <= i < |after.messages| ==> after.messages[i].sessionId != sessionId)
            && (forall i :: 0 <= i < |db.commands| && db.commands[i].sessionId == sessionId ==>
               after.commands[i] == db.commands[i])
  {
    hide Plan, FailTask, Failures, ApplyAll;
    var (failed, plan) := (FailTasks(db, now), PlanFor(db, now));
    PlanDistinct(db.sessions, StuckIds(db.tasks), failed.tasks, db.messages);
    OthersUntouchedBy(failed, plan, uuid, now, sessionId);
  }

  // Every recovered session gets one new message that says why, after all it had.
  lemma NoticeInserted(db: Db, uuid: nat -> string, now: string, k: int)
    requires DistinctSessionIds(db.sessions) && 0 <= k < |PlanFor(db, now)| && NewId(db.messages, uuid(k))
    ensures |Recovered(db, uuid, now).messages| == |db.messages| + |PlanFor(db, now)|
    ensures var (f, messages, at) := (PlanFor(db, now)[k], Recovered(db, uuid, now).messages, |db.messages| + k);
            && messages[at] == Message(uuid(k), f.session.id, f.session.activeTaskId, System, f.reason,
                                       MessageFailed, messages[at].sequence)
            && Tops(messages, at)
  {
    hide Plan, ApplyAll;
    PlanDistinct(db.sessions, StuckIds(db.tasks), FailTasks(db, now).tasks, db.messages);
    NoticeStays(FailTasks(db, now), PlanFor(db, now), uuid, now, k);
  }

  // Each session that was running or waiting and whose active task is not unknown has its notice.
  lemma SessionNoticed(db: Db, uuid: nat -> string, now: string, i: int) returns (k: nat)
    requires DistinctSessionIds(db.sessions) && forall k :: NewId(db.messages, uuid(k))
    requires 0 <= i < |db.sessions| && Interrupted(db.sessions[i].status) && !Unknown(db.sessions[i], db)
    ensures |db.messages| + k < |Recovered(db, uuid, now).messages|
    ensures var (s, notice) := (db.sessions[i], Recovered(db, uuid, now).messages[|db.messages| + k]);
            && notice == Message(uuid(k), s.id, s.activeTaskId, System, notice.content, MessageFailed, notice.sequence)
            && Explains(notice.content, s, db.tasks)
            && Tops(Recovered(db, uuid, now).messages, |db.messages| + k)
  {
    hide Plan, Unknown, Recovers, ApplyAll, Tops, NewId;
    var (s, plan) := (db.sessions[i], PlanFor(db, now));
    RecoversUnlessUnknown(db, now, s);
    var f := Fix(s, Reason(s, StuckIds(db.tasks)), LatestAssistant(db.messages, s));
    assert f in plan;
    k :| 0 <= k < |plan| && plan[k] == f;
    NoticeInserted(db, uuid, now, k);
    ReasonExplains(s, db.tasks);
  }

  // The report counts the sessions that are recovered.
  lemma SessionsCounted(db: Db, now: string)
    ensures ReportFor(db, now).recoveredSessions ==
            |set i | 0 <= i < |db.sessions| && Interrupted(db.sessions[i].status) && !Unknown(db.sessions[i], db)|
  {
    hide Plan, Unknown, Recovers, Interrupted;
    var (stuck, tasks) := (StuckIds(db.tasks), FailTasks(db, now).tasks);
    forall i | 0 <= i < |db.sessions|
      ensures Recovers(db.sessions[i], stuck, tasks) <==>
              Interrupted(db.sessions[i].status) && !Unknown(db.sessions[i], db)
    {
      RecoversUnlessUnknown(db, now, db.sessions[i]);
    }
    PlanCounts(db.sessions, stuck, tasks, db.messages);
    assert RecoveredAt(db.sessions, stuck, tasks) ==
           (set i | 0 <= i < |db.sessions| && Interrupted(db.sessions[i].status) && !Unknown(db.sessions[i], db));
  }

  function RecoveredAt(sessions: seq<Session>, stuck: set<string>, tasks: seq<Task>): set<int> {
    set i | 0 <= i < |sessions| && Recovers(sessions[i], stuck, tasks)
  }

  lemma {:induction false} PlanCounts(sessions: seq<Session>, stuck: set<string>, tasks: seq<Task>,
                                      messages: seq<Message>)
    ensures |Plan(sessions, stuck, tasks, messages)| == |RecoveredAt(sessions, stuck, tasks)|
  {
    hide Plan, RecoveredAt;
    if sessions == [] {
      NothingPlanned(stuck, tasks, messages);
    } else {
      var (init, last) := (sessions[..|sessions| - 1], sessions[|sessions| - 1]);
      assert sessions == init + [last];
      PlanCounts(init, stuck, tasks, messages);
      PlanMore(init, last, stuck, tasks, messages);
      RecoveredMore(init, last, stuck, tasks);
    }
  }

  lemma NothingPlanned(stuck: set<string>, tasks: seq<Task>, messages: seq<Message>)
    ensures Plan([], stuck, tasks, messages) == [] && RecoveredAt([], stuck, tasks) == {}
  {
  }

  lemma PlanMore(sessions: seq<Session>, last: Session, stuck: set<string>, tasks: seq<Task>, messages: seq<Message>)
    ensures |Plan(sessions + [last], stuck, tasks, messages)| ==
            |Plan(sessions, stuck, tasks, messages)| + if Recovers(last, stuck, tasks) then 1 else 0
  {
    hide Recovers, Reason, LatestAssistant;
    assert (sessions + [last])[..|sessions|] == sessions;
  }

  lemma RecoveredMore(sessions: seq<Session>, last: Session, stuck: set<string>, tasks: seq<Task>)
    ensures |RecoveredAt(sessions + [last], stuck, tasks)| ==
            |RecoveredAt(sessions, stuck, tasks)| + if Recovers(last, stuck, tasks) then 1 else 0
  {
    hide Recovers;
    assert RecoveredAt(sessions + [last], stuck, tasks) ==
           RecoveredAt(sessions, stuck, tasks) + if Recovers(last, stuck, tasks) then {|sessions|} else {};
  }

  function Count(tasks: seq<Task>): nat {
    if tasks == [] then 0 else Count(tasks[..|tasks| - 1]) + (if Stuck(tasks[|tasks| - 1]) then 1 else 0)
  }

  // Every stuck task is reported failed, no other is, and each as often as it is stored.
  lemma {:induction false} FailuresReported(tasks: seq<Task>)
    ensures |Failures(tasks)| == Count(tasks)
    ensures forall id :: TaskFailed(id, STUCK_TASK) in Failures(tasks) <==>
              exists i :: 0 <= i < |tasks| && tasks[i].id == id && Stuck(tasks[i])
    ensures forall e :: e in Failures(tasks) ==> e.errorMessage == STUCK_TASK
  {
    hide Stuck;
    if tasks != [] {
      var (init, last) := (tasks[..|tasks| - 1], tasks[|tasks| - 1]);
      FailuresReported(init);
      assert tasks == init + [last];
    }
  }

  lemma EventsAppended(db: Db, uuid: nat -> string, now: string)
    ensures Recovered(db, uuid, now).events == db.events + Failures(db.tasks)
    ensures ReportFor(db, now).recoveredTasks == Count(db.tasks)
  {
    hide Plan, Failures;
    FailuresReported(db.tasks);
    ApplyAllShape(FailTasks(db, now), PlanFor(db, now), uuid, now);
  }

  lemma CommandsClosed(db: Db, uuid: nat -> string, now: string, i: int)
    requires 0 <= i < |db.commands| && InPlan(PlanFor(db, now), db.commands[i].sessionId)
    ensures |Recovered(db, uuid, now).commands| == |db.commands|
    ensures var (c, after) := (db.commands[i], Recovered(db, uuid, now).commands[i]);
            && (c.finishedAt.Some? ==> after == c)
            && (c.finishedAt.None? ==>
                  var code := if c.exitCode.Some? then c.exitCode.value else 1;
                  after == Command(c.id, c.sessionId, Some(now), Some(code)))
  {
    hide Plan;
    CommandAfter(FailTasks(db, now), PlanFor(db, now), uuid, now, i);
  }

  lemma SequencesStayUnique(db: Db, uuid: nat -> string, now: string)
    requires UniqueSequences(db.messages)
    ensures UniqueSequences(Recovered(db, uuid, now).messages)
  {
    ApplyKeepsUnique(FailTasks(db, now), PlanFor(db, now), uuid, now);
  }

  lemma {:induction false} NoFailures(tasks: seq<Task>)
    requires forall i :: 0 <= i < |tasks| ==> !Stuck(tasks[i])
    ensures Failures(tasks) == []
  {
    if tasks != [] {
      NoFailures(tasks[..|tasks| - 1]);
    }
  }

  lemma {:induction false} EmptyPlan(sessions: seq<Session>, stuck: set<string>, tasks: seq<Task>,
                                     messages: seq<Message>)
    requires forall i :: 0 <= i < |sessions| ==> !Recovers(sessions[i], stuck, tasks)
    ensures Plan(sessions, stuck, tasks, messages) == []
  {
    hide Recovers, LatestAssistant;
    if sessions != [] {
      EmptyPlan(sessions[..|sessions| - 1], stuck, tasks, messages);
    }
  }

  // A session that is left stale would be left stale again.
  lemma StaysUnrecovered(db: Db, uuid: nat -> string, now: string, i: int)
    requires 0 <= i < |db.sessions|
    ensures |Recovered(db, uuid, now).sessions| == |db.sessions|
    ensures !Recovers(Recovered(db, uuid, now).sessions[i], {}, FailTasks(db, now).tasks)
  {
    hide Plan, StatusOf;
    var (failed, plan) := (FailTasks(db, now), PlanFor(db, now));
    var s := db.sessions[i];
    SessionAfter(failed, plan, uuid, now, i);
    if Recovers(s, StuckIds(db.tasks), failed.tasks) {
      var f := Fix(s, Reason(s, StuckIds(db.tasks)), LatestAssistant(db.messages, s));
      assert f in plan;
      var k :| 0 <= k < |plan| && plan[k] == f;
      assert plan[k].session.id == s.id;
    }
  }

  // Running recovery a second time, whenever that is, changes nothing and reports nothing.
  lemma {:induction false} SecondRunChangesNothing(db: Db, uuid: nat -> string, now: string, uuid': nat -> string,
                                                   later: string)
    ensures Recovered(Recovered(db, uuid, now), uuid', later) == Recovered(db, uuid, now)
    ensures ReportFor(Recovered(db, uuid, now), later) == Report(0, 0)
  {
    var once := Recovered(db, uuid, now);
    NothingStuck(db, uuid, now);
    ApplyAllShape(FailTasks(db, now), PlanFor(db, now), uuid, now);
    hide Plan, Recovers;
    NoFailures(once.tasks);
    assert StuckIds(once.tasks) == {};
    assert FailTasks(once, later).tasks == once.tasks;
    assert once.events + [] == once.events;
    assert FailTasks(once, later) == once;
    forall i | 0 <= i < |once.sessions|
      ensures !Recovers(once.sessions[i], {}, once.tasks)
    {
      StaysUnrecovered(db, uuid, now, i);
    }
    EmptyPlan(once.sessions, {}, once.tasks, once.messages);
  }
}
