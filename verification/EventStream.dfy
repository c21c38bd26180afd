/** From message snapshots to text deltas: apps/host/src/routes/agent-event-mapper.ts and the
    event stream of apps/host/src/routes/agent-session-event-routes.ts that replays a session
    and then follows it. The client side is a reader that appends every `assistant.delta` to
    the text it has for that id. */
module EventStream {
  import opened Options

  datatype Role = User | Assistant | OtherRole
  datatype Kind = TextKind | CommandResult | ToolCall | OtherKind
  // `textless` is how many events a message maps to that is not shown as assistant text.
  datatype Message = Message(id: string, role: Role, kind: Kind, content: string, streaming: bool, textless: nat)

  // The session events that can carry assistant text; every other event type is `Unrelated`
  // and maps to some number of events without it.
  datatype StreamEvent =
    | Snapshot(completed: bool, message: Option<Message>, assistantMessage: Option<Message>,
               messageId: string, delta: string, sessionIdle: bool)
    | Started(message: Option<Message>)
    | Unrelated(count: nat)

  // Events of the outgoing stream. `Passive` stands for all that carry no assistant text.
  datatype AgentEvent =
    | AssistantDelta(id: string, delta: string)
    | AssistantCompleted(id: string)
    | SessionCompleted(summary: string)
    | Passive

  type Texts = map<string, string>

  function Get(texts: Texts, id: string): string {
    if id in texts then texts[id] else ""
  }

  predicate StartsWith(next: string, previous: string) {
    previous <= next
  }

  function Passives(count: nat): seq<AgentEvent> {
    seq(count, _ => Passive)
  }

  // ----- the mapper

  function MessageToAgentEvents(message: Message): seq<AgentEvent> {
    match message.role
    case User => Passives(message.textless)
    case Assistant =>
      (if message.content != "" then [AssistantDelta(message.id, message.content)] else [])
      + (if !message.streaming then [AssistantCompleted(message.id)] else [])
    case OtherRole =>
      if message.kind.CommandResult? then
        (if message.content != "" then [AssistantDelta(message.id, message.content)] else [])
        + [AssistantCompleted(message.id)]
      else Passives(message.textless)
  }

  function Target(e: StreamEvent): Option<Message>
    requires e.Snapshot?
  {
    if e.message.Some? && e.message.value.role.Assistant? then e.message
    else if e.assistantMessage.Some? && e.assistantMessage.value.role.Assistant? then e.assistantMessage
    else None
  }

  // The part of `next` that the snapshot does not have yet, or all of it when `next` does not
  // continue the snapshot.
  function Fresh(previous: string, next: string): string {
    if StartsWith(next, previous) then next[|previous|..] else next
  }

  function DeltaEvents(id: string, delta: string): seq<AgentEvent> {
    if delta != "" then [AssistantDelta(id, delta)] else []
  }

  // What an event emits, and the snapshots after it.
  function Emit(e: StreamEvent, snapshots: Texts): (seq<AgentEvent>, Texts) {
    match e
    case Unrelated(count) => (Passives(count), snapshots)
    case Started(message) =>
      if message.None? || message.value.kind.ToolCall? then ([], snapshots)
      else
        (MessageToAgentEvents(message.value),
         if message.value.role.Assistant? then snapshots[message.value.id := message.value.content] else snapshots)
    case Snapshot(completed, _, _, messageId, delta, sessionIdle) =>
      var target := Target(e);
      if target.Some? then
        var (id, next) := (target.value.id, target.value.content);
        (DeltaEvents(id, Fresh(Get(snapshots, id), next))
         + (if completed || !target.value.streaming then
              [AssistantCompleted(id)] + (if sessionIdle then [SessionCompleted(next)] else [])
            else []),
         snapshots[id := next])
      else if messageId != "" && delta != "" then
        (DeltaEvents(messageId, Fresh(Get(snapshots, messageId), delta))
         + (if completed then [AssistantCompleted(messageId)] else []),
         snapshots[messageId := delta])
      else ([], snapshots)
  }

  // ----- the client

  function Append(texts: Texts, e: AgentEvent): Texts {
    if e.AssistantDelta? then texts[e.id := Get(texts, e.id) + e.delta] else texts
  }

  function Read(texts: Texts, events: seq<AgentEvent>): Texts
    decreases |events|
  {
    if events == [] then texts else Read(Append(texts, events[0]), events[1..])
  }

  lemma {:induction false} ReadConcat(texts: Texts, a: seq<AgentEvent>, b: seq<AgentEvent>)
    ensures Read(texts, a + b) == Read(Read(texts, a), b)
    decreases |a|
  {
    if a == [] {
      assert a + b == b;
    } else {
      assert (a + b)[1..] == a[1..] + b;
      ReadConcat(Append(texts, a[0]), a[1..], b);
    }
  }

  // ----- the messages themselves

  // The id and full text an event reports, if it reports assistant text at all.
  function Reported(e: StreamEvent): Option<(string, string)> {
    match e
    case Unrelated(_) => None
    case Started(message) =>
      if message.Some? && !message.value.kind.ToolCall? && TextOf(message.value) then
        Some((message.value.id, message.value.content))
      else None
    case Snapshot(_, _, _, messageId, delta, _) =>
      var target := Target(e);
      if target.Some? then Some((target.value.id, target.value.content))
      else if messageId != "" && delta != "" then Some((messageId, delta))
      else None
  }

  // Messages whose content the stream shows as assistant text.
  predicate TextOf(message: Message) {
    message.role.Assistant? || (message.role.OtherRole? && message.kind.CommandResult?)
  }

  // The latest content of every message.
  function Latest(e: StreamEvent, contents: Texts): Texts {
    var r := Reported(e);
    if r.Some? then contents[r.value.0 := r.value.1] else contents
  }

  // What the protocol keeps: the client has the latest content of every message, and so do
  // the snapshots, except for command results, which are shown without taking a snapshot.
  ghost predicate InStep(client: Texts, snapshots: Texts, contents: Texts, results: set<string>) {
    && (forall id: string :: Get(client, id) == Get(contents, id))
    && (forall id: string :: id !in results ==> Get(snapshots, id) == Get(contents, id))
    && (forall id: string :: id in results ==> Get(snapshots, id) == "" && Get(contents, id) != "")
  }

  function ResultsAfter(e: StreamEvent, results: set<string>): set<string> {
    if e.Started? && Reported(e).Some? && !e.message.value.role.Assistant? && e.message.value.content != ""
    then results + {e.message.value.id} else results
  }

  // An event fits when it starts a message that has no text yet, or continues the text of a
  // message that is not a command result already shown.
  predicate Fits(e: StreamEvent, contents: Texts, results: set<string>) {
    var r := Reported(e);
    r.Some? ==>
      if e.Started? then Get(contents, r.value.0) == ""
      else r.value.0 !in results && StartsWith(r.value.1, Get(contents, r.value.0))
  }

  // The text an event adds for the id it reports.
  function Added(e: StreamEvent, snapshots: Texts): string
    requires Reported(e).Some?
  {
    var (id, next) := Reported(e).value;
    if e.Started? then next else Fresh(Get(snapshots, id), next)
  }

  predicate Silent(events: seq<AgentEvent>) {
    forall i :: 0 <= i < |events| ==> !events[i].AssistantDelta?
  }

  lemma EmitShape(e: StreamEvent, snapshots: Texts) returns (rest: seq<AgentEvent>)
    ensures Silent(rest)
    ensures Emit(e, snapshots).0 ==
            (if Reported(e).Some? then DeltaEvents(Reported(e).value.0, Added(e, snapshots)) else []) + rest
  {
    var events := Emit(e, snapshots).0;
    assert [] + events == events;
    if Reported(e).None? {
      rest := events;
    } else if e.Started? {
      rest := StartedShape(e.message.value);
    } else {
      rest := SnapshotShape(e, snapshots);
    }
  }

  lemma StartedShape(message: Message) returns (rest: seq<AgentEvent>)
    requires TextOf(message)
    ensures Silent(rest) && MessageToAgentEvents(message) == DeltaEvents(message.id, message.content) + rest
  {
    rest := if message.role.Assistant? && message.streaming then [] else [AssistantCompleted(message.id)];
  }

  lemma SnapshotShape(e: StreamEvent, snapshots: Texts) returns (rest: seq<AgentEvent>)
    requires e.Snapshot? && Reported(e).Some?
    ensures Silent(rest)
    ensures Emit(e, snapshots).0 == DeltaEvents(Reported(e).value.0, Added(e, snapshots)) + rest
  {
    hide Fresh, Get, DeltaEvents;
    var (id, next) := Reported(e).value;
    if Target(e).None? {
      rest := if e.completed then [AssistantCompleted(id)] else [];
    } else {
      rest := if e.completed || !Target(e).value.streaming
        then [AssistantCompleted(id)] + (if e.sessionIdle then [SessionCompleted(next)] else [])
        else [];
    }
  }

  // ----- what an event emits, told from its fields

  // The event has this assistant message: as the message, or else as the assistant's message.
  predicate Carries(e: StreamEvent, m: Message)
    requires e.Snapshot?
  {
    && m.role.Assistant?
    && (e.message == Some(m)
        || ((e.message.None? || !e.message.value.role.Assistant?) && e.assistantMessage == Some(m)))
  }

  // Without an assistant message, the id and the delta of the event itself are taken.
  predicate CarriesDelta(e: StreamEvent)
    requires e.Snapshot?
  {
    && (e.message.None? || !e.message.value.role.Assistant?)
    && (e.assistantMessage.None? || !e.assistantMessage.value.role.Assistant?)
    && e.messageId != "" && e.delta != ""
  }

  // A message that starts is shown as assistant text if it is the assistant's or a command's result.
  predicate StartsText(e: StreamEvent, m: Message) {
    && e == Started(Some(m)) && !m.kind.ToolCall?
    && (m.role.Assistant? || (m.role.OtherRole? && m.kind.CommandResult?))
  }

  lemma ReportedMeans(e: StreamEvent, id: string, next: string)
    ensures Reported(e) == Some((id, next)) <==>
            || (e.Started? && e.message.Some? && StartsText(e, e.message.value)
                && id == e.message.value.id && next == e.message.value.content)
            || (e.Snapshot? && exists m :: Carries(e, m) && id == m.id && next == m.content)
            || (e.Snapshot? && CarriesDelta(e) && id == e.messageId && next == e.delta)
  {
    if e.Snapshot? && Target(e).Some? {
      assert Carries(e, Target(e).value);
    }
  }

  // The event finishes the message with this id.
  ghost predicate Finishes(e: StreamEvent, id: string) {
    match e
    case Unrelated(_) => false
    case Started(message) =>
      && message.Some? && StartsText(e, message.value) && id == message.value.id
      && (message.value.role.Assistant? ==> !message.value.streaming)
    case Snapshot(completed, _, _, messageId, _, _) =>
      || (exists m :: Carries(e, m) && id == m.id && (completed || !m.streaming))
      || (CarriesDelta(e) && completed && id == messageId)
  }

  // The event finishes the session's turn, with this text.
  ghost predicate FinishesTurn(e: StreamEvent, summary: string) {
    e.Snapshot? && e.sessionIdle && exists m :: Carries(e, m) && summary == m.content && (e.completed || !m.streaming)
  }

  lemma OneCarried(e: StreamEvent)
    requires e.Snapshot?
    ensures forall m :: Carries(e, m) <==> Target(e) == Some(m)
  {
  }

  // A message is reported as finished, and a turn as completed, exactly by the events that finish
  // them: after the text, and the message before the turn.
  lemma ClosingEvents(e: StreamEvent, snapshots: Texts)
    ensures var events := Emit(e, snapshots).0;
            && (forall id :: AssistantCompleted(id) in events <==> Finishes(e, id))
            && (forall summary :: SessionCompleted(summary) in events <==> FinishesTurn(e, summary))
            && InOrder(events)
  {
    hide Fresh, Get;
    if e.Snapshot? {
      OneCarried(e);
      hide Carries;
      SnapshotCloses(e, snapshots);
    } else if e.Started? && e.message.Some? && !e.message.value.kind.ToolCall? {
      StartedCloses(e.message.value);
    }
  }

  ghost predicate InOrder(events: seq<AgentEvent>) {
    forall i :: 0 <= i < |events| ==>
      && (events[i].AssistantDelta? ==> i == 0)
      && (events[i].AssistantCompleted? ==> i <= 1 && forall j :: i < j < |events| ==> events[j].SessionCompleted?)
      && (events[i].SessionCompleted? ==> 1 <= i == |events| - 1 && events[i - 1].AssistantCompleted?)
  }

  lemma SnapshotCloses(e: StreamEvent, snapshots: Texts)
    requires e.Snapshot? && forall m :: Carries(e, m) <==> Target(e) == Some(m)
    ensures var events := Emit(e, snapshots).0;
            && (forall id :: AssistantCompleted(id) in events <==> Finishes(e, id))
            && (forall summary :: SessionCompleted(summary) in events <==> FinishesTurn(e, summary))
            && InOrder(events)
  {
    hide Fresh, Get, Carries, InOrder;
    SnapshotInOrder(e, snapshots);
  }

  lemma SnapshotInOrder(e: StreamEvent, snapshots: Texts)
    requires e.Snapshot?
    ensures InOrder(Emit(e, snapshots).0)
  {
    hide Fresh, Get, InOrder, DeltaEvents, Target;
    var target := Target(e);
    if target.Some? {
      var (id, next) := (target.value.id, target.value.content);
      var delta := Fresh(Get(snapshots, id), next);
      ClosingInOrder(id, delta, []);
      ClosingInOrder(id, delta, [AssistantCompleted(id)]);
      ClosingInOrder(id, delta, [AssistantCompleted(id), SessionCompleted(next)]);
      assert [AssistantCompleted(id)] + [] == [AssistantCompleted(id)];
      assert [AssistantCompleted(id)] + [SessionCompleted(next)] == [AssistantCompleted(id), SessionCompleted(next)];
    } else {
      ClosingInOrder(e.messageId, Fresh(Get(snapshots, e.messageId), e.delta), []);
      ClosingInOrder(e.messageId, Fresh(Get(snapshots, e.messageId), e.delta), [AssistantCompleted(e.messageId)]);
      assert InOrder([]) by { ClosingInOrder("", "", []); }
    }
  }

  lemma ClosingInOrder(id: string, delta: string, closing: seq<AgentEvent>)
    requires |closing| <= 2 && (closing != [] ==> closing[0].AssistantCompleted?)
    requires |closing| == 2 ==> closing[1].SessionCompleted?
    ensures InOrder(DeltaEvents(id, delta) + closing)
    ensures DeltaEvents("", "") + [] == []
  {
  }

  lemma StartedCloses(message: Message)
    requires !message.kind.ToolCall?
    ensures var events := MessageToAgentEvents(message);
            && (forall id :: AssistantCompleted(id) in events <==> Finishes(Started(Some(message)), id))
            && (forall summary :: SessionCompleted(summary) !in events)
            && InOrder(events)
  {
  }

  // Every other event is passed on as so many events without text.
  lemma PassedOn(e: StreamEvent, snapshots: Texts)
    ensures var events := Emit(e, snapshots).0;
            if Reported(e).Some? then Passive !in events
            else
              && |events| == (if e.Unrelated? then e.count
                              else if e.Started? && e.message.Some? && !e.message.value.kind.ToolCall?
                              then e.message.value.textless else 0)
              && forall i :: 0 <= i < |events| ==> events[i].Passive?
  {
    hide Fresh, Get;
  }

  // One event adds text for the id it reports and for no other.
  lemma EmitAdds(e: StreamEvent, snapshots: Texts, client: Texts)
    ensures var after := Read(client, Emit(e, snapshots).0);
            && (Reported(e).None? ==> after == client)
            && (Reported(e).Some? ==> OnlyAdds(client, after, Reported(e).value.0, Added(e, snapshots)))
  {
    hide Emit, Added, Read;
    var rest := EmitShape(e, snapshots);
    if Reported(e).None? {
      assert [] + rest == rest;
      ReadSilent(client, rest);
    } else {
      var (id, text) := (Reported(e).value.0, Added(e, snapshots));
      ReadConcat(client, DeltaEvents(id, text), rest);
      ReadSilent(Read(client, DeltaEvents(id, text)), rest);
      ReadDelta(client, id, text);
    }
  }

  ghost predicate OnlyAdds(client: Texts, after: Texts, id: string, text: string) {
    && Get(after, id) == Get(client, id) + text
    && forall other: string :: other != id ==> Get(after, other) == Get(client, other)
  }

  lemma ReadDelta(client: Texts, id: string, text: string)
    ensures OnlyAdds(client, Read(client, DeltaEvents(id, text)), id, text)
  {
    if text == "" {
      assert Get(client, id) + "" == Get(client, id);
    } else {
      assert Read(client, [AssistantDelta(id, text)]) == Read(Append(client, AssistantDelta(id, text)), []);
    }
  }

  lemma {:induction false} ReadSilent(client: Texts, events: seq<AgentEvent>)
    requires Silent(events)
    ensures Read(client, events) == client
  {
    if events != [] {
      ReadSilent(client, events[1..]);
    }
  }

  // Known text plus the fresh part of a snapshot is the new text exactly when it continues it.
  lemma FreshCompletes(known: string, previous: string, next: string)
    requires previous == known || previous == "" != known
    ensures known + Fresh(previous, next) == next <==> previous == known && StartsWith(next, known)
  {
    if StartsWith(next, previous) {
      assert previous + next[|previous|..] == next;
    }
    if previous == "" {
      assert next[0..] == next;
    }
    assert |known + next| == |known| + |next|;
  }

  lemma SameTexts(client: Texts, after: Texts, contents: Texts, id: string, next: string)
    requires forall x: string :: Get(client, x) == Get(contents, x)
    requires forall other: string :: other != id ==> Get(after, other) == Get(client, other)
    ensures (forall x: string :: Get(after, x) == Get(contents[id := next], x)) <==> Get(after, id) == next
  {
    assert Get(contents[id := next], id) == next;
  }

  // One event keeps client and contents in step exactly when it fits.
  lemma StepAgrees(e: StreamEvent, client: Texts, snapshots: Texts, contents: Texts, results: set<string>)
    requires InStep(client, snapshots, contents, results)
    ensures var after := Read(client, Emit(e, snapshots).0);
            (forall id: string :: Get(after, id) == Get(Latest(e, contents), id)) <==> Fits(e, contents, results)
  {
    hide Emit, Read, Fresh;
    EmitAdds(e, snapshots, client);
    if Reported(e).Some? {
      var (id, next) := Reported(e).value;
      var after := Read(client, Emit(e, snapshots).0);
      SameTexts(client, after, contents, id, next);
      if e.Started? {
        assert |Get(client, id) + next| == |Get(client, id)| + |next|;
        assert "" + next == next;
      } else {
        FreshCompletes(Get(client, id), Get(snapshots, id), next);
      }
    }
  }

  lemma EmitSnapshots(e: StreamEvent, snapshots: Texts)
    ensures Emit(e, snapshots).1 ==
            if Reported(e).Some? && (e.Snapshot? || e.message.value.role.Assistant?)
            then snapshots[Reported(e).value.0 := Reported(e).value.1] else snapshots
  {
  }

  lemma GetUpdated(texts: Texts, id: string, next: string)
    ensures forall x: string :: Get(texts[id := next], x) == if x == id then next else Get(texts, x)
  {
    forall x: string
      ensures Get(texts[id := next], x) == if x == id then next else Get(texts, x)
    {
    }
  }

  lemma InStepBySnapshot(client: Texts, after: Texts, snapshots: Texts, contents: Texts, results: set<string>,
                         id: string, next: string)
    requires InStep(client, snapshots, contents, results) && id !in results
    requires forall x: string :: Get(after, x) == Get(contents[id := next], x)
    ensures InStep(after, snapshots[id := next], contents[id := next], results)
  {
    hide Get;
    GetUpdated(snapshots, id, next);
    GetUpdated(contents, id, next);
  }

  lemma InStepByResult(client: Texts, after: Texts, snapshots: Texts, contents: Texts, results: set<string>,
                       id: string, next: string)
    requires InStep(client, snapshots, contents, results) && id !in results && Get(contents, id) == ""
    requires forall x: string :: Get(after, x) == Get(contents[id := next], x)
    ensures InStep(after, snapshots, contents[id := next], if next != "" then results + {id} else results)
  {
    hide Get;
    GetUpdated(contents, id, next);
  }

  lemma {:induction false} StepKeepsInStep(e: StreamEvent, client: Texts, snapshots: Texts, contents: Texts,
                                           results: set<string>)
    requires InStep(client, snapshots, contents, results) && Fits(e, contents, results)
    ensures InStep(Read(client, Emit(e, snapshots).0), Emit(e, snapshots).1, Latest(e, contents),
                   ResultsAfter(e, results))
  {
    hide Emit, Read, Get;
    StepAgrees(e, client, snapshots, contents, results);
    EmitSnapshots(e, snapshots);
    var after := Read(client, Emit(e, snapshots).0);
    if Reported(e).None? {
      EmitAdds(e, snapshots, client);
    } else {
      var (id, next) := Reported(e).value;
      assert id !in results;
      hide InStep;
      if e.Snapshot? || e.message.value.role.Assistant? {
        InStepBySnapshot(client, after, snapshots, contents, results, id, next);
      } else {
        InStepByResult(client, after, snapshots, contents, results, id, next);
      }
    }
  }

  // ----- runs

  function EmitAll(events: seq<StreamEvent>, snapshots: Texts): (seq<AgentEvent>, Texts)
    decreases |events|
  {
    if events == [] then ([], snapshots)
    else
      var (first, after) := Emit(events[0], snapshots);
      var (rest, end) := EmitAll(events[1..], after);
      (first + rest, end)
  }

  function LatestAll(events: seq<StreamEvent>, contents: Texts): Texts
    decreases |events|
  {
    if events == [] then contents else LatestAll(events[1..], Latest(events[0], contents))
  }

  predicate AllFit(events: seq<StreamEvent>, contents: Texts, results: set<string>)
    decreases |events|
  {
    events == [] ||
    (Fits(events[0], contents, results) &&
     AllFit(events[1..], Latest(events[0], contents), ResultsAfter(events[0], results)))
  }

  // The client agrees with the messages after every single event of the run.
  ghost predicate AgreesThroughout(events: seq<StreamEvent>, client: Texts, snapshots: Texts, contents: Texts)
    decreases |events|
  {
    && (forall id: string :: Get(client, id) == Get(contents, id))
    && (events == [] ||
        AgreesThroughout(events[1..], Read(client, Emit(events[0], snapshots).0), Emit(events[0], snapshots).1,
                         Latest(events[0], contents)))
  }

  // Whatever the interleaving: a client that reads the stream has the latest content of every
  // message at every moment exactly when every event fits.
  lemma {:induction false} RunAgrees(events: seq<StreamEvent>, client: Texts, snapshots: Texts, contents: Texts,
                                     results: set<string>)
    requires InStep(client, snapshots, contents, results)
    ensures AgreesThroughout(events, client, snapshots, contents) <==> AllFit(events, contents, results)
    decreases |events|
  {
    if events != [] {
      hide Emit, Read, Latest;
      hide Fits, ResultsAfter;
      StepAgrees(events[0], client, snapshots, contents, results);
      if Fits(events[0], contents, results) {
        StepKeepsInStep(events[0], client, snapshots, contents, results);
        RunAgrees(events[1..], Read(client, Emit(events[0], snapshots).0), Emit(events[0], snapshots).1,
                  Latest(events[0], contents), ResultsAfter(events[0], results));
      }
    }
  }

  // Delivering the same delta or completed event once more adds no text.
  lemma RedeliveryAddsNothing(e: StreamEvent, snapshots: Texts)
    requires e.Snapshot?
    ensures var after := Emit(e, snapshots).1;
            Silent(Emit(e, after).0) && Emit(e, after).1 == after
  {
    hide Emit, Fresh;
    var after := Emit(e, snapshots).1;
    EmitSnapshots(e, snapshots);
    EmitSnapshots(e, after);
    var rest := EmitShape(e, after);
    if Reported(e).Some? {
      NothingFresh(Reported(e).value.1);
    }
  }

  lemma NothingFresh(next: string)
    ensures Fresh(next, next) == ""
  {
  }

  // ----- one connection to the event stream

  // A stored message is replayed like a message that starts, tool calls included.
  function AsStarted(message: Message): StreamEvent {
    Started(Some(if message.kind.ToolCall? then message.(kind := OtherKind) else message))
  }

  function Replayed(messages: seq<Message>): seq<StreamEvent> {
    if messages == [] then [] else [AsStarted(messages[0])] + Replayed(messages[1..])
  }

  class Connection {
    const lastEventId: int
    var eventId: int
    var assistant: Texts
    var written: seq<(int, AgentEvent)>

    constructor (lastEventId: int)
      ensures this.lastEventId == lastEventId && eventId == 0 && assistant == map[] && written == []
    {
      this.lastEventId := lastEventId;
      eventId := 0;
      assistant := map[];
      written := [];
    }

    // Ids are handed out to every event; those the client already has are not written.
    method Write(events: seq<AgentEvent>)
      modifies this`eventId, this`written
      ensures eventId == old(eventId) + |events|
      ensures written == old(written) + Stamped(events, old(eventId), lastEventId)
    {
      for i := 0 to |events|
        invariant eventId == old(eventId) + i
        invariant written + Stamped(events[i..], eventId, lastEventId) ==
                  old(written) + Stamped(events, old(eventId), lastEventId)
      {
        assert events[i..][1..] == events[i + 1..];
        eventId := eventId + 1;
        if eventId > lastEventId {
          written := written + [(eventId, events[i])];
        }
      }
      assert events[|events|..] == [];
    }

    // The stored session: a greeting, every message, then events without text.
    method Replay(messages: seq<Message>, closing: seq<AgentEvent>)
      requires eventId == 0 && assistant == map[] && written == []
      modifies this
      ensures assistant == EmitAll(Replayed(messages), map[]).1
      ensures written == Stamped([Passive] + EmitAll(Replayed(messages), map[]).0 + closing, 0, lastEventId)
      ensures eventId == Max(|[Passive] + EmitAll(Replayed(messages), map[]).0 + closing|, lastEventId)
    {
      hide Emit, Stamped, MessageToAgentEvents, AsStarted;
      Write([Passive]);
      ghost var sent := [Passive];
      for i := 0 to |messages|
        invariant eventId == |sent|
        invariant written == Stamped(sent, 0, lastEventId)
        invariant sent + EmitAll(Replayed(messages[i..]), assistant).0 ==
                  [Passive] + EmitAll(Replayed(messages), map[]).0
        invariant EmitAll(Replayed(messages[i..]), assistant).1 == EmitAll(Replayed(messages), map[]).1
      {
        var message := messages[i];
        assert messages[i..][1..] == messages[i + 1..];
        ReplayOne(message, messages[i + 1..], assistant);
        if message.role.Assistant? {
          assistant := assistant[message.id := message.content];
        }
        Write(MessageToAgentEvents(message));
        StampedConcat(sent, MessageToAgentEvents(message), 0, lastEventId);
        sent := sent + MessageToAgentEvents(message);
      }
      assert messages[|messages|..] == [] && sent + [] == sent;
      Write(closing);
      StampedConcat(sent, closing, 0, lastEventId);
      eventId := Max(eventId, lastEventId);
    }

    method OnEvent(e: StreamEvent)
      requires eventId >= lastEventId
      modifies this
      ensures assistant == Emit(e, old(assistant)).1
      ensures written == old(written) + Stamped(Emit(e, old(assistant)).0, old(eventId), lastEventId)
      ensures eventId == old(eventId) + |Emit(e, old(assistant)).0|
    {
      var events;
      events, assistant := Map(e, assistant);
      Write(events);
    }

    static method Map(e: StreamEvent, snapshots: Texts) returns (events: seq<AgentEvent>, after: Texts)
      ensures (events, after) == Emit(e, snapshots)
    {
      events, after := [], snapshots;
      match e
      case Unrelated(count) => events := Passives(count);
      case Started(message) =>
        if message.None? || message.value.kind.ToolCall? {
          return;
        }
        if message.value.role.Assistant? {
          after := after[message.value.id := message.value.content];
        }
        events := MessageToAgentEvents(message.value);
      case Snapshot(completed, message, assistantMessage, messageId, delta, sessionIdle) =>
        var target := if message.Some? && message.value.role.Assistant? then message
        else if assistantMessage.Some? && assistantMessage.value.role.Assistant? then assistantMessage
        else None;
        if target.None? && (messageId == "" || delta == "") {
          return;
        }
        var id := if target.Some? then target.value.id else messageId;
        var next := if target.Some? then target.value.content else delta;
        var previous := if id in snapshots then snapshots[id] else "";
        var added := if previous <= next then next[|previous|..] else next;
        after := after[id := next];
        if added != "" {
          events := events + [AssistantDelta(id, added)];
        }
        assert events == DeltaEvents(id, added) && added == Fresh(previous, next);
        if completed || (target.Some? && !target.value.streaming) {
          events := events + [AssistantCompleted(id)];
          if target.Some? && sessionIdle {
            events := events + [SessionCompleted(next)];
          }
        }
        assert events == DeltaEvents(id, added) +
          (if completed || (target.Some? && !target.value.streaming) then
             [AssistantCompleted(id)] + (if target.Some? && sessionIdle then [SessionCompleted(next)] else [])
           else []);
    }
  }

  function Max(a: int, b: int): int {
    if a < b then b else a
  }

  // The events with the ids after `from`, without those up to lastEventId.
  function Stamped(events: seq<AgentEvent>, from: int, lastEventId: int): seq<(int, AgentEvent)> {
    if events == [] then [] else StampedOne(events[0], from, lastEventId) + Stamped(events[1..], from + 1, lastEventId)
  }

  function StampedOne(e: AgentEvent, from: int, lastEventId: int): seq<(int, AgentEvent)> {
    if from + 1 > lastEventId then [(from + 1, e)] else []
  }

  function EventsOf(written: seq<(int, AgentEvent)>): seq<AgentEvent> {
    if written == [] then [] else [written[0].1] + EventsOf(written[1..])
  }

  lemma {:induction false} StampedConcat(a: seq<AgentEvent>, b: seq<AgentEvent>, from: int, lastEventId: int)
    ensures Stamped(a + b, from, lastEventId) == Stamped(a, from, lastEventId) + Stamped(b, from + |a|, lastEventId)
  {
    hide StampedOne;
    if a == [] {
      assert a + b == b;
    } else {
      assert a + b == [a[0]] + (a[1..] + b) && a == [a[0]] + a[1..];
      StampedConcat(a[1..], b, from + 1, lastEventId);
      hide Stamped;
      StampedCons(a[0], a[1..] + b, from, lastEventId);
      StampedCons(a[0], a[1..], from, lastEventId);
    }
  }

  lemma StampedCons(e: AgentEvent, rest: seq<AgentEvent>, from: int, lastEventId: int)
    ensures Stamped([e] + rest, from, lastEventId) ==
            StampedOne(e, from, lastEventId) + Stamped(rest, from + 1, lastEventId)
  {
    hide StampedOne;
    assert ([e] + rest)[1..] == rest;
  }

  lemma ReplayOne(message: Message, rest: seq<Message>, snapshots: Texts)
    ensures var after := if message.role.Assistant? then snapshots[message.id := message.content] else snapshots;
            && EmitAll(Replayed([message] + rest), snapshots).0 ==
               MessageToAgentEvents(message) + EmitAll(Replayed(rest), after).0
            && EmitAll(Replayed([message] + rest), snapshots).1 == EmitAll(Replayed(rest), after).1
  {
    assert ([message] + rest)[1..] == rest;
    assert ([AsStarted(message)] + Replayed(rest))[1..] == Replayed(rest);
  }

  // How many of the events after `from` the client has already.
  function Skipped(events: seq<AgentEvent>, from: int, lastEventId: int): (n: nat)
    ensures n <= |events|
  {
    if lastEventId <= from then 0 else if lastEventId - from < |events| then lastEventId - from else |events|
  }

  // Written ids are consecutive.
  lemma {:induction false} StampedConsecutive(events: seq<AgentEvent>, from: int, lastEventId: int)
    ensures var w := Stamped(events, from, lastEventId);
            && |w| == Max(0, |events| - Max(0, lastEventId - from))
            && forall i :: 0 <= i < |w| ==> w[i].0 == Max(from, lastEventId) + 1 + i
  {
    if events != [] {
      StampedConsecutive(events[1..], from + 1, lastEventId);
    }
  }

  // The events written are all that are not skipped.
  lemma {:induction false} StampedEvents(events: seq<AgentEvent>, from: int, lastEventId: int)
    ensures EventsOf(Stamped(events, from, lastEventId)) == events[Skipped(events, from, lastEventId)..]
  {
    if events != [] {
      StampedEvents(events[1..], from + 1, lastEventId);
      assert events == [events[0]] + events[1..];
      hide Stamped, EventsOf;
      hide StampedOne, Skipped;
      StampedCons(events[0], events[1..], from, lastEventId);
      EventsOfConcat(StampedOne(events[0], from, lastEventId), Stamped(events[1..], from + 1, lastEventId));
      EventsOfOne(events[0], from, lastEventId);
      SkippedCons(events, from, lastEventId);
    }
  }

  lemma SkippedCons(events: seq<AgentEvent>, from: int, lastEventId: int)
    requires events != []
    ensures events[Skipped(events, from, lastEventId)..] ==
            (if from + 1 > lastEventId then [events[0]] else []) +
            events[1..][Skipped(events[1..], from + 1, lastEventId)..]
  {
  }

  lemma EventsOfOne(e: AgentEvent, from: int, lastEventId: int)
    ensures EventsOf(StampedOne(e, from, lastEventId)) == if from + 1 > lastEventId then [e] else []
  {
    var one := StampedOne(e, from, lastEventId);
    if one != [] {
      assert one[1..] == [];
    }
  }

  lemma {:induction false} EventsOfConcat(a: seq<(int, AgentEvent)>, b: seq<(int, AgentEvent)>)
    ensures EventsOf(a + b) == EventsOf(a) + EventsOf(b)
  {
    if a == [] {
      assert a + b == b;
    } else {
      assert (a + b)[1..] == a[1..] + b;
      EventsOfConcat(a[1..], b);
    }
  }

  lemma {:induction false} EventsOfLength(written: seq<(int, AgentEvent)>)
    ensures |EventsOf(written)| == |written|
  {
    if written != [] {
      EventsOfLength(written[1..]);
    }
  }

  // A whole connection: replay of the stored messages, then the events after subscribing.
  method Serve(lastEventId: int, messages: seq<Message>, closing: seq<AgentEvent>, live: seq<StreamEvent>)
    returns (written: seq<(int, AgentEvent)>)
    ensures forall i :: 0 <= i < |written| ==> written[i].0 == Max(0, lastEventId) + 1 + i
    ensures var (replayed, snapshots) := EmitAll(Replayed(messages), map[]);
            var sent := [Passive] + replayed + closing;
            EventsOf(written) == sent[Skipped(sent, 0, lastEventId)..] + EmitAll(live, snapshots).0
    ensures |written| == |EventsOf(written)|
  {
    hide Emit, Stamped, EventsOf;
    var c := new Connection(lastEventId);
    c.Replay(messages, closing);
    ghost var sent := [Passive] + EmitAll(Replayed(messages), map[]).0 + closing;
    ghost var snapshots := c.assistant;
    StampedConsecutive(sent, 0, lastEventId);
    StampedEvents(sent, 0, lastEventId);
    ghost var first := c.written;
    ghost var base := c.eventId;
    ghost var liveSent := [];
    StampedConsecutive([], base, lastEventId);
    assert first + [] == first && [] + EmitAll(live, snapshots).0 == EmitAll(live, snapshots).0 && live[0..] == live;
    for i := 0 to |live|
      invariant fresh(c) && c.lastEventId == lastEventId
      invariant c.eventId == base + |liveSent|
      invariant c.written == first + Stamped(liveSent, base, lastEventId)
      invariant liveSent + EmitAll(live[i..], c.assistant).0 == EmitAll(live, snapshots).0
    {
      assert live[i..][1..] == live[i + 1..];
      ghost var (now, _) := Emit(live[i], c.assistant);
      c.OnEvent(live[i]);
      StampedConcat(liveSent, now, base, lastEventId);
      liveSent := liveSent + now;
    }
    assert live[|live|..] == [] && liveSent + [] == liveSent;
    StampedConsecutive(liveSent, base, lastEventId);
    StampedEvents(liveSent, base, lastEventId);
    EventsOfConcat(first, Stamped(liveSent, base, lastEventId));
    written := c.written;
    EventsOfLength(written);
  }

  // ----- what a fresh connection shows

  // Primary keys: no two stored messages share an id.
  predicate DistinctIds(messages: seq<Message>) {
    forall i, j :: 0 <= i < j < |messages| ==> messages[i].id != messages[j].id
  }

  function ResultsAll(events: seq<StreamEvent>, results: set<string>): set<string>
    decreases |events|
  {
    if events == [] then results else ResultsAll(events[1..], ResultsAfter(events[0], results))
  }

  lemma {:induction false} ReplayFits(messages: seq<Message>, contents: Texts, results: set<string>)
    requires DistinctIds(messages)
    requires forall i :: 0 <= i < |messages| ==> Get(contents, messages[i].id) == ""
    ensures AllFit(Replayed(messages), contents, results)
  {
    if messages != [] {
      var e := AsStarted(messages[0]);
      assert Replayed(messages)[1..] == Replayed(messages[1..]);
      forall i | 0 <= i < |messages[1..]|
        ensures Get(Latest(e, contents), messages[1..][i].id) == ""
      {
        assert messages[1..][i] == messages[i + 1];
      }
      ReplayFits(messages[1..], Latest(e, contents), ResultsAfter(e, results));
    }
  }

  lemma {:induction false} RunInStep(events: seq<StreamEvent>, client: Texts, snapshots: Texts, contents: Texts,
                                     results: set<string>)
    requires InStep(client, snapshots, contents, results) && AllFit(events, contents, results)
    ensures InStep(Read(client, EmitAll(events, snapshots).0), EmitAll(events, snapshots).1,
                   LatestAll(events, contents), ResultsAll(events, results))
    decreases |events|
  {
    if events != [] {
      hide Emit, Latest, Fits, ResultsAfter, InStep;
      StepKeepsInStep(events[0], client, snapshots, contents, results);
      var (first, after) := Emit(events[0], snapshots);
      ReadConcat(client, first, EmitAll(events[1..], after).0);
      RunInStep(events[1..], Read(client, first), after, Latest(events[0], contents), ResultsAfter(events[0], results));
    }
  }
}
