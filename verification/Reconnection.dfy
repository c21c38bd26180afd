/** Two connections to the event stream, one after the other: a client that has followed the first
    to its end reconnects with the last id it was given. Ids count all events of a connection, live
    ones included, while the next connection numbers its own events from the start again. */
module Reconnection {
  import opened Options
  import opened EventStream
  import opened Subscription

  // What a connection finds stored, the events without text after it, and what happens then.
  datatype Visit = Visit(messages: seq<Message>, closing: seq<AgentEvent>, live: seq<StreamEvent>)

  function Stored(v: Visit): Texts {
    LatestAll(Replayed(v.messages), map[])
  }

  // The contents when it ends.
  function Contents(v: Visit): Texts {
    LatestAll(v.live, Stored(v))
  }

  function SentFirst(v: Visit): seq<AgentEvent> {
    [Passive] + EmitAll(Replayed(v.messages), map[]).0 + v.closing
  }

  function SentLive(v: Visit): seq<AgentEvent> {
    EmitAll(v.live, EmitAll(Replayed(v.messages), map[]).1).0
  }

  // The id of the last event of a fresh connection.
  function LastId(v: Visit): nat {
    |SentFirst(v)| + |SentLive(v)|
  }

  // Nothing is lost or misread on the connection itself.
  predicate Smooth(v: Visit) {
    && DistinctIds(v.messages) && Silent(v.closing)
    && AllFit(v.live, Stored(v), ResultsAll(Replayed(v.messages), {}))
  }

  // What the client has read on a fresh connection.
  function ReadOn(v: Visit): Texts {
    Read(map[], SentFirst(v) + SentLive(v))
  }

  // ... and after reconnecting with the last id of the first connection.
  function ReadAgain(first: Visit, second: Visit): Texts {
    var n := Skipped(SentFirst(second), 0, LastId(first));
    Read(ReadOn(first), SentFirst(second)[n..] + SentLive(second))
  }

  predicate IsDelta(e: AgentEvent, id: string) {
    e.AssistantDelta? && e.id == id
  }

  predicate DeltaIn(events: seq<AgentEvent>, id: string) {
    exists k :: 0 <= k < |events| && IsDelta(events[k], id)
  }

  // The replay has a delta for the id, and the client is spared it.
  predicate Spared(first: Visit, second: Visit, id: string) {
    DeltaIn(SentFirst(second)[..Skipped(SentFirst(second), 0, LastId(first))], id)
  }

  // ----- a replay has one delta per message

  predicate OneDelta(events: seq<AgentEvent>, id: string) {
    forall i, j :: 0 <= i < j < |events| ==> !(IsDelta(events[i], id) && IsDelta(events[j], id))
  }

  lemma DeltaInConcat(a: seq<AgentEvent>, b: seq<AgentEvent>, id: string)
    ensures DeltaIn(a + b, id) <==> DeltaIn(a, id) || DeltaIn(b, id)
  {
    hide IsDelta;
    var both := a + b;
    assert forall k :: 0 <= k < |a| ==> both[k] == a[k];
    assert forall k :: 0 <= k < |b| ==> both[|a| + k] == b[k];
    if DeltaIn(both, id) && !DeltaIn(a, id) {
      var k :| 0 <= k < |both| && IsDelta(both[k], id);
      assert both[k] == b[k - |a|];
    }
  }

  lemma OneDeltaConcat(a: seq<AgentEvent>, b: seq<AgentEvent>, id: string)
    requires OneDelta(a, id) && OneDelta(b, id) && !(DeltaIn(a, id) && DeltaIn(b, id))
    ensures OneDelta(a + b, id)
  {
    hide IsDelta;
    var both := a + b;
    assert forall k :: 0 <= k < |a| ==> both[k] == a[k];
    assert forall k :: |a| <= k < |both| ==> both[k] == b[k - |a|];
  }

  lemma SilentHasNone(events: seq<AgentEvent>, id: string)
    requires Silent(events)
    ensures !DeltaIn(events, id) && OneDelta(events, id)
  {
  }

  lemma MessageDeltas(message: Message, id: string)
    ensures OneDelta(MessageToAgentEvents(message), id)
    ensures DeltaIn(MessageToAgentEvents(message), id) ==> id == message.id
  {
  }

  predicate HasId(messages: seq<Message>, id: string) {
    exists i :: 0 <= i < |messages| && messages[i].id == id
  }

  lemma {:induction false} ReplayDeltas(messages: seq<Message>, snapshots: Texts, id: string)
    requires DistinctIds(messages)
    ensures OneDelta(EmitAll(Replayed(messages), snapshots).0, id)
    ensures DeltaIn(EmitAll(Replayed(messages), snapshots).0, id) ==> HasId(messages, id)
  {
    hide MessageToAgentEvents, DeltaIn, OneDelta, Emit;
    if messages == [] {
      SilentHasNone([], id);
    } else {
      var (message, rest) := (messages[0], messages[1..]);
      assert messages == [message] + rest;
      var after := if message.role.Assistant? then snapshots[message.id := message.content] else snapshots;
      ReplayOne(message, rest, snapshots);
      ReplayDeltas(rest, after, id);
      MessageDeltas(message, id);
      var more := EmitAll(Replayed(rest), after).0;
      if DeltaIn(more, id) {
        var i :| 0 <= i < |rest| && rest[i].id == id;
        assert messages[i + 1].id == id && messages[0].id != id;
      }
      DeltaInConcat(MessageToAgentEvents(message), more, id);
      OneDeltaConcat(MessageToAgentEvents(message), more, id);
    }
  }

  lemma SentDeltas(v: Visit, id: string)
    requires Smooth(v)
    ensures OneDelta(SentFirst(v), id)
  {
    hide DeltaIn, OneDelta, Emit, EmitAll, Silent;
    var replayed := EmitAll(Replayed(v.messages), map[]).0;
    ReplayDeltas(v.messages, map[], id);
    SilentHasNone(v.closing, id);
    GreetingIsSilent();
    SilentHasNone([Passive], id);
    OneDeltaConcat([Passive], replayed, id);
    OneDeltaConcat([Passive] + replayed, v.closing, id);
  }

  lemma GreetingIsSilent()
    ensures Silent([Passive])
  {
  }

  lemma {:induction false} NoDeltaNoText(events: seq<AgentEvent>, id: string)
    requires !DeltaIn(events, id)
    ensures Text(events, id) == ""
  {
    if events != [] {
      var (init, last) := (events[..|events| - 1], events[|events| - 1]);
      assert events == init + [last];
      DeltaInConcat(init, [last], id);
      assert [last][0] == last;
      NoDeltaNoText(init, id);
    }
  }

  // The beginning of such a list has all of an id's text, or none.
  lemma PrefixText(events: seq<AgentEvent>, n: nat, id: string)
    requires n <= |events| && OneDelta(events, id)
    ensures Text(events[..n], id) == if DeltaIn(events[..n], id) then Text(events, id) else ""
  {
    hide Text, IsDelta;
    var (before, after) := (events[..n], events[n..]);
    assert events == before + after;
    TextConcat(before, after, id);
    if DeltaIn(before, id) {
      var i :| 0 <= i < |before| && IsDelta(before[i], id);
      forall k | 0 <= k < |after|
        ensures !IsDelta(after[k], id)
      {
        assert after[k] == events[n + k] && before[i] == events[i];
      }
      NoDeltaNoText(after, id);
      assert Text(before, id) + "" == Text(before, id);
    } else {
      NoDeltaNoText(before, id);
    }
  }

  // A replay spells out what is stored.
  lemma SentText(v: Visit, id: string)
    requires Smooth(v)
    ensures Text(SentFirst(v), id) == Get(Stored(v), id)
  {
    hide Emit, EmitAll, Text, LatestAll, ResultsAll, AllFit, Read, Get, Silent;
    var (replayed, snapshots) := EmitAll(Replayed(v.messages), map[]);
    ReplayTold(v.messages, v.closing, v.live);
    ReadText(map[], replayed, id);
    NoText(id);
    GreetingIsSilent();
    SilentText([Passive], id);
    SilentText(v.closing, id);
    TextConcat([Passive] + replayed, v.closing, id);
    TextConcat([Passive], replayed, id);
    assert "" + Text(replayed, id) == Text(replayed, id) && Text(replayed, id) + "" == Text(replayed, id);
  }

  lemma SilentText(events: seq<AgentEvent>, id: string)
    requires Silent(events)
    ensures Text(events, id) == ""
  {
    hide Text, Silent;
    SilentHasNone(events, id);
    NoDeltaNoText(events, id);
  }

  // ----- the two connections together

  lemma FirstIsFaithful(v: Visit, id: string)
    requires Smooth(v)
    ensures Get(ReadOn(v), id) == Get(Contents(v), id)
  {
    hide Emit, EmitAll, Read, LatestAll, ResultsAll, AllFit, Get, ReportedIn, Silent;
    NothingMissed(Stored(v), ResultsAll(Replayed(v.messages), {}));
    FreshConnectionRebuilds(v.messages, [], v.closing, v.live);
    assert ReadOn(v) == Told(v.messages, v.closing, v.live);
  }

  // The reconnected client ends with every latest content exactly if no content it is spared has
  // changed while it was away, and it has no text of what it is not spared.
  lemma RejoinedExactly(first: Visit, second: Visit)
    requires Smooth(first) && Smooth(second)
    ensures (forall id: string :: Get(ReadAgain(first, second), id) == Get(Contents(second), id)) <==>
            (forall id: string :: Get(Contents(first), id) ==
                                  if Spared(first, second, id) then Get(Stored(second), id) else "")
  {
    hide Emit, EmitAll, Read, LatestAll, ResultsAll, AllFit, Get, Silent, Skipped, DeltaIn, Text, OneDelta;
    var sent := SentFirst(second);
    var n := Skipped(sent, 0, LastId(first));
    ReconnectedRebuilds(ReadOn(first), LastId(first), second.messages, second.closing, second.live);
    forall id: string
      ensures Get(ReadOn(first), id) == Get(Contents(first), id)
      ensures Get(Read(map[], sent[..n]), id) == if Spared(first, second, id) then Get(Stored(second), id) else ""
    {
      FirstIsFaithful(first, id);
      SentDeltas(second, id);
      PrefixText(sent, n, id);
      SentText(second, id);
      ReadText(map[], sent[..n], id);
      NoText(id);
      assert "" + Text(sent[..n], id) == Text(sent[..n], id);
    }
    var snapshots := EmitAll(Replayed(second.messages), map[]).1;
    assert ReadAgain(first, second) == Read(ReadOn(first), sent[n..] + EmitAll(second.live, snapshots).0);
    assert Contents(second) == LatestAll(second.live, LatestAll(Replayed(second.messages), map[]));
    assert (forall id: string :: Get(ReadAgain(first, second), id) == Get(Contents(second), id)) <==>
           (forall id: string :: Get(ReadOn(first), id) == Get(Read(map[], sent[..n]), id));
  }

  // In particular, with an id past the whole replay: exactly if nothing changed while it was away.
  lemma RejoinedPastReplay(first: Visit, second: Visit)
    requires Smooth(first) && Smooth(second) && LastId(first) >= |SentFirst(second)|
    ensures (forall id: string :: Get(ReadAgain(first, second), id) == Get(Contents(second), id)) <==>
            (forall id: string :: Get(Contents(first), id) == Get(Stored(second), id))
  {
    hide Emit, EmitAll, Read, LatestAll, ResultsAll, AllFit, Get, Silent, DeltaIn, Text, ReadAgain;
    RejoinedExactly(first, second);
    var sent := SentFirst(second);
    assert sent[..|sent|] == sent;
    forall id: string
      ensures !Spared(first, second, id) ==> Get(Stored(second), id) == ""
    {
      SentText(second, id);
      if !DeltaIn(sent, id) {
        NoDeltaNoText(sent, id);
      }
    }
  }

  const ONE := Message("m", Assistant, TextKind, "a", true, 0)
  const TWO := Message("n", Assistant, TextKind, "b", true, 0)

  // A message completed while the client is away moves the others up: the next one's text, which
  // the client has, is written to it again.
  lemma CompletionDoublesText()
    ensures var (first, second) := (Visit([ONE, TWO], [], []), Visit([ONE.(streaming := false), TWO], [], []));
            && Smooth(first) && Smooth(second)
            && Get(Contents(second), "n") == "b" && Get(ReadAgain(first, second), "n") == "bb"
  {
    var (first, second) := (Visit([ONE, TWO], [], []), Visit([ONE.(streaming := false), TWO], [], []));
    TwoMessages(ONE, TWO);
    TwoMessages(ONE.(streaming := false), TWO);
    assert SentFirst(first) == [Passive, AssistantDelta("m", "a"), AssistantDelta("n", "b")];
    assert SentFirst(second) == [Passive, AssistantDelta("m", "a"), AssistantCompleted("m"), AssistantDelta("n", "b")];
    FirstIsFaithful(first, "n");
    var told := [AssistantDelta("n", "b")];
    assert SentFirst(second)[3..] + SentLive(second) == told;
    ReadText(ReadOn(first), told, "n");
    assert told[..0] == [] && Text(told, "n") == "b";
  }

  lemma TwoMessages(m: Message, n: Message)
    requires m.role.Assistant? && n.role.Assistant? && m.id != n.id
    ensures Smooth(Visit([m, n], [], []))
    ensures EmitAll(Replayed([m, n]), map[]).0 == MessageToAgentEvents(m) + MessageToAgentEvents(n)
    ensures Get(Contents(Visit([m, n], [], [])), n.id) == n.content
  {
    hide MessageToAgentEvents;
    assert [m] + [n] == [m, n] && [n] + [] == [n];
    ReplayOne(m, [n], map[]);
    ReplayOne(n, [], map[m.id := m.content]);
    assert MessageToAgentEvents(n) + [] == MessageToAgentEvents(n);
    assert [m, n][1..] == [n] && [n][1..] == [];
    TwoStored(m, n);
  }

  lemma TwoStored(m: Message, n: Message)
    requires m.role.Assistant? && n.role.Assistant? && m.id != n.id
    ensures Get(LatestAll(Replayed([m, n]), map[]), n.id) == n.content
  {
    var (first, second) := (AsStarted(m), AsStarted(n));
    assert [m, n][1..] == [n] && [n][1..] == [];
    assert Replayed([n]) == [second] + Replayed([]);
    assert Replayed([m, n]) == [first] + Replayed([n]) == [first, second];
    assert [first, second][1..] == [second] && [second][1..] == [];
    assert LatestAll([second], Latest(first, map[])) == Latest(second, Latest(first, map[]));
  }
}
