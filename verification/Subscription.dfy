/** What a client of the event stream ends up with when its connection is not seamless.

    The route of apps/host/src/routes/agent-session-event-routes.ts reads the stored messages,
    then awaits the session's git information, and subscribes only afterwards: what happens to
    the session in between is neither replayed nor delivered. And a client that reconnects with
    the id of the last event it has is spared as many events, whatever they are now. */
module Subscription {
  import opened Options
  import opened EventStream

  // ----- events between reading the messages and subscribing

  // The client has the message's latest content.
  ghost predicate Current(client: Texts, snapshots: Texts, contents: Texts, results: set<string>, id: string) {
    && Get(client, id) == Get(contents, id)
    && (if id in results then Get(snapshots, id) == "" && Get(contents, id) != ""
       else Get(snapshots, id) == Get(contents, id))
  }

  // The client and the snapshots agree on an earlier, shorter content.
  predicate Behind(client: Texts, snapshots: Texts, contents: Texts, id: string) {
    Get(client, id) == Get(snapshots, id) < Get(contents, id)
  }

  ghost predicate Lagging(client: Texts, snapshots: Texts, contents: Texts, results: set<string>) {
    forall id: string :: Current(client, snapshots, contents, results, id) || Behind(client, snapshots, contents, id)
  }

  predicate ReportedBy(e: StreamEvent, id: string) {
    Reported(e).Some? && Reported(e).value.0 == id
  }

  // Some event of the list reports the id's content.
  predicate ReportedIn(events: seq<StreamEvent>, id: string) {
    exists k :: 0 <= k < |events| && ReportedBy(events[k], id)
  }

  lemma ReportedInMore(events: seq<StreamEvent>, id: string)
    requires events != []
    ensures ReportedIn(events, id) <==> ReportedBy(events[0], id) || ReportedIn(events[1..], id)
  {
    hide ReportedBy;
    var rest := events[1..];
    assert forall k :: 0 <= k < |rest| ==> rest[k] == events[k + 1];
    if ReportedIn(events, id) && !ReportedBy(events[0], id) {
      var k :| 0 <= k < |events| && ReportedBy(events[k], id);
      assert rest[k - 1] == events[k];
    }
  }

  // One id through one event the client does not get.
  lemma MissedId(e: StreamEvent, client: Texts, snapshots: Texts, contents: Texts, results: set<string>, id: string)
    requires Fits(e, contents, results)
    requires Current(client, snapshots, contents, results, id) || Behind(client, snapshots, contents, id)
    ensures var (after, shown) := (Latest(e, contents), ResultsAfter(e, results));
            Current(client, snapshots, after, shown, id) || Behind(client, snapshots, after, id)
  {
    if ReportedBy(e, id) {
      var next := Reported(e).value.1;
      assert Get(Latest(e, contents), id) == next;
      assert e.Snapshot? ==> Get(contents, id) <= next;
    } else {
      Unreported(e, contents, results, id);
    }
  }

  lemma Unreported(e: StreamEvent, contents: Texts, results: set<string>, id: string)
    requires !ReportedBy(e, id)
    ensures Get(Latest(e, contents), id) == Get(contents, id)
    ensures id in ResultsAfter(e, results) <==> id in results
  {
  }

  // One id through one event the client does get: it has caught up if the event reports it.
  lemma LiveId(e: StreamEvent, client: Texts, snapshots: Texts, contents: Texts, results: set<string>, id: string)
    requires Fits(e, contents, results)
    requires Current(client, snapshots, contents, results, id) || Behind(client, snapshots, contents, id)
    ensures var (told, kept) := (Read(client, Emit(e, snapshots).0), Emit(e, snapshots).1);
            var (after, shown) := (Latest(e, contents), ResultsAfter(e, results));
            && (Current(told, kept, after, shown, id) || Behind(told, kept, after, id))
            && (Behind(told, kept, after, id) <==> Behind(client, snapshots, contents, id) && !ReportedBy(e, id))
  {
    hide Emit, Read, Fits;
    EmitAdds(e, snapshots, client);
    EmitSnapshots(e, snapshots);
    if ReportedBy(e, id) {
      ReportedId(e, client, snapshots, contents, results);
    } else {
      Unreported(e, contents, results, id);
      assert Get(Emit(e, snapshots).1, id) == Get(snapshots, id);
    }
  }

  lemma ReportedId(e: StreamEvent, client: Texts, snapshots: Texts, contents: Texts, results: set<string>)
    requires Reported(e).Some? && Fits(e, contents, results)
    requires var id := Reported(e).value.0;
             Current(client, snapshots, contents, results, id) || Behind(client, snapshots, contents, id)
    ensures var (id, next) := Reported(e).value;
            && Get(client, id) + Added(e, snapshots) == next && Get(Latest(e, contents), id) == next
            && (if e.Snapshot? || e.message.value.role.Assistant? then id !in ResultsAfter(e, results)
                else Get(snapshots, id) == "" && (id in ResultsAfter(e, results) <==> next != ""))
  {
    var (id, next) := Reported(e).value;
    if e.Started? {
      assert "" + next == next;
    } else {
      assert Get(snapshots, id) <= next;
      assert Get(snapshots, id) + next[|Get(snapshots, id)|..] == next;
    }
  }

  lemma {:induction false} MissedAll(events: seq<StreamEvent>, client: Texts, snapshots: Texts, contents: Texts,
                                     results: set<string>)
    requires AllFit(events, contents, results) && Lagging(client, snapshots, contents, results)
    ensures Lagging(client, snapshots, LatestAll(events, contents), ResultsAll(events, results))
    decreases |events|
  {
    hide Fits, Latest, ResultsAfter, Current, Behind;
    if events != [] {
      var e := events[0];
      forall id: string
        ensures Current(client, snapshots, Latest(e, contents), ResultsAfter(e, results), id)
                || Behind(client, snapshots, Latest(e, contents), id)
      {
        MissedId(e, client, snapshots, contents, results, id);
      }
      MissedAll(events[1..], client, snapshots, Latest(e, contents), ResultsAfter(e, results));
    }
  }

  // Over any list of events the client gets: an id that was behind stays so exactly if none of
  // them reports it.
  lemma {:induction false} LiveAll(events: seq<StreamEvent>, client: Texts, snapshots: Texts, contents: Texts,
                                   results: set<string>, id: string)
    requires AllFit(events, contents, results)
    requires Current(client, snapshots, contents, results, id) || Behind(client, snapshots, contents, id)
    ensures var (told, latest) := (Read(client, EmitAll(events, snapshots).0), LatestAll(events, contents));
            Get(told, id) != Get(latest, id) <==> Behind(client, snapshots, contents, id) && !ReportedIn(events, id)
    decreases |events|
  {
    hide Fits, Latest, ResultsAfter, Emit, ReportedIn, ReportedBy;
    if events == [] {
      NothingReported(id);
    } else {
      hide Current, Behind;
      var e := events[0];
      var (first, kept) := Emit(e, snapshots);
      ReportedInMore(events, id);
      LiveId(e, client, snapshots, contents, results, id);
      ReadConcat(client, first, EmitAll(events[1..], kept).0);
      LiveAll(events[1..], Read(client, first), kept, Latest(e, contents), ResultsAfter(e, results), id);
    }
  }

  lemma NothingReported(id: string)
    ensures !ReportedIn([], id)
  {
  }

  lemma InStepIsCurrent(client: Texts, snapshots: Texts, contents: Texts, results: set<string>)
    requires InStep(client, snapshots, contents, results)
    ensures Lagging(client, snapshots, contents, results)
  {
    hide Behind;
  }

  // What a client has been told on a fresh connection.
  function Told(messages: seq<Message>, closing: seq<AgentEvent>, live: seq<StreamEvent>): Texts {
    var (replayed, snapshots) := EmitAll(Replayed(messages), map[]);
    Read(map[], [Passive] + replayed + closing + EmitAll(live, snapshots).0)
  }

  lemma ReplayTold(messages: seq<Message>, closing: seq<AgentEvent>, live: seq<StreamEvent>)
    requires DistinctIds(messages) && Silent(closing)
    ensures var (replayed, snapshots) := EmitAll(Replayed(messages), map[]);
            && InStep(Read(map[], replayed), snapshots, LatestAll(Replayed(messages), map[]),
                      ResultsAll(Replayed(messages), {}))
            && Told(messages, closing, live) == Read(Read(map[], replayed), EmitAll(live, snapshots).0)
  {
    hide Emit;
    var (replayed, snapshots) := EmitAll(Replayed(messages), map[]);
    ReplayFits(messages, map[], {});
    RunInStep(Replayed(messages), map[], map[], map[], {});
    hide AllFit, InStep, LatestAll, ResultsAll;
    var liveSent := EmitAll(live, snapshots).0;
    ReadConcat(map[], [Passive] + replayed + closing, liveSent);
    ReadConcat(map[], [Passive] + replayed, closing);
    ReadConcat(map[], [Passive], replayed);
    ReadSilent(map[], [Passive]);
    ReadSilent(Read(map[], replayed), closing);
  }

  // A fresh connection over stored messages, with `missed` happening before it is subscribed:
  // the client ends with every message's latest content exactly if every message whose content
  // changed in between is reported again afterwards.
  lemma FreshConnectionRebuilds(messages: seq<Message>, missed: seq<StreamEvent>, closing: seq<AgentEvent>,
                                live: seq<StreamEvent>)
    requires DistinctIds(messages) && Silent(closing)
    requires var (stored, results) := (LatestAll(Replayed(messages), map[]), ResultsAll(Replayed(messages), {}));
             AllFit(missed, stored, results) && AllFit(live, LatestAll(missed, stored), ResultsAll(missed, results))
    ensures var stored := LatestAll(Replayed(messages), map[]);
            var changed := LatestAll(missed, stored);
            (forall id: string :: Get(Told(messages, closing, live), id) == Get(LatestAll(live, changed), id))
            <==> (forall id: string :: Get(stored, id) != Get(changed, id) ==> ReportedIn(live, id))
  {
    hide Emit, InStep, AllFit, Read, EmitAll, LatestAll, ResultsAll, ReportedIn, Told, Current, Lagging;
    var (replayed, snapshots) := EmitAll(Replayed(messages), map[]);
    var (stored, results) := (LatestAll(Replayed(messages), map[]), ResultsAll(Replayed(messages), {}));
    var changed := LatestAll(missed, stored);
    ReplayTold(messages, closing, live);
    InStepIsCurrent(Read(map[], replayed), snapshots, stored, results);
    MissedAll(missed, Read(map[], replayed), snapshots, stored, results);
    forall id: string
      ensures Get(Told(messages, closing, live), id) != Get(LatestAll(live, changed), id) <==>
              Get(stored, id) != Get(changed, id) && !ReportedIn(live, id)
    {
      LaggingId(Read(map[], replayed), snapshots, stored, changed, results, ResultsAll(missed, results), id);
      LiveAll(live, Read(map[], replayed), snapshots, changed, ResultsAll(missed, results), id);
    }
  }

  lemma LaggingId(client: Texts, snapshots: Texts, stored: Texts, changed: Texts, results: set<string>,
                  shown: set<string>, id: string)
    requires InStep(client, snapshots, stored, results) && Lagging(client, snapshots, changed, shown)
    ensures Current(client, snapshots, changed, shown, id) || Behind(client, snapshots, changed, id)
    ensures Behind(client, snapshots, changed, id) <==> Get(stored, id) != Get(changed, id)
  {
    assert Get(client, id) == Get(stored, id);
    assert Current(client, snapshots, changed, shown, id) || Behind(client, snapshots, changed, id);
  }

  // ----- messages beyond the limit

  // One of the messages is shown with a text under this id.
  predicate HasText(messages: seq<Message>, id: string) {
    exists i :: 0 <= i < |messages| && messages[i].id == id && TextOf(messages[i]) && messages[i].content != ""
  }

  lemma {:induction false} ReplayContents(messages: seq<Message>, contents: Texts, id: string)
    requires DistinctIds(messages)
    requires forall i :: 0 <= i < |messages| ==> Get(contents, messages[i].id) == ""
    ensures Get(LatestAll(Replayed(messages), contents), id) != Get(contents, id) <==> HasText(messages, id)
    ensures HasText(messages, id) ==> Get(contents, id) == ""
    decreases |messages|
  {
    if messages != [] {
      var (message, rest) := (messages[0], messages[1..]);
      var after := Latest(AsStarted(message), contents);
      assert Replayed(messages)[1..] == Replayed(rest);
      hide LatestAll, Replayed;
      assert forall i :: 0 <= i < |rest| ==> rest[i] == messages[i + 1] && rest[i].id != message.id;
      ReplayContents(rest, after, id);
      HasTextMore(messages, id);
      LatestOf(message, contents, id);
    }
  }

  lemma HasTextMore(messages: seq<Message>, id: string)
    requires messages != []
    ensures HasText(messages, id) <==>
            (messages[0].id == id && TextOf(messages[0]) && messages[0].content != "") || HasText(messages[1..], id)
  {
    hide TextOf;
    var rest := messages[1..];
    assert forall i :: 0 <= i < |rest| ==> rest[i] == messages[i + 1];
    if i :| 0 < i < |messages| && messages[i].id == id && TextOf(messages[i]) && messages[i].content != "" {
      assert rest[i - 1] == messages[i];
    }
  }

  lemma LatestOf(message: Message, contents: Texts, id: string)
    ensures Get(Latest(AsStarted(message), contents), id) ==
            if message.id == id && TextOf(message) then message.content else Get(contents, id)
  {
  }

  // The route reads the newest messages only. With older ones beyond its limit the client ends
  // with every message's latest content exactly if every older one with text is reported again.
  lemma BeyondLimit(older: seq<Message>, newest: seq<Message>, closing: seq<AgentEvent>, live: seq<StreamEvent>)
    requires DistinctIds(older + newest) && Silent(closing)
    requires var (stored, results) := (LatestAll(Replayed(newest), map[]), ResultsAll(Replayed(newest), {}));
             AllFit(live, LatestAll(Replayed(older), stored), ResultsAll(Replayed(older), results))
    ensures var all := LatestAll(Replayed(older), LatestAll(Replayed(newest), map[]));
            (forall id: string :: Get(Told(newest, closing, live), id) == Get(LatestAll(live, all), id))
            <==> (forall id: string :: HasText(older, id) ==> ReportedIn(live, id))
  {
    hide AllFit, LatestAll, ResultsAll, Get, Told, ReportedIn, HasText, Replayed, Silent;
    var (stored, results) := (LatestAll(Replayed(newest), map[]), ResultsAll(Replayed(newest), {}));
    ApartIds(older, newest);
    forall i | 0 <= i < |older|
      ensures Get(stored, older[i].id) == ""
    {
      NotAmong(newest, older[i].id);
    }
    ReplayFits(older, stored, results);
    FreshConnectionRebuilds(newest, Replayed(older), closing, live);
    forall id: string
      ensures Get(stored, id) != Get(LatestAll(Replayed(older), stored), id) <==> HasText(older, id)
    {
      ReplayContents(older, stored, id);
    }
  }

  lemma ApartIds(older: seq<Message>, newest: seq<Message>)
    requires DistinctIds(older + newest)
    ensures DistinctIds(older) && DistinctIds(newest)
    ensures forall i, j :: 0 <= i < |older| && 0 <= j < |newest| ==> older[i].id != newest[j].id
  {
    var all := older + newest;
    assert forall i :: 0 <= i < |older| ==> all[i] == older[i];
    assert forall j :: 0 <= j < |newest| ==> all[|older| + j] == newest[j];
  }

  lemma NotAmong(messages: seq<Message>, id: string)
    requires DistinctIds(messages) && forall i :: 0 <= i < |messages| ==> messages[i].id != id
    ensures Get(LatestAll(Replayed(messages), map[]), id) == ""
  {
    hide LatestAll, Replayed;
    NoText(id);
    assert forall i :: 0 <= i < |messages| ==> Get(map[], messages[i].id) == "";
    ReplayContents(messages, map[], id);
  }

  const ANSWER := Message("m", Assistant, TextKind, "ab", true, 0)
  const COMPLETED := Snapshot(true, Some(ANSWER.(content := "abc", streaming := false)), None, "m", "", false)

  // An answer that is completed while the git information is awaited is shown incomplete.
  lemma WindowLosesText()
    ensures var stored := LatestAll(Replayed([ANSWER]), map[]);
            && AllFit([COMPLETED], stored, ResultsAll(Replayed([ANSWER]), {}))
            && Get(Told([ANSWER], [], []), "m") == "ab" && Get(LatestAll([COMPLETED], stored), "m") == "abc"
  {
    var started := AsStarted(ANSWER);
    assert Replayed([ANSWER]) == [started] by { assert [ANSWER][1..] == []; }
    OneEvent(started, map[], {});
    var stored := Latest(started, map[]);
    assert stored == map["m" := "ab"];
    OneEvent(COMPLETED, stored, {});
    assert Fits(COMPLETED, stored, {}) by { assert "ab" <= "abc"; }
    ReplayTold([ANSWER], [], []);
    assert Emit(started, map[]).0 == [AssistantDelta("m", "ab")];
    OneTold("m", "ab");
  }

  lemma OneEvent(e: StreamEvent, contents: Texts, results: set<string>)
    ensures LatestAll([e], contents) == Latest(e, contents) && ResultsAll([e], results) == ResultsAfter(e, results)
    ensures AllFit([e], contents, results) <==> Fits(e, contents, results)
    ensures EmitAll([e], contents) == Emit(e, contents)
  {
    hide Latest, ResultsAfter, Fits, Emit;
    assert [e][1..] == [];
    var (first, after) := Emit(e, contents);
    assert first + [] == first;
  }

  lemma OneTold(id: string, delta: string)
    ensures Read(map[], [AssistantDelta(id, delta)]) == map[id := delta]
  {
    assert "" + delta == delta;
    assert [AssistantDelta(id, delta)][1..] == [];
  }

  // ----- reconnecting

  // The text that a list of events adds for an id.
  function Text(events: seq<AgentEvent>, id: string): string {
    if events == [] then "" else Text(events[..|events| - 1], id) + TextIn(events[|events| - 1], id)
  }

  function TextIn(e: AgentEvent, id: string): string {
    if e.AssistantDelta? && e.id == id then e.delta else ""
  }

  lemma {:induction false} TextConcat(a: seq<AgentEvent>, b: seq<AgentEvent>, id: string)
    ensures Text(a + b, id) == Text(a, id) + Text(b, id)
  {
    hide TextIn;
    if b == [] {
      assert a + b == a && Text(a, id) + "" == Text(a, id);
    } else {
      TextConcat(a, b[..|b| - 1], id);
      assert (a + b)[..|a + b| - 1] == a + b[..|b| - 1];
    }
  }

  lemma {:induction false} ReadText(client: Texts, events: seq<AgentEvent>, id: string)
    ensures Get(Read(client, events), id) == Get(client, id) + Text(events, id)
  {
    hide Get;
    if events == [] {
      assert Get(client, id) + "" == Get(client, id);
    } else {
      var (init, last) := (events[..|events| - 1], events[|events| - 1]);
      assert events == init + [last];
      ReadText(client, init, id);
      ReadConcat(client, init, [last]);
      ReadLast(Read(client, init), last, id);
    }
  }

  lemma ReadLast(client: Texts, e: AgentEvent, id: string)
    ensures Get(Read(client, [e]), id) == Get(client, id) + TextIn(e, id)
  {
    assert [e][1..] == [];
    assert Get(client, id) + "" == Get(client, id);
  }

  // A client that reconnects with lastEventId and the texts it has ends with the text of an id
  // that a fresh connection would give exactly if it has the text of the events it is spared.
  lemma ReconnectedAsFresh(client: Texts, sent: seq<AgentEvent>, live: seq<AgentEvent>, lastEventId: int, id: string)
    ensures var n := Skipped(sent, 0, lastEventId);
            Get(Read(client, sent[n..] + live), id) == Get(Read(map[], sent + live), id) <==>
            Get(client, id) == Get(Read(map[], sent[..n]), id)
  {
    hide Get, Read, Skipped, Text;
    var n := Skipped(sent, 0, lastEventId);
    assert sent + live == sent[..n] + (sent[n..] + live);
    TextConcat(sent[..n], sent[n..] + live, id);
    ReadText(client, sent[n..] + live, id);
    ReadText(map[], sent + live, id);
    ReadText(map[], sent[..n], id);
    NoText(id);
    SameEnd(Get(client, id), Text(sent[..n], id), Text(sent[n..] + live, id));
    assert "" + Text(sent[..n], id) == Text(sent[..n], id) && "" + Text(sent + live, id) == Text(sent + live, id);
  }

  lemma NoText(id: string)
    ensures Get(map[], id) == ""
  {
  }

  lemma SameEnd(a: string, b: string, end: string)
    ensures a + end == b + end <==> a == b
  {
    if a + end == b + end {
      assert |a| == |b|;
      assert a == (a + end)[..|a|] == (b + end)[..|b|] == b;
    }
  }

  // If nothing happens between reading and subscribing, the reconnected client therefore has
  // every latest content exactly if it has the text of the replayed events it is spared.
  lemma ReconnectedRebuilds(client: Texts, lastEventId: int, messages: seq<Message>, closing: seq<AgentEvent>,
                            live: seq<StreamEvent>)
    requires DistinctIds(messages) && Silent(closing)
    requires AllFit(live, LatestAll(Replayed(messages), map[]), ResultsAll(Replayed(messages), {}))
    ensures var (replayed, snapshots) := EmitAll(Replayed(messages), map[]);
            var sent := [Passive] + replayed + closing;
            var n := Skipped(sent, 0, lastEventId);
            var told := Read(client, sent[n..] + EmitAll(live, snapshots).0);
            (forall id: string :: Get(told, id) == Get(LatestAll(live, LatestAll(Replayed(messages), map[])), id))
            <==> (forall id: string :: Get(client, id) == Get(Read(map[], sent[..n]), id))
  {
    hide Emit, Read, EmitAll, LatestAll, ResultsAll, AllFit, Skipped, Get, ReportedIn;
    var stored := LatestAll(Replayed(messages), map[]);
    var (replayed, snapshots) := EmitAll(Replayed(messages), map[]);
    var (sent, liveSent) := ([Passive] + replayed + closing, EmitAll(live, snapshots).0);
    var n := Skipped(sent, 0, lastEventId);
    NothingMissed(stored, ResultsAll(Replayed(messages), {}));
    FreshConnectionRebuilds(messages, [], closing, live);
    assert forall id: string :: Get(Read(map[], sent + liveSent), id) == Get(LatestAll(live, stored), id);
    forall id: string
      ensures Get(Read(client, sent[n..] + liveSent), id) == Get(LatestAll(live, stored), id) <==>
              Get(client, id) == Get(Read(map[], sent[..n]), id)
    {
      ReconnectedAsFresh(client, sent, liveSent, lastEventId, id);
    }
  }

  lemma NothingMissed(contents: Texts, results: set<string>)
    ensures AllFit([], contents, results) && LatestAll([], contents) == contents && ResultsAll([], results) == results
  {
  }

  // So a client misses what a message it has read from the replay has grown by while it was away.
  lemma GrownWhileAway()
    ensures var (replayed, _) := EmitAll(Replayed([ANSWER.(content := "abc")]), map[]);
            var sent := [Passive] + replayed;
            Get(Read(map["m" := "ab"], sent[Skipped(sent, 0, 2)..]), "m") == "ab"
  {
    var message := ANSWER.(content := "abc");
    assert Replayed([message]) == [AsStarted(message)] by { assert [message][1..] == []; }
    OneEvent(AsStarted(message), map[], {});
    assert Emit(AsStarted(message), map[]).0 == [AssistantDelta("m", "abc")];
    var sent := [Passive] + [AssistantDelta("m", "abc")];
    assert sent[2..] == [];
  }
}
