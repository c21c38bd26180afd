/** `analyze_failure` of apps/ai-service/app/analysis.py: why a session failed, from its error,
    its failed commands, its logs and its failure events.

    The pattern table is an uninterpreted test per reason. `IsRanking` says what the ranked
    classification is in terms of all sources together; the lemmas say that it does not depend
    on the order in which commands and events are listed. */
module FailureRanking {
  import opened Options
  import opened Lists

  // The reasons of the pattern table, in its order, and the fallback.
  datatype Reason =
    | PermissionDenied
    | ApprovalRejected
    | Timeout
    | NetworkError
    | MissingFileOrCommand
    | ModelError
    | DiffConflict
    | AgentProcessError
    | CommandFailed
    | Unknown

  const TABLE := [PermissionDenied, ApprovalRejected, Timeout, NetworkError, MissingFileOrCommand,
                  ModelError, DiffConflict, AgentProcessError, CommandFailed]

  // The position in FAILURE_REASONS. MissingFileOrCommand is not listed there and goes last.
  function Index(reason: Reason): nat {
    match reason
    case AgentProcessError => 0
    case CommandFailed => 1
    case ApprovalRejected => 2
    case Timeout => 3
    case ModelError => 4
    case NetworkError => 5
    case PermissionDenied => 6
    case DiffConflict => 7
    case Unknown => 8
    case MissingFileOrCommand => 9
  }

  lemma IndexInjective(a: Reason, b: Reason)
    ensures Index(a) == Index(b) ==> a == b
  {
  }

  datatype Source = Source(name: string, text: string)
  datatype Snippet = Snippet(name: string, text: string)

  // Whether a pattern of the reason occurs in the text, and the evidence for it; str.strip.
  datatype Patterns = Patterns(occurs: (Reason, string) -> bool, evidence: (Reason, string) -> string,
                               strip: string -> string)

  datatype Entry = Entry(reason: Reason, occurrences: nat, sources: seq<string>, evidence: seq<Snippet>)

  // ----- one text

  function HitsFrom(patterns: Patterns, text: string, n: nat): (r: seq<Reason>)
    requires n <= |TABLE|
    ensures forall reason :: reason in r <==> patterns.occurs(reason, text) && reason in TABLE[..n]
  {
    if n == 0 then []
    else
      assert TABLE[..n] == TABLE[..n - 1] + [TABLE[n - 1]];
      HitsFrom(patterns, text, n - 1) + (if patterns.occurs(TABLE[n - 1], text) then [TABLE[n - 1]] else [])
  }

  lemma {:induction false} HitsDistinct(patterns: Patterns, text: string, n: nat)
    requires n <= |TABLE|
    ensures Distinct(HitsFrom(patterns, text, n))
  {
    if n > 0 {
      HitsDistinct(patterns, text, n - 1);
      assert TABLE[n - 1] !in TABLE[..n - 1];
    }
  }

  // _classify_text: every reason at most once.
  function Hits(patterns: Patterns, text: string): seq<Reason> {
    HitsFrom(patterns, text, |TABLE|)
  }

  predicate IsHit(patterns: Patterns, reason: Reason, text: string) {
    reason != Unknown && patterns.occurs(reason, text)
  }

  lemma HitsAre(patterns: Patterns, text: string, reason: Reason)
    ensures reason in Hits(patterns, text) <==> IsHit(patterns, reason, text)
  {
    assert TABLE[..|TABLE|] == TABLE;
    InTable(reason);
  }

  lemma InTable(reason: Reason)
    ensures reason in TABLE <==> reason != Unknown
  {
    match reason
    case PermissionDenied => assert TABLE[0] == reason;
    case ApprovalRejected => assert TABLE[1] == reason;
    case Timeout => assert TABLE[2] == reason;
    case NetworkError => assert TABLE[3] == reason;
    case MissingFileOrCommand => assert TABLE[4] == reason;
    case ModelError => assert TABLE[5] == reason;
    case DiffConflict => assert TABLE[6] == reason;
    case AgentProcessError => assert TABLE[7] == reason;
    case CommandFailed => assert TABLE[8] == reason;
    case Unknown =>
  }

  // ----- all sources together

  function Occurrences(patterns: Patterns, reason: Reason, sources: seq<Source>): nat {
    if sources == [] then 0
    else Occurrences(patterns, reason, sources[..|sources| - 1]) +
         (if IsHit(patterns, reason, sources[|sources| - 1].text) then 1 else 0)
  }

  function Labels(patterns: Patterns, reason: Reason, sources: seq<Source>): seq<string> {
    if sources == [] then []
    else
      var (rest, last) := (Labels(patterns, reason, sources[..|sources| - 1]), sources[|sources| - 1]);
      if IsHit(patterns, reason, last.text) then rest + [last.name] else rest
  }

  function Evidence(patterns: Patterns, reason: Reason, sources: seq<Source>): seq<Snippet> {
    if sources == [] then []
    else
      var (rest, last) := (Evidence(patterns, reason, sources[..|sources| - 1]), sources[|sources| - 1]);
      var snippet := patterns.evidence(reason, last.text);
      if IsHit(patterns, reason, last.text) && snippet != "" && |rest| < 3
      then rest + [Snippet(last.name, snippet)] else rest
  }

  function EntryFor(patterns: Patterns, reason: Reason, sources: seq<Source>): Entry {
    Entry(reason, Occurrences(patterns, reason, sources), Unique(Labels(patterns, reason, sources)),
          Evidence(patterns, reason, sources))
  }

  function LabelsOf(sources: seq<Source>): seq<string> {
    seq(|sources|, i requires 0 <= i < |sources| => sources[i].name)
  }

  function Fallback(sources: seq<Source>): Entry {
    Entry(Unknown, 1, if sources == [] then ["none"] else LabelsOf(sources), [])
  }

  ghost predicate NothingFound(patterns: Patterns, sources: seq<Source>) {
    forall reason :: Occurrences(patterns, reason, sources) == 0
  }

  datatype Cause = Cause(reason: Reason, occurrences: nat)

  function CauseOf(e: Entry): Cause {
    Cause(e.reason, e.occurrences)
  }

  // The key (-occurrences, index) of one cause is smaller than that of the other.
  predicate Precedes(a: Cause, b: Cause) {
    a.occurrences > b.occurrences || (a.occurrences == b.occurrences && Index(a.reason) < Index(b.reason))
  }

  predicate Before(a: Entry, b: Entry) {
    Precedes(CauseOf(a), CauseOf(b))
  }

  predicate Ranked(entries: seq<Entry>) {
    forall i, j :: 0 <= i < j < |entries| ==> Before(entries[i], entries[j])
  }

  // Strictly ranked, and one entry for every reason that was hit, with all that is known of it.
  ghost predicate IsRanking(ranked: seq<Entry>, patterns: Patterns, sources: seq<Source>) {
    && Ranked(ranked)
    && if NothingFound(patterns, sources) then ranked == [Fallback(sources)]
       else forall e :: e in ranked <==> e == EntryFor(patterns, e.reason, sources) && e.occurrences > 0
  }

  // ----- sorted(…, key=…)

  function Insert(e: Entry, ranked: seq<Entry>): seq<Entry> {
    if ranked == [] || Before(e, ranked[0]) then [e] + ranked else [ranked[0]] + Insert(e, ranked[1..])
  }

  function Sorted(entries: seq<Entry>): seq<Entry> {
    if entries == [] then [] else Insert(entries[0], Sorted(entries[1..]))
  }

  predicate DistinctReasons(entries: seq<Entry>) {
    forall i, j :: 0 <= i < j < |entries| ==> entries[i].reason != entries[j].reason
  }

  lemma {:induction false} InsertRanks(e: Entry, ranked: seq<Entry>)
    requires Ranked(ranked) && forall i :: 0 <= i < |ranked| ==> ranked[i].reason != e.reason
    ensures Ranked(Insert(e, ranked))
    ensures forall x :: x in Insert(e, ranked) <==> x == e || x in ranked
  {
    if ranked != [] {
      IndexInjective(e.reason, ranked[0].reason);
      if !Before(e, ranked[0]) {
        InsertRanks(e, ranked[1..]);
        assert ranked == [ranked[0]] + ranked[1..];
        var rest := Insert(e, ranked[1..]);
        forall i | 0 <= i < |rest|
          ensures Before(ranked[0], rest[i])
        {
          assert rest[i] in rest;
        }
      }
    }
  }

  lemma {:induction false} SortedRanks(entries: seq<Entry>)
    requires DistinctReasons(entries)
    ensures Ranked(Sorted(entries))
    ensures forall x :: x in Sorted(entries) <==> x in entries
  {
    if entries != [] {
      SortedRanks(entries[1..]);
      assert entries == [entries[0]] + entries[1..];
      var rest := Sorted(entries[1..]);
      forall i | 0 <= i < |rest|
        ensures rest[i].reason != entries[0].reason
      {
        assert rest[i] in entries[1..];
      }
      InsertRanks(entries[0], rest);
    }
  }

  // ----- the two loops

  lemma OccurrencesMore(patterns: Patterns, reason: Reason, sources: seq<Source>, s: Source)
    ensures Occurrences(patterns, reason, sources + [s]) ==
            Occurrences(patterns, reason, sources) + (if IsHit(patterns, reason, s.text) then 1 else 0)
  {
    assert (sources + [s])[..|sources|] == sources;
  }

  // What one source adds to the entry of a reason.
  function AddHit(patterns: Patterns, e: Entry, s: Source): Entry {
    var snippet := patterns.evidence(e.reason, s.text);
    Entry(e.reason, e.occurrences + 1,
          if s.name in e.sources then e.sources else e.sources + [s.name],
          if snippet != "" && |e.evidence| < 3 then e.evidence + [Snippet(s.name, snippet)] else e.evidence)
  }

  lemma EntryForMore(patterns: Patterns, reason: Reason, sources: seq<Source>, s: Source)
    ensures EntryFor(patterns, reason, sources + [s]) ==
            if IsHit(patterns, reason, s.text) then AddHit(patterns, EntryFor(patterns, reason, sources), s)
            else EntryFor(patterns, reason, sources)
  {
    hide Unique;
    assert (sources + [s])[..|sources|] == sources;
    if IsHit(patterns, reason, s.text) {
      UniqueMore(Labels(patterns, reason, sources), s.name);
    }
  }

  datatype Classification = Classification(order: seq<Reason>, byReason: map<Reason, Entry>)

  // The dictionary after some sources: an entry for each reason hit so far.
  ghost predicate Tallies(c: Classification, patterns: Patterns, sources: seq<Source>) {
    && Distinct(c.order) && (forall reason :: reason in c.order <==> reason in c.byReason)
    && (forall reason :: reason in c.byReason <==> Occurrences(patterns, reason, sources) > 0)
    && (forall reason :: reason in c.byReason ==> c.byReason[reason] == EntryFor(patterns, reason, sources))
  }

  method ClassifySource(c: Classification, patterns: Patterns, ghost sources: seq<Source>, s: Source)
    returns (c': Classification)
    requires Tallies(c, patterns, sources)
    ensures Tallies(c', patterns, sources + [s])
  {
    hide Occurrences, Labels, Evidence, Unique, HitsFrom, EntryFor, AddHit;
    c' := c;
    var hits := Hits(patterns, s.text);
    HitsDistinct(patterns, s.text, |TABLE|);
    ghost var after := sources + [s];
    for k := 0 to |hits|
      invariant Distinct(c'.order) && (forall reason :: reason in c'.order <==> reason in c'.byReason)
      invariant forall reason :: reason in c'.byReason <==> reason in c.byReason || reason in hits[..k]
      invariant forall reason :: reason in c'.byReason ==>
          c'.byReason[reason] == EntryFor(patterns, reason, if reason in hits[..k] then after else sources)
    {
      var reason := hits[k];
      assert hits[..k + 1] == hits[..k] + [reason];
      assert reason !in hits[..k];
      HitsAre(patterns, s.text, reason);
      EntryForMore(patterns, reason, sources, s);
      if reason !in c'.byReason {
        NewEntry(patterns, reason, sources);
        c' := Classification(c'.order + [reason], c'.byReason[reason := Entry(reason, 0, [], [])]);
      }
      c' := c'.(byReason := c'.byReason[reason := AddHit(patterns, c'.byReason[reason], s)]);
    }
    assert hits[..|hits|] == hits;
    AfterSource(patterns, sources, s);
  }

  // A source adds occurrences exactly to the reasons it hits.
  lemma AfterSource(patterns: Patterns, sources: seq<Source>, s: Source)
    ensures forall reason :: Occurrences(patterns, reason, sources + [s]) > 0 <==>
              Occurrences(patterns, reason, sources) > 0 || reason in Hits(patterns, s.text)
    ensures forall reason :: reason !in Hits(patterns, s.text) ==>
              EntryFor(patterns, reason, sources + [s]) == EntryFor(patterns, reason, sources)
  {
    hide Occurrences, HitsFrom, EntryFor;
    forall reason
      ensures Occurrences(patterns, reason, sources + [s]) > 0 <==>
              Occurrences(patterns, reason, sources) > 0 || reason in Hits(patterns, s.text)
      ensures reason !in Hits(patterns, s.text) ==>
                EntryFor(patterns, reason, sources + [s]) == EntryFor(patterns, reason, sources)
    {
      HitsAre(patterns, s.text, reason);
      OccurrencesMore(patterns, reason, sources, s);
      EntryForMore(patterns, reason, sources, s);
    }
  }

  lemma {:induction false} NewEntry(patterns: Patterns, reason: Reason, sources: seq<Source>)
    requires Occurrences(patterns, reason, sources) == 0
    ensures EntryFor(patterns, reason, sources) == Entry(reason, 0, [], [])
  {
    NoHits(patterns, reason, sources);
    assert Unique<string>([]) == [];
  }

  lemma {:induction false} NoHits(patterns: Patterns, reason: Reason, sources: seq<Source>)
    requires Occurrences(patterns, reason, sources) == 0
    ensures Labels(patterns, reason, sources) == [] && Evidence(patterns, reason, sources) == []
  {
    if sources != [] {
      NoHits(patterns, reason, sources[..|sources| - 1]);
    }
  }

  method AnalyzeFailure(patterns: Patterns, sources: seq<Source>) returns (ranked: seq<Entry>)
    ensures |ranked| > 0 && IsRanking(ranked, patterns, sources)
  {
    hide Occurrences, EntryFor, Sorted, Before, Ranked;
    var c := Classification([], map[]);
    NothingYet(patterns);
    for i := 0 to |sources|
      invariant Tallies(c, patterns, sources[..i])
    {
      assert sources[..i + 1] == sources[..i] + [sources[i]];
      c := ClassifySource(c, patterns, sources[..i], sources[i]);
    }
    assert sources[..|sources|] == sources;
    if c.order == [] {
      ranked := [Fallback(sources)];
      OneRanked(ranked[0]);
    } else {
      var entries :=
        seq(|c.order|, i requires 0 <= i < |c.order| && c.order[i] in c.byReason => c.byReason[c.order[i]]);
      ValuesDistinct(c, entries, patterns, sources);
      SortedRanks(entries);
      ranked := Sorted(entries);
      ValuesRank(c, entries, ranked, patterns, sources);
    }
  }

  lemma NothingYet(patterns: Patterns)
    ensures Tallies(Classification([], map[]), patterns, [])
  {
  }

  lemma OneRanked(e: Entry)
    ensures Ranked([e])
  {
  }

  lemma ValuesDistinct(c: Classification, entries: seq<Entry>, patterns: Patterns, sources: seq<Source>)
    requires Tallies(c, patterns, sources) && |entries| == |c.order|
    requires forall i :: 0 <= i < |entries| ==> c.order[i] in c.byReason && entries[i] == c.byReason[c.order[i]]
    ensures DistinctReasons(entries)
  {
    hide Occurrences;
    forall i | 0 <= i < |entries|
      ensures entries[i].reason == c.order[i]
    {
    }
  }

  lemma ValuesRank(c: Classification, entries: seq<Entry>, ranked: seq<Entry>, patterns: Patterns, sources: seq<Source>)
    requires Tallies(c, patterns, sources) && |entries| == |c.order| > 0
    requires forall i :: 0 <= i < |entries| ==> c.order[i] in c.byReason && entries[i] == c.byReason[c.order[i]]
    requires Ranked(ranked) && forall e :: e in ranked <==> e in entries
    ensures |ranked| > 0 && IsRanking(ranked, patterns, sources)
  {
    hide Ranked, Labels, Evidence, Unique;
    assert entries[0] in ranked;
    forall e
      ensures e in ranked <==> e == EntryFor(patterns, e.reason, sources) && e.occurrences > 0
    {
      if e == EntryFor(patterns, e.reason, sources) && e.occurrences > 0 {
        assert e.reason in c.byReason;
        var i :| 0 <= i < |c.order| && c.order[i] == e.reason;
        assert entries[i] == e;
      }
    }
    assert c.order[0] in c.byReason;
  }

  // ----- the sources of a session

  datatype Command = Command(exitCode: Option<int>, command: string, stderr: string, stderrPreview: string,
                             stdout: string, stdoutPreview: string)
  datatype Event = Event(kind: string, payload: Option<seq<string>>)

  function JoinTexts(parts: seq<string>, separator: string): string {
    if parts == [] then "" else if |parts| == 1 then parts[0]
    else parts[0] + separator + JoinTexts(parts[1..], separator)
  }

  function Given(parts: seq<string>): seq<string> {
    if parts == [] then [] else (if parts[0] == "" then [] else [parts[0]]) + Given(parts[1..])
  }

  // A failed command with anything to show.
  function CommandSource(patterns: Patterns, c: Command): seq<Source> {
    if c.exitCode.None? || c.exitCode.value == 0 then []
    else
      var stderr := if c.stderr != "" then c.stderr else c.stderrPreview;
      var stdout := if c.stdout != "" then c.stdout else c.stdoutPreview;
      var combined := patterns.strip(JoinTexts(Given([c.command, stderr, stdout]), "\n"));
      if combined == "" then [] else [Source("command", combined)]
  }

  predicate IsFailureEvent(kind: string) {
    (|kind| >= 6 && kind[|kind| - 6..] == "failed") || kind == "error"
  }

  function EventSource(e: Event): seq<Source> {
    if e.payload.None? || !IsFailureEvent(e.kind) then []
    else
      var text := JoinTexts(e.payload.value, " ");
      if text == "" then [] else [Source("event:" + e.kind, text)]
  }

  function TextSource(name: string, text: string): seq<Source> {
    if text == "" then [] else [Source(name, text)]
  }

  function CommandSources(patterns: Patterns, commands: seq<Command>): seq<Source> {
    if commands == [] then []
    else CommandSources(patterns, commands[..|commands| - 1]) + CommandSource(patterns, commands[|commands| - 1])
  }

  function EventSources(events: seq<Event>): seq<Source> {
    if events == [] then [] else EventSources(events[..|events| - 1]) + EventSource(events[|events| - 1])
  }

  function Sources(patterns: Patterns, error: string, commands: seq<Command>, logs: string,
                   events: seq<Event>): seq<Source> {
    TextSource("error", error) + CommandSources(patterns, commands) + TextSource("logs", logs) + EventSources(events)
  }

  method CollectSources(patterns: Patterns, error: string, commands: seq<Command>, logs: string, events: seq<Event>)
    returns (sources: seq<Source>)
    ensures sources == Sources(patterns, error, commands, logs, events)
  {
    hide CommandSource, EventSource;
    sources := TextSource("error", error);
    ghost var before := sources;
    for i := 0 to |commands|
      invariant sources == before + CommandSources(patterns, commands[..i])
    {
      assert commands[..i + 1][..i] == commands[..i];
      sources := sources + CommandSource(patterns, commands[i]);
    }
    assert commands[..|commands|] == commands;
    sources := sources + TextSource("logs", logs);
    before := sources;
    for i := 0 to |events|
      invariant sources == before + EventSources(events[..i])
    {
      assert events[..i + 1][..i] == events[..i];
      sources := sources + EventSource(events[i]);
    }
    assert events[..|events|] == events;
  }

  // ----- the order does not matter

  lemma {:induction false} OccurrencesConcat(patterns: Patterns, reason: Reason, a: seq<Source>, b: seq<Source>)
    ensures Occurrences(patterns, reason, a + b) == Occurrences(patterns, reason, a) + Occurrences(patterns, reason, b)
  {
    if b == [] {
      assert a + b == a;
    } else {
      OccurrencesConcat(patterns, reason, a, b[..|b| - 1]);
      assert (a + b)[..|a + b| - 1] == a + b[..|b| - 1];
    }
  }

  function CommandWeight(patterns: Patterns, reason: Reason): Command -> nat {
    (c: Command) => Occurrences(patterns, reason, CommandSource(patterns, c))
  }

  function EventWeight(patterns: Patterns, reason: Reason): Event -> nat {
    (e: Event) => Occurrences(patterns, reason, EventSource(e))
  }

  lemma {:induction false} CommandTotal(patterns: Patterns, reason: Reason, commands: seq<Command>)
    ensures Occurrences(patterns, reason, CommandSources(patterns, commands)) ==
            Total(commands, CommandWeight(patterns, reason))
  {
    hide Occurrences, CommandSource;
    if commands == [] {
      NoOccurrences(patterns, reason);
    } else {
      var init := commands[..|commands| - 1];
      CommandTotal(patterns, reason, init);
      OccurrencesConcat(patterns, reason, CommandSources(patterns, init),
                        CommandSource(patterns, commands[|commands| - 1]));
    }
  }

  lemma {:induction false} EventTotal(patterns: Patterns, reason: Reason, events: seq<Event>)
    ensures Occurrences(patterns, reason, EventSources(events)) == Total(events, EventWeight(patterns, reason))
  {
    hide Occurrences, EventSource;
    if events == [] {
      NoOccurrences(patterns, reason);
    } else {
      var init := events[..|events| - 1];
      EventTotal(patterns, reason, init);
      OccurrencesConcat(patterns, reason, EventSources(init), EventSource(events[|events| - 1]));
    }
  }

  lemma NoOccurrences(patterns: Patterns, reason: Reason)
    ensures Occurrences(patterns, reason, []) == 0
  {
  }

  lemma SourcesPermuted(patterns: Patterns, reason: Reason, error: string, logs: string, commands: seq<Command>,
                        commands': seq<Command>, events: seq<Event>, events': seq<Event>)
    requires multiset(commands) == multiset(commands') && multiset(events) == multiset(events')
    ensures Occurrences(patterns, reason, Sources(patterns, error, commands, logs, events)) ==
            Occurrences(patterns, reason, Sources(patterns, error, commands', logs, events'))
  {
    hide Occurrences, CommandSources, EventSources, TextSource, CommandWeight, EventWeight;
    SourcesTotal(patterns, reason, error, commands, logs, events);
    SourcesTotal(patterns, reason, error, commands', logs, events');
    TotalPermuted(commands, commands', CommandWeight(patterns, reason));
    TotalPermuted(events, events', EventWeight(patterns, reason));
  }

  lemma {:induction false} SourcesTotal(patterns: Patterns, reason: Reason, error: string, commands: seq<Command>,
                                        logs: string, events: seq<Event>)
    ensures Occurrences(patterns, reason, Sources(patterns, error, commands, logs, events)) ==
            Occurrences(patterns, reason, TextSource("error", error)) +
            Total(commands, CommandWeight(patterns, reason)) +
            Occurrences(patterns, reason, TextSource("logs", logs)) + Total(events, EventWeight(patterns, reason))
  {
    hide Occurrences, CommandSources, EventSources, TextSource, CommandWeight, EventWeight;
    var (a, b) := (TextSource("error", error), CommandSources(patterns, commands));
    var (c, d) := (TextSource("logs", logs), EventSources(events));
    OccurrencesConcat(patterns, reason, a + b + c, d);
    OccurrencesConcat(patterns, reason, a + b, c);
    OccurrencesConcat(patterns, reason, a, b);
    CommandTotal(patterns, reason, commands);
    EventTotal(patterns, reason, events);
  }

  function Causes(ranked: seq<Entry>): seq<Cause> {
    seq(|ranked|, i requires 0 <= i < |ranked| => CauseOf(ranked[i]))
  }

  predicate Strict(causes: seq<Cause>) {
    forall i, j :: 0 <= i < j < |causes| ==> Precedes(causes[i], causes[j])
  }

  // There is one strict ranking of a set of causes.
  lemma {:induction false} StrictUnique(p: seq<Cause>, q: seq<Cause>)
    requires Strict(p) && Strict(q) && forall c :: c in p <==> c in q
    ensures p == q
    decreases |p|
  {
    FirstIn(p);
    FirstIn(q);
    if p != [] {
      FirstPrecedes(p, q[0]);
      FirstPrecedes(q, p[0]);
      IndexInjective(p[0].reason, q[0].reason);
      forall c
        ensures c in p[1..] <==> c in q[1..]
      {
        InRest(p, c);
        InRest(q, c);
      }
      StrictUnique(p[1..], q[1..]);
      assert p == [p[0]] + p[1..] && q == [q[0]] + q[1..];
    }
  }

  lemma FirstIn(p: seq<Cause>)
    ensures p != [] ==> p[0] in p
  {
  }

  lemma FirstPrecedes(p: seq<Cause>, c: Cause)
    requires Strict(p) && c in p
    ensures c == p[0] || Precedes(p[0], c)
  {
    var i :| 0 <= i < |p| && p[i] == c;
    assert i > 0 ==> Precedes(p[0], p[i]);
  }

  lemma InRest(p: seq<Cause>, c: Cause)
    requires Strict(p) && p != []
    ensures c in p[1..] <==> c in p && c != p[0]
  {
    if c in p[1..] {
      var i :| 0 <= i < |p| - 1 && p[1..][i] == c;
      assert Precedes(p[0], p[i + 1]);
    }
    assert p == [p[0]] + p[1..];
  }

  lemma RankedCauses(ranked: seq<Entry>, patterns: Patterns, sources: seq<Source>, c: Cause)
    requires IsRanking(ranked, patterns, sources) && !NothingFound(patterns, sources)
    ensures c in Causes(ranked) <==> c.occurrences == Occurrences(patterns, c.reason, sources) > 0
  {
    hide Occurrences, Ranked, Labels, Evidence, Unique;
    if c in Causes(ranked) {
      var i :| 0 <= i < |ranked| && Causes(ranked)[i] == c;
      assert ranked[i] in ranked;
    }
    if c.occurrences == Occurrences(patterns, c.reason, sources) > 0 {
      var e := EntryFor(patterns, c.reason, sources);
      assert e in ranked;
      var i :| 0 <= i < |ranked| && ranked[i] == e;
      assert Causes(ranked)[i] == c;
    }
  }

  lemma CausesStrict(ranked: seq<Entry>, patterns: Patterns, sources: seq<Source>)
    requires IsRanking(ranked, patterns, sources)
    ensures Strict(Causes(ranked))
  {
    hide EntryFor, Occurrences, Precedes;
    forall i, j | 0 <= i < j < |ranked|
      ensures Precedes(Causes(ranked)[i], Causes(ranked)[j])
    {
      assert Before(ranked[i], ranked[j]);
    }
  }

  // The ranked reasons with their counts, and so the primary reason, are the same however the
  // commands and the events are ordered.
  lemma {:induction false} OrderIrrelevant(patterns: Patterns, error: string, logs: string, commands: seq<Command>,
                                           commands': seq<Command>, events: seq<Event>, events': seq<Event>,
                                           ranked: seq<Entry>, ranked': seq<Entry>)
    requires multiset(commands) == multiset(commands') && multiset(events) == multiset(events')
    requires IsRanking(ranked, patterns, Sources(patterns, error, commands, logs, events))
    requires IsRanking(ranked', patterns, Sources(patterns, error, commands', logs, events'))
    ensures Causes(ranked) == Causes(ranked')
    ensures |ranked| == |ranked'| && (|ranked| > 0 ==> ranked[0].reason == ranked'[0].reason)
  {
    hide Occurrences, Ranked, Sources, IsRanking;
    var sources := Sources(patterns, error, commands, logs, events);
    var sources' := Sources(patterns, error, commands', logs, events');
    forall reason
      ensures Occurrences(patterns, reason, sources) == Occurrences(patterns, reason, sources')
    {
      SourcesPermuted(patterns, reason, error, logs, commands, commands', events, events');
    }
    CausesAgree(patterns, sources, sources', ranked, ranked');
    assert |Causes(ranked)| == |ranked| && |Causes(ranked')| == |ranked'|;
    if |ranked| > 0 {
      assert Causes(ranked)[0] == CauseOf(ranked[0]) && Causes(ranked')[0] == CauseOf(ranked'[0]);
    }
  }

  lemma CausesAgree(patterns: Patterns, sources: seq<Source>, sources': seq<Source>, ranked: seq<Entry>,
                    ranked': seq<Entry>)
    requires forall reason :: Occurrences(patterns, reason, sources) == Occurrences(patterns, reason, sources')
    requires IsRanking(ranked, patterns, sources) && IsRanking(ranked', patterns, sources')
    ensures Causes(ranked) == Causes(ranked')
  {
    hide Occurrences, Ranked, EntryFor;
    if NothingFound(patterns, sources) {
      assert Causes(ranked) == [Cause(Unknown, 1)] == Causes(ranked');
    } else {
      FoundCausesAgree(patterns, sources, sources', ranked, ranked');
    }
  }

  lemma {:induction false} FoundCausesAgree(patterns: Patterns, sources: seq<Source>, sources': seq<Source>,
                                            ranked: seq<Entry>, ranked': seq<Entry>)
    requires forall reason :: Occurrences(patterns, reason, sources) == Occurrences(patterns, reason, sources')
    requires IsRanking(ranked, patterns, sources) && IsRanking(ranked', patterns, sources')
    requires !NothingFound(patterns, sources) && !NothingFound(patterns, sources')
    ensures Causes(ranked) == Causes(ranked')
  {
    hide Occurrences, Strict, IsRanking, Causes;
    forall c
      ensures c in Causes(ranked) <==> c in Causes(ranked')
    {
      RankedCauses(ranked, patterns, sources, c);
      RankedCauses(ranked', patterns, sources', c);
    }
    CausesStrict(ranked, patterns, sources);
    CausesStrict(ranked', patterns, sources');
    StrictUnique(Causes(ranked), Causes(ranked'));
  }

  // ----- no hit is lost

  function TotalHits(patterns: Patterns, sources: seq<Source>): nat {
    if sources == [] then 0
    else TotalHits(patterns, sources[..|sources| - 1]) + |Hits(patterns, sources[|sources| - 1].text)|
  }

  function OccurrencesIn(patterns: Patterns, sources: seq<Source>): Reason -> nat {
    (reason: Reason) => Occurrences(patterns, reason, sources)
  }

  function ReasonsOf(ranked: seq<Entry>): seq<Reason> {
    seq(|ranked|, i requires 0 <= i < |ranked| => ranked[i].reason)
  }

  function SumOccurrences(ranked: seq<Entry>): nat {
    if ranked == [] then 0 else SumOccurrences(ranked[..|ranked| - 1]) + ranked[|ranked| - 1].occurrences
  }

  lemma {:induction false} TableHits(patterns: Patterns, sources: seq<Source>, s: Source, n: nat)
    requires n <= |TABLE|
    ensures Total(TABLE[..n], OccurrencesIn(patterns, sources + [s])) ==
            Total(TABLE[..n], OccurrencesIn(patterns, sources)) + |HitsFrom(patterns, s.text, n)|
  {
    hide Occurrences;
    if n > 0 {
      TableHits(patterns, sources, s, n - 1);
      assert TABLE[..n][..n - 1] == TABLE[..n - 1];
      OccurrencesMore(patterns, TABLE[n - 1], sources, s);
      InTable(TABLE[n - 1]);
    }
  }

  lemma {:induction false} TableTotal(patterns: Patterns, sources: seq<Source>)
    ensures Total(TABLE, OccurrencesIn(patterns, sources)) == TotalHits(patterns, sources)
  {
    hide Occurrences, HitsFrom;
    assert TABLE[..|TABLE|] == TABLE;
    if sources == [] {
      forall reason
        ensures OccurrencesIn(patterns, [])(reason) == 0
      {
        NoOccurrences(patterns, reason);
      }
      NoWeight(TABLE, OccurrencesIn(patterns, []));
    } else {
      var (init, last) := (sources[..|sources| - 1], sources[|sources| - 1]);
      TableTotal(patterns, init);
      assert sources == init + [last];
      TableHits(patterns, init, last, |TABLE|);
    }
  }

  lemma {:induction false} NoWeight(reasons: seq<Reason>, weight: Reason -> nat)
    requires forall reason :: weight(reason) == 0
    ensures Total(reasons, weight) == 0
  {
    if reasons != [] {
      NoWeight(reasons[..|reasons| - 1], weight);
    }
  }

  // Lists that differ only in reasons of no weight have the same total.
  lemma {:induction false} SameTotal(a: seq<Reason>, b: seq<Reason>, weight: Reason -> nat)
    requires Distinct(a) && Distinct(b)
    requires forall reason :: weight(reason) > 0 ==> (reason in a <==> reason in b)
    ensures Total(a, weight) == Total(b, weight)
    decreases |a|
  {
    hide Total;
    if a == [] {
      OnlyWeightless(b, weight);
      OnlyWeightless(a, weight);
    } else {
      var (init, last) := (a[..|a| - 1], a[|a| - 1]);
      assert a == init + [last] && last !in init;
      TotalConcat(init, [last], weight);
      if weight(last) > 0 {
        var j :| 0 <= j < |b| && b[j] == last;
        var (before, after) := (b[..j], b[j + 1..]);
        assert b == before + [last] + after;
        Without(b, j);
        SameTotal(init, before + after, weight);
        TotalConcat(before + [last], after, weight);
        TotalConcat(before, [last], weight);
        TotalConcat(before, after, weight);
      } else {
        OnlyWeightless([last], weight);
        SameTotal(init, b, weight);
      }
    }
  }

  lemma Without(b: seq<Reason>, j: int)
    requires Distinct(b) && 0 <= j < |b|
    ensures Distinct(b[..j] + b[j + 1..])
    ensures forall reason :: reason in b[..j] + b[j + 1..] <==> reason in b && reason != b[j]
  {
    var rest := b[..j] + b[j + 1..];
    forall reason
      ensures reason in rest <==> reason in b && reason != b[j]
    {
      if reason in b && reason != b[j] {
        var i :| 0 <= i < |b| && b[i] == reason;
        assert rest[if i < j then i else i - 1] == reason;
      }
    }
  }

  lemma {:induction false} OnlyWeightless(reasons: seq<Reason>, weight: Reason -> nat)
    requires forall reason :: reason in reasons ==> weight(reason) == 0
    ensures Total(reasons, weight) == 0
  {
    if reasons != [] {
      assert reasons[|reasons| - 1] in reasons;
      OnlyWeightless(reasons[..|reasons| - 1], weight);
    }
  }

  lemma {:induction false} SumIsTotal(patterns: Patterns, sources: seq<Source>, ranked: seq<Entry>)
    requires forall i :: 0 <= i < |ranked| ==> ranked[i].occurrences == Occurrences(patterns, ranked[i].reason, sources)
    ensures SumOccurrences(ranked) == Total(ReasonsOf(ranked), OccurrencesIn(patterns, sources))
  {
    hide Occurrences;
    if ranked != [] {
      var init := ranked[..|ranked| - 1];
      SumIsTotal(patterns, sources, init);
      assert ReasonsOf(ranked)[..|ranked| - 1] == ReasonsOf(init);
    }
  }

  // The counts add up to the hits of all sources; with no hit at all there is one `unknown`.
  lemma HitsConserved(patterns: Patterns, sources: seq<Source>, ranked: seq<Entry>)
    requires IsRanking(ranked, patterns, sources)
    ensures SumOccurrences(ranked) == if NothingFound(patterns, sources) then 1 else TotalHits(patterns, sources)
    ensures NothingFound(patterns, sources) <==> TotalHits(patterns, sources) == 0
  {
    hide Occurrences, Labels, Evidence, Unique, SumOccurrences, Ranked;
    TableTotal(patterns, sources);
    if NothingFound(patterns, sources) {
      NoWeight(TABLE, OccurrencesIn(patterns, sources));
      OneSum(ranked[0]);
    } else {
      forall i | 0 <= i < |ranked|
        ensures ranked[i].occurrences == Occurrences(patterns, ranked[i].reason, sources)
      {
        assert ranked[i] in ranked;
      }
      SumIsTotal(patterns, sources, ranked);
      RankedReasons(patterns, sources, ranked);
      TableDistinct();
      SameTotal(ReasonsOf(ranked), TABLE, OccurrencesIn(patterns, sources));
      SomethingFound(patterns, sources);
    }
  }

  lemma OneSum(e: Entry)
    ensures SumOccurrences([e]) == e.occurrences
  {
    assert [e][..0] == [];
  }

  lemma TableDistinct()
    ensures Distinct(TABLE)
  {
  }

  lemma RankedReasons(patterns: Patterns, sources: seq<Source>, ranked: seq<Entry>)
    requires IsRanking(ranked, patterns, sources) && !NothingFound(patterns, sources)
    ensures Distinct(ReasonsOf(ranked))
    ensures forall reason :: OccurrencesIn(patterns, sources)(reason) > 0 ==>
            (reason in ReasonsOf(ranked) <==> reason in TABLE)
  {
    hide Occurrences, Labels, Evidence, Unique;
    forall i, j | 0 <= i < j < |ranked|
      ensures ReasonsOf(ranked)[i] != ReasonsOf(ranked)[j]
    {
      assert Before(ranked[i], ranked[j]);
      assert ranked[i] in ranked && ranked[j] in ranked;
    }
    forall reason | Occurrences(patterns, reason, sources) > 0
      ensures reason in ReasonsOf(ranked) && reason in TABLE
    {
      var e := EntryFor(patterns, reason, sources);
      assert e in ranked;
      var i :| 0 <= i < |ranked| && ranked[i] == e;
      assert ReasonsOf(ranked)[i] == reason;
      NeverUnknown(patterns, sources);
      InTable(reason);
    }
  }

  lemma {:induction false} NeverUnknown(patterns: Patterns, sources: seq<Source>)
    ensures Occurrences(patterns, Unknown, sources) == 0
  {
    if sources != [] {
      NeverUnknown(patterns, sources[..|sources| - 1]);
    }
  }

  lemma SomethingFound(patterns: Patterns, sources: seq<Source>)
    requires !NothingFound(patterns, sources)
    ensures Total(TABLE, OccurrencesIn(patterns, sources)) > 0
  {
    hide Occurrences;
    var reason :| Occurrences(patterns, reason, sources) != 0;
    NeverUnknown(patterns, sources);
    InTable(reason);
    PositiveTotal(TABLE, OccurrencesIn(patterns, sources), reason);
  }

  lemma {:induction false} PositiveTotal(reasons: seq<Reason>, weight: Reason -> nat, reason: Reason)
    requires reason in reasons && weight(reason) > 0
    ensures Total(reasons, weight) > 0
  {
    if reasons[|reasons| - 1] != reason {
      PositiveTotal(reasons[..|reasons| - 1], weight, reason);
    }
  }
}
