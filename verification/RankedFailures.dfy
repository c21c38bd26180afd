/** What a ranking of failure reasons says, told from the sources by their places. */
module RankedFailures {
  import opened Options
  import opened Lists
  import opened FailureRanking

  // FAILURE_REASONS of the response, and the one reason it does not list.
  const ORDER := [AgentProcessError, CommandFailed, ApprovalRejected, Timeout, ModelError, NetworkError,
                  PermissionDenied, DiffConflict, Unknown, MissingFileOrCommand]

  // The sources before the given place that the reason hits, and those of them with evidence.
  function HitPlaces(patterns: Patterns, reason: Reason, sources: seq<Source>, before: int): set<int> {
    set i | 0 <= i < before && i < |sources| && reason != Unknown && patterns.occurs(reason, sources[i].text)
  }

  function Shown(patterns: Patterns, reason: Reason, sources: seq<Source>, before: int): set<int> {
    set i | i in HitPlaces(patterns, reason, sources, before) && patterns.evidence(reason, sources[i].text) != ""
  }

  // The evidence of a reason, by place.
  ghost predicate EvidenceBy(evidence: seq<Snippet>, patterns: Patterns, reason: Reason, sources: seq<Source>) {
    var shown := Shown(patterns, reason, sources, |sources|);
    && |evidence| == (if |shown| < 3 then |shown| else 3)
    && forall i :: i in shown ==> EvidenceAt(evidence, patterns, reason, sources, i)
  }

  predicate EvidenceAt(evidence: seq<Snippet>, patterns: Patterns, reason: Reason, sources: seq<Source>, i: int) {
    var p := |Shown(patterns, reason, sources, i)|;
    && 0 <= i < |sources|
    && (p < 3 ==> p < |evidence| &&
                  evidence[p] == Snippet(sources[i].name, patterns.evidence(reason, sources[i].text)))
  }

  // One entry, from the sources: how many the reason hits, under which names, and of the first three
  // with evidence, that evidence.
  ghost predicate Describes(e: Entry, patterns: Patterns, sources: seq<Source>) {
    var hits := HitPlaces(patterns, e.reason, sources, |sources|);
    && e.occurrences == |hits|
    && Distinct(e.sources) && (forall name :: name in e.sources <==> exists i :: i in hits && sources[i].name == name)
    && EvidenceBy(e.evidence, patterns, e.reason, sources)
  }

  lemma PlacesMore(patterns: Patterns, reason: Reason, sources: seq<Source>, s: Source)
    ensures var (more, n, hit) := (sources + [s], |sources|, IsHit(patterns, reason, s.text));
            && (forall b :: 0 <= b <= n ==>
                  && HitPlaces(patterns, reason, more, b) == HitPlaces(patterns, reason, sources, b)
                  && Shown(patterns, reason, more, b) == Shown(patterns, reason, sources, b))
            && HitPlaces(patterns, reason, more, n + 1) ==
               HitPlaces(patterns, reason, sources, n) + (if hit then {n} else {})
            && Shown(patterns, reason, more, n + 1) ==
               Shown(patterns, reason, sources, n) +
               (if hit && patterns.evidence(reason, s.text) != "" then {n} else {})
  {
    var more := sources + [s];
    forall b | 0 <= b <= |sources|
      ensures HitPlaces(patterns, reason, more, b) == HitPlaces(patterns, reason, sources, b)
      ensures Shown(patterns, reason, more, b) == Shown(patterns, reason, sources, b)
    {
    }
  }

  lemma {:induction false} OccurrencesAre(patterns: Patterns, reason: Reason, sources: seq<Source>)
    ensures Occurrences(patterns, reason, sources) == |HitPlaces(patterns, reason, sources, |sources|)|
  {
    if sources == [] {
      assert HitPlaces(patterns, reason, sources, 0) == {};
    } else {
      var (init, last) := (sources[..|sources| - 1], sources[|sources| - 1]);
      assert sources == init + [last];
      OccurrencesAre(patterns, reason, init);
      PlacesMore(patterns, reason, init, last);
      hide HitPlaces, Shown;
      assert |init| !in HitPlaces(patterns, reason, init, |init|) by { Bounded(patterns, reason, init); }
    }
  }

  lemma Bounded(patterns: Patterns, reason: Reason, sources: seq<Source>)
    ensures forall i :: i in HitPlaces(patterns, reason, sources, |sources|) ==> 0 <= i < |sources|
    ensures forall i :: i in Shown(patterns, reason, sources, |sources|) ==> 0 <= i < |sources|
  {
  }

  lemma {:induction false} LabelsAre(patterns: Patterns, reason: Reason, sources: seq<Source>)
    ensures forall name :: name in Labels(patterns, reason, sources) <==>
              exists i :: i in HitPlaces(patterns, reason, sources, |sources|) && sources[i].name == name
  {
    if sources != [] {
      var (init, last) := (sources[..|sources| - 1], sources[|sources| - 1]);
      assert sources == init + [last];
      LabelsAre(patterns, reason, init);
      PlacesMore(patterns, reason, init, last);
      Bounded(patterns, reason, init);
      var (before, after) := (HitPlaces(patterns, reason, init, |init|),
                              HitPlaces(patterns, reason, sources, |sources|));
      hide HitPlaces, Shown;
      forall name
        ensures name in Labels(patterns, reason, sources) <==> exists i :: i in after && sources[i].name == name
      {
        assert forall i :: i in before ==> sources[i] == init[i] && i in after;
        if IsHit(patterns, reason, last.text) { assert |init| in after && sources[|init|] == last; }
      }
    }
  }

  lemma {:induction false} EvidenceAre(patterns: Patterns, reason: Reason, sources: seq<Source>)
    ensures EvidenceBy(Evidence(patterns, reason, sources), patterns, reason, sources)
  {
    if sources == [] {
      assert Shown(patterns, reason, sources, 0) == {};
    } else {
      var (init, last) := (sources[..|sources| - 1], sources[|sources| - 1]);
      assert sources == init + [last];
      EvidenceAre(patterns, reason, init);
      PlacesMore(patterns, reason, init, last);
      Bounded(patterns, reason, init);
      EvidenceMore(patterns, reason, init, last);
    }
  }

  lemma EvidenceMore(patterns: Patterns, reason: Reason, sources: seq<Source>, s: Source)
    requires EvidenceBy(Evidence(patterns, reason, sources), patterns, reason, sources)
    ensures EvidenceBy(Evidence(patterns, reason, sources + [s]), patterns, reason, sources + [s])
  {
    hide HitPlaces, Shown, Evidence, EvidenceAt, IsHit;
    var (more, n) := (sources + [s], |sources|);
    ShownMore(patterns, reason, sources, s);
    EvidenceStep(patterns, reason, sources, s);
    forall i | i in Shown(patterns, reason, more, n + 1)
      ensures EvidenceAt(Evidence(patterns, reason, more), patterns, reason, more, i)
    {
      if i in Shown(patterns, reason, sources, n) {
        EvidenceKept(patterns, reason, sources, s, i);
      } else {
        EvidenceNew(patterns, reason, sources, s);
      }
    }
  }

  lemma ShownMore(patterns: Patterns, reason: Reason, sources: seq<Source>, s: Source)
    ensures var (n, hit) := (|sources|, IsHit(patterns, reason, s.text) && patterns.evidence(reason, s.text) != "");
            var (shown, after) := (Shown(patterns, reason, sources, n), Shown(patterns, reason, sources + [s], n + 1));
            && after == shown + (if hit then {n} else {})
            && |after| == |shown| + if hit then 1 else 0
  {
    PlacesMore(patterns, reason, sources, s);
    Bounded(patterns, reason, sources);
    hide HitPlaces, Shown, IsHit;
  }

  // What there is for a place stays.
  lemma EvidenceKept(patterns: Patterns, reason: Reason, sources: seq<Source>, s: Source, i: int)
    requires EvidenceAt(Evidence(patterns, reason, sources), patterns, reason, sources, i)
    ensures EvidenceAt(Evidence(patterns, reason, sources + [s]), patterns, reason, sources + [s], i)
  {
    PlacesMore(patterns, reason, sources, s);
    EvidenceStep(patterns, reason, sources, s);
    hide HitPlaces, Shown, Evidence, IsHit;
    assert (sources + [s])[i] == sources[i];
  }

  lemma EvidenceNew(patterns: Patterns, reason: Reason, sources: seq<Source>, s: Source)
    requires EvidenceBy(Evidence(patterns, reason, sources), patterns, reason, sources)
    requires |sources| in Shown(patterns, reason, sources + [s], |sources| + 1)
    ensures EvidenceAt(Evidence(patterns, reason, sources + [s]), patterns, reason, sources + [s], |sources|)
  {
    PlacesMore(patterns, reason, sources, s);
    EvidenceStep(patterns, reason, sources, s);
    Bounded(patterns, reason, sources);
    hide HitPlaces, Shown, Evidence;
  }

  lemma EvidenceStep(patterns: Patterns, reason: Reason, sources: seq<Source>, s: Source)
    ensures var (rest, snippet) := (Evidence(patterns, reason, sources), patterns.evidence(reason, s.text));
            Evidence(patterns, reason, sources + [s]) ==
            if IsHit(patterns, reason, s.text) && snippet != "" && |rest| < 3
            then rest + [Snippet(s.name, snippet)] else rest
  {
    assert (sources + [s])[..|sources|] == sources;
  }

  lemma EntryDescribed(patterns: Patterns, reason: Reason, sources: seq<Source>)
    ensures Describes(EntryFor(patterns, reason, sources), patterns, sources)
  {
    hide Occurrences, Labels, Evidence, Unique, HitPlaces, Shown;
    OccurrencesAre(patterns, reason, sources);
    LabelsAre(patterns, reason, sources);
    EvidenceAre(patterns, reason, sources);
  }

  // The names of the sources, in order, or the word for none.
  ghost predicate FoundNothing(ranked: seq<Entry>, sources: seq<Source>) {
    && |ranked| == 1 && ranked[0].reason == Unknown && ranked[0].occurrences == 1 && ranked[0].evidence == []
    && if sources == [] then ranked[0].sources == ["none"]
       else |ranked[0].sources| == |sources| && forall i :: 0 <= i < |sources| ==>
         ranked[0].sources[i] == sources[i].name
  }

  // A reason with more hits comes first, and among equals the one that is listed first.
  predicate ComesFirst(a: Entry, b: Entry) {
    || a.occurrences > b.occurrences
    || (a.occurrences == b.occurrences &&
        exists p, q :: 0 <= p < q < |ORDER| && ORDER[p] == a.reason && ORDER[q] == b.reason)
  }

  lemma IndexIsPlace(reason: Reason)
    ensures Index(reason) < |ORDER| && ORDER[Index(reason)] == reason
    ensures forall p :: 0 <= p < |ORDER| && ORDER[p] == reason ==> p == Index(reason)
  {
  }

  // A ranking has one entry for each reason that some source hits, described from the sources, and is
  // in order; if no source hits any reason it says so.
  lemma RankingMeans(ranked: seq<Entry>, patterns: Patterns, sources: seq<Source>)
    requires IsRanking(ranked, patterns, sources)
    ensures var found := exists reason, i :: i in HitPlaces(patterns, reason, sources, |sources|);
            if !found then FoundNothing(ranked, sources)
            else
              && (forall k :: 0 <= k < |ranked| ==> Describes(ranked[k], patterns, sources))
              && (forall reason :: HitPlaces(patterns, reason, sources, |sources|) != {} <==>
                    exists k :: 0 <= k < |ranked| && ranked[k].reason == reason)
              && forall j, k :: 0 <= j < k < |ranked| ==> ComesFirst(ranked[j], ranked[k])
  {
    hide Occurrences, HitPlaces, Ranked, EntryFor, Fallback, Describes, ComesFirst;
    forall reason
      ensures Occurrences(patterns, reason, sources) == |HitPlaces(patterns, reason, sources, |sources|)|
    {
      OccurrencesAre(patterns, reason, sources);
    }
    if NothingFound(patterns, sources) {
      forall reason
        ensures HitPlaces(patterns, reason, sources, |sources|) == {}
      {
        assert Occurrences(patterns, reason, sources) == 0;
      }
      FallbackMeans(sources);
    } else {
      var reason :| Occurrences(patterns, reason, sources) != 0;
      var i := SomeHit(patterns, reason, sources);
      RankedEntries(ranked, patterns, sources);
      RankedInOrder(ranked);
    }
  }

  lemma SomeHit(patterns: Patterns, reason: Reason, sources: seq<Source>) returns (i: int)
    requires |HitPlaces(patterns, reason, sources, |sources|)| > 0
    ensures i in HitPlaces(patterns, reason, sources, |sources|)
  {
    var hits := HitPlaces(patterns, reason, sources, |sources|);
    i :| i in hits;
  }

  lemma FallbackMeans(sources: seq<Source>)
    ensures FoundNothing([Fallback(sources)], sources)
  {
  }

  lemma RankedEntries(ranked: seq<Entry>, patterns: Patterns, sources: seq<Source>)
    requires IsRanking(ranked, patterns, sources) && !NothingFound(patterns, sources)
    ensures forall k :: 0 <= k < |ranked| ==> Describes(ranked[k], patterns, sources)
    ensures forall reason :: HitPlaces(patterns, reason, sources, |sources|) != {} <==>
              exists k :: 0 <= k < |ranked| && ranked[k].reason == reason
  {
    hide Occurrences, HitPlaces, Ranked, Describes, Labels, Evidence, Unique;
    forall k | 0 <= k < |ranked|
      ensures Describes(ranked[k], patterns, sources)
    {
      assert ranked[k] in ranked;
      EntryDescribed(patterns, ranked[k].reason, sources);
    }
    forall reason
      ensures HitPlaces(patterns, reason, sources, |sources|) != {} <==>
              exists k :: 0 <= k < |ranked| && ranked[k].reason == reason
    {
      OccurrencesAre(patterns, reason, sources);
      var e := EntryFor(patterns, reason, sources);
      if e.occurrences > 0 {
        assert e in ranked;
        var k :| 0 <= k < |ranked| && ranked[k] == e;
        assert ranked[k].reason == reason;
      }
      if k :| 0 <= k < |ranked| && ranked[k].reason == reason {
        assert ranked[k] in ranked;
      }
    }
  }

  lemma RankedInOrder(ranked: seq<Entry>)
    requires Ranked(ranked)
    ensures forall j, k :: 0 <= j < k < |ranked| ==> ComesFirst(ranked[j], ranked[k])
  {
    hide Index;
    forall j, k | 0 <= j < k < |ranked|
      ensures ComesFirst(ranked[j], ranked[k])
    {
      assert Before(ranked[j], ranked[k]);
      IndexIsPlace(ranked[j].reason);
      IndexIsPlace(ranked[k].reason);
    }
  }
}
