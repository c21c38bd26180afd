/** `mergeModelProfiles` of apps/host/src/services/model-registry.ts: one loop over all entries
    with a map that remembers insertion order. `Merged` is the reference: the entries grouped by
    id, each group combined on its own. */
module ModelMerge {
  import opened Options
  import opened Lists

  // `identity` stands for the fields a merge takes from the first entry: provider, model id,
  // names and base URL.
  datatype Profile = Profile(
    id: string,
    identity: string,
    supportsStreaming: bool,
    supportsToolUse: bool,
    supportsReasoningSummary: bool,
    supportsReasoningEffort: bool,
    supportsImages: bool,
    enabled: bool,
    isDefault: bool,
    defaultReasoningEffort: Option<string>,
    supportedReasoningEfforts: Option<seq<string>>,
    contextWindowTokens: Option<int>,
    autoCompactTokenLimit: Option<int>,
    catalogSource: Option<string>,
    degraded: Option<bool>,
    executorTypes: seq<string>,
    capabilities: seq<string>)

  // ??
  function OrElse<T>(a: Option<T>, b: Option<T>): Option<T> {
    if a.Some? then a else b
  }

  // && on values that may be undefined: the first one unless it is true.
  function Both(a: Option<bool>, b: Option<bool>): Option<bool> {
    if a == Some(true) then b else a
  }

  function Longer(a: Option<seq<string>>, b: Option<seq<string>>): Option<seq<string>> {
    if a.Some? && |a.value| > 0 then a else b
  }

  function Normal(m: Profile): Profile {
    m.(executorTypes := Unique(m.executorTypes), capabilities := Unique(m.capabilities))
  }

  function Combine(existing: Profile, m: Profile): Profile {
    existing.(
      supportsStreaming := existing.supportsStreaming || m.supportsStreaming,
      supportsToolUse := existing.supportsToolUse || m.supportsToolUse,
      supportsReasoningSummary := existing.supportsReasoningSummary || m.supportsReasoningSummary,
      supportsReasoningEffort := existing.supportsReasoningEffort || m.supportsReasoningEffort,
      supportsImages := existing.supportsImages || m.supportsImages,
      enabled := existing.enabled || m.enabled,
      isDefault := existing.isDefault || m.isDefault,
      defaultReasoningEffort := OrElse(existing.defaultReasoningEffort, m.defaultReasoningEffort),
      supportedReasoningEfforts := Longer(existing.supportedReasoningEfforts, m.supportedReasoningEfforts),
      contextWindowTokens := OrElse(existing.contextWindowTokens, m.contextWindowTokens),
      autoCompactTokenLimit := OrElse(existing.autoCompactTokenLimit, m.autoCompactTokenLimit),
      catalogSource := OrElse(existing.catalogSource, m.catalogSource),
      degraded := Both(existing.degraded, m.degraded),
      executorTypes := Unique(existing.executorTypes + m.executorTypes),
      capabilities := Unique(existing.capabilities + m.capabilities))
  }

  // ----- the reference

  function IdsOf(models: seq<Profile>): seq<string> {
    seq(|models|, i requires 0 <= i < |models| => models[i].id)
  }

  // The ids in the order of their first appearance.
  function Ids(models: seq<Profile>): seq<string> {
    Unique(IdsOf(models))
  }

  function Entries(models: seq<Profile>, id: string): (r: seq<Profile>)
    ensures |r| > 0 <==> id in IdsOf(models)
    ensures forall m :: m in r ==> m.id == id
  {
    if models == [] then []
    else
      var (rest, last) := (Entries(models[..|models| - 1], id), models[|models| - 1]);
      assert IdsOf(models) == IdsOf(models[..|models| - 1]) + [last.id];
      if last.id == id then rest + [last] else rest
  }

  lemma {:induction false} EntriesAre(models: seq<Profile>, id: string)
    ensures forall m :: m in Entries(models, id) <==> m in models && m.id == id
  {
    hide IdsOf;
    if models != [] {
      assert models == models[..|models| - 1] + [models[|models| - 1]];
      EntriesAre(models[..|models| - 1], id);
    }
  }

  function Group(entries: seq<Profile>): (m: Profile)
    requires |entries| > 0
    ensures m.id == entries[0].id
  {
    if |entries| == 1 then Normal(entries[0])
    else Combine(Group(entries[..|entries| - 1]), entries[|entries| - 1])
  }

  function Grouped(models: seq<Profile>): (r: seq<Profile>)
    ensures IdsOf(r) == Ids(models)
  {
    seq(|Ids(models)|, i requires 0 <= i < |Ids(models)| => Group(Entries(models, Ids(models)[i])))
  }

  function Enabled(models: seq<Profile>): (r: seq<Profile>)
    ensures forall m :: m in r <==> m in models && m.enabled
  {
    if models == [] then []
    else Enabled(models[..|models| - 1]) + (if models[|models| - 1].enabled then [models[|models| - 1]] else [])
  }

  function Merged(models: seq<Profile>): seq<Profile> {
    Enabled(Grouped(models))
  }

  // ----- the loop

  lemma EntriesMore(models: seq<Profile>, m: Profile, id: string)
    ensures Entries(models + [m], id) == if m.id == id then Entries(models, id) + [m] else Entries(models, id)
  {
    assert (models + [m])[..|models|] == models;
  }

  lemma IdsMore(models: seq<Profile>, m: Profile)
    ensures Ids(models + [m]) == if m.id in IdsOf(models) then Ids(models) else Ids(models) + [m.id]
  {
    hide Unique;
    assert IdsOf(models + [m]) == IdsOf(models) + [m.id];
    UniqueMore(IdsOf(models), m.id);
  }

  lemma NoIds()
    ensures Ids([]) == []
  {
  }

  lemma GroupMore(entries: seq<Profile>, m: Profile)
    ensures Group(entries + [m]) == if entries == [] then Normal(m) else Combine(Group(entries), m)
  {
    assert (entries + [m])[..|entries|] == entries;
  }

  lemma GroupsMore(models: seq<Profile>, m: Profile)
    ensures forall id :: id in Ids(models) && id != m.id ==>
            Group(Entries(models + [m], id)) == Group(Entries(models, id))
    ensures Group(Entries(models + [m], m.id)) ==
            if m.id in Ids(models) then Combine(Group(Entries(models, m.id)), m) else Normal(m)
    ensures m.id in Ids(models) <==> m.id in IdsOf(models)
  {
    hide Entries, Unique, Group, Combine, Normal;
    forall id
      ensures Entries(models + [m], id) == if m.id == id then Entries(models, id) + [m] else Entries(models, id)
    {
      EntriesMore(models, m, id);
    }
    GroupMore(Entries(models, m.id), m);
  }

  method MergeModelProfiles(models: seq<Profile>) returns (r: seq<Profile>)
    ensures r == Merged(models)
  {
    hide Entries, Unique, Group, Combine, IdsOf;
    NoIds();
    var order: seq<string> := [];
    var byId: map<string, Profile> := map[];
    for i := 0 to |models|
      invariant order == Ids(models[..i])
      invariant forall id :: id in byId <==> id in order
      invariant forall id :: id in byId ==> byId[id] == Group(Entries(models[..i], id))
    {
      var m := models[i];
      assert models[..i + 1] == models[..i] + [m];
      IdsMore(models[..i], m);
      GroupsMore(models[..i], m);
      if m.id !in byId {
        order := order + [m.id];
        byId := byId[m.id := m.(executorTypes := Unique(m.executorTypes), capabilities := Unique(m.capabilities))];
        assert byId[m.id] == Normal(m);
      } else {
        byId := byId[m.id := Combine(byId[m.id], m)];
      }
    }
    assert models[..|models|] == models;
    var values := seq(|order|, i requires 0 <= i < |order| => byId[order[i]]);
    assert values == Grouped(models);
    r := KeepEnabled(values);
  }

  method KeepEnabled(models: seq<Profile>) returns (r: seq<Profile>)
    ensures r == Enabled(models)
  {
    r := [];
    for i := 0 to |models|
      invariant r == Enabled(models[..i])
    {
      assert models[..i + 1][..i] == models[..i];
      if models[i].enabled {
        r := r + [models[i]];
      }
    }
    assert models[..|models|] == models;
  }

  // ----- what the reference means

  function Capabilities(entries: seq<Profile>): seq<string> {
    if entries == [] then [] else Capabilities(entries[..|entries| - 1]) + entries[|entries| - 1].capabilities
  }

  function ExecutorTypes(entries: seq<Profile>): seq<string> {
    if entries == [] then [] else ExecutorTypes(entries[..|entries| - 1]) + entries[|entries| - 1].executorTypes
  }

  // A group's lists are the deduplicated concatenations over all its entries, in order.
  lemma {:induction false} GroupLists(entries: seq<Profile>)
    requires |entries| > 0
    ensures Group(entries).capabilities == Unique(Capabilities(entries))
    ensures Group(entries).executorTypes == Unique(ExecutorTypes(entries))
  {
    hide Unique;
    var (init, last) := (entries[..|entries| - 1], entries[|entries| - 1]);
    if |entries| == 1 {
      assert Capabilities(init) == [] && ExecutorTypes(init) == [];
      assert [] + last.capabilities == last.capabilities && [] + last.executorTypes == last.executorTypes;
    } else {
      GroupLists(init);
      UniqueConcat(Capabilities(init), last.capabilities);
      UniqueConcat(ExecutorTypes(init), last.executorTypes);
    }
  }

  datatype Flag = Streaming | ToolUse | ReasoningSummary | ReasoningEffort | Images | IsEnabled | IsDefault

  predicate Has(m: Profile, flag: Flag) {
    match flag
    case Streaming => m.supportsStreaming
    case ToolUse => m.supportsToolUse
    case ReasoningSummary => m.supportsReasoningSummary
    case ReasoningEffort => m.supportsReasoningEffort
    case Images => m.supportsImages
    case IsEnabled => m.enabled
    case IsDefault => m.isDefault
  }

  // A flag is set exactly if some entry sets it.
  lemma {:induction false} GroupFlags(entries: seq<Profile>, flag: Flag)
    requires |entries| > 0
    ensures Has(Group(entries), flag) <==> exists i :: 0 <= i < |entries| && Has(entries[i], flag)
  {
    hide Unique, Has;
    if |entries| == 1 {
      NormalHas(entries[0], flag);
    } else {
      var (init, last) := (entries[..|entries| - 1], entries[|entries| - 1]);
      GroupFlags(init, flag);
      CombineHas(Group(init), last, flag);
      assert entries == init + [last];
    }
  }

  lemma NormalHas(m: Profile, flag: Flag)
    ensures Has(Normal(m), flag) == Has(m, flag)
  {
  }

  lemma CombineHas(a: Profile, b: Profile, flag: Flag)
    ensures Has(Combine(a, b), flag) <==> Has(a, flag) || Has(b, flag)
  {
  }

  datatype Value = Words(string) | Number(int) | List(seq<string>)
  datatype Field = DefaultEffort | SupportedEfforts | ContextWindow | CompactLimit | CatalogSource

  // The value of an optional field; a list of efforts counts as given only if there are any.
  function Given(m: Profile, field: Field): Option<Value> {
    match field
    case DefaultEffort => if m.defaultReasoningEffort.Some? then Some(Words(m.defaultReasoningEffort.value)) else None
    case SupportedEfforts =>
      if m.supportedReasoningEfforts.Some? && |m.supportedReasoningEfforts.value| > 0
      then Some(List(m.supportedReasoningEfforts.value)) else None
    case ContextWindow => if m.contextWindowTokens.Some? then Some(Number(m.contextWindowTokens.value)) else None
    case CompactLimit => if m.autoCompactTokenLimit.Some? then Some(Number(m.autoCompactTokenLimit.value)) else None
    case CatalogSource => if m.catalogSource.Some? then Some(Words(m.catalogSource.value)) else None
  }

  predicate FirstGivenAt(entries: seq<Profile>, field: Field, i: int) {
    0 <= i < |entries| && Given(entries[i], field).Some? && forall j :: 0 <= j < i ==> Given(entries[j], field).None?
  }

  // An optional field has the first value given for it, and none if none is given.
  lemma {:induction false} GroupOptions(entries: seq<Profile>, field: Field)
    requires |entries| > 0
    ensures Given(Group(entries), field).None? <==> forall i :: 0 <= i < |entries| ==> Given(entries[i], field).None?
    ensures forall i :: FirstGivenAt(entries, field, i) ==> Given(Group(entries), field) == Given(entries[i], field)
  {
    hide Unique, Given;
    if |entries| == 1 {
      NormalGiven(entries[0], field);
    } else {
      var (init, last) := (entries[..|entries| - 1], entries[|entries| - 1]);
      GroupOptions(init, field);
      CombineGiven(Group(init), last, field);
      assert entries == init + [last];
      forall i | FirstGivenAt(entries, field, i)
        ensures Given(Group(entries), field) == Given(entries[i], field)
      {
        if i < |init| {
          assert FirstGivenAt(init, field, i);
        }
      }
    }
  }

  lemma NormalGiven(m: Profile, field: Field)
    ensures Given(Normal(m), field) == Given(m, field)
  {
  }

  lemma CombineGiven(a: Profile, b: Profile, field: Field)
    ensures Given(Combine(a, b), field) == OrElse(Given(a, field), Given(b, field))
  {
  }

  // Identity comes from the first entry, and `degraded` holds only if every entry says so.
  lemma {:induction false} GroupIdentity(entries: seq<Profile>)
    requires |entries| > 0
    ensures Group(entries).identity == entries[0].identity
    ensures Group(entries).degraded == Some(true) <==>
            forall i :: 0 <= i < |entries| ==> entries[i].degraded == Some(true)
  {
    hide Unique;
    if |entries| > 1 {
      var (init, last) := (entries[..|entries| - 1], entries[|entries| - 1]);
      GroupIdentity(init);
      assert entries == init + [last];
    }
  }

  // The merged list holds the groups with an enabled entry.
  lemma {:induction false} MergedGroups(models: seq<Profile>)
    ensures forall m :: m in Merged(models) ==> m == Group(Entries(models, m.id)) && m.id in IdsOf(models)
    ensures forall id :: id in IdsOf(models) ==>
              (Group(Entries(models, id)) in Merged(models) <==> exists m :: m in models && m.id == id && m.enabled)
  {
    hide Unique, Entries, Group;
    var all := Grouped(models);
    forall id | id in IdsOf(models)
      ensures Group(Entries(models, id)) in all
      ensures Group(Entries(models, id)).enabled <==> exists m :: m in models && m.id == id && m.enabled
    {
      assert id in Ids(models);
      var i :| 0 <= i < |Ids(models)| && Ids(models)[i] == id;
      assert all[i] == Group(Entries(models, id));
      EnabledGroup(models, id);
    }
  }

  lemma {:induction false} EnabledGroup(models: seq<Profile>, id: string)
    requires id in IdsOf(models)
    ensures Group(Entries(models, id)).enabled <==> exists m :: m in models && m.id == id && m.enabled
  {
    hide Unique, Entries, Group;
    var entries := Entries(models, id);
    EntriesAre(models, id);
    GroupFlags(entries, IsEnabled);
    if m :| m in models && m.id == id && m.enabled {
      assert m in entries && Has(m, IsEnabled);
    }
    if i :| 0 <= i < |entries| && Has(entries[i], IsEnabled) {
      assert entries[i] in entries;
    }
  }

  // Some entry of the first id comes before every entry of the second.
  predicate FirstBefore(models: seq<Profile>, id: string, other: string) {
    exists p :: 0 <= p < |models| && models[p].id == id && other !in IdsOf(models)[..p + 1]
  }

  // What is kept of a list stays in its order.
  lemma {:induction false} EnabledOrder(models: seq<Profile>, i: int, j: int) returns (p: int, q: int)
    requires 0 <= i < j < |Enabled(models)|
    ensures 0 <= p < q < |models| && models[p] == Enabled(models)[i] && models[q] == Enabled(models)[j]
  {
    var (init, last) := (models[..|models| - 1], models[|models| - 1]);
    if j < |Enabled(init)| {
      p, q := EnabledOrder(init, i, j);
    } else {
      assert Enabled(init)[i] in Enabled(init);
      p :| 0 <= p < |init| && init[p] == Enabled(init)[i];
      q := |init|;
    }
  }

  lemma {:induction false} InOrder(models: seq<Profile>, i: int, j: int)
    requires 0 <= i < j < |Merged(models)|
    ensures Merged(models)[i].id != Merged(models)[j].id
    ensures FirstBefore(models, Merged(models)[i].id, Merged(models)[j].id)
  {
    hide Unique, Entries, Group, Enabled, FirstBefore;
    var all := Grouped(models);
    var p, q := EnabledOrder(all, i, j);
    assert IdsOf(all)[p] == all[p].id && IdsOf(all)[q] == all[q].id;
    UniqueOrder(IdsOf(models), p, q);
    AppearsFirst(models, all[p].id, all[q].id);
  }

  lemma AppearsFirst(models: seq<Profile>, id: string, other: string)
    requires exists p :: 0 <= p < |models| && IdsOf(models)[p] == id && other !in IdsOf(models)[..p + 1]
    ensures FirstBefore(models, id, other)
  {
    var p :| 0 <= p < |models| && IdsOf(models)[p] == id && other !in IdsOf(models)[..p + 1];
    assert models[p].id == id;
  }

  // The ids of the merged list are those with an enabled entry, each of them once, in the order
  // in which they first appear among the entries.
  lemma {:induction false} MergedIds(models: seq<Profile>)
    ensures forall id :: id in IdsOf(Merged(models)) <==> exists m :: m in models && m.id == id && m.enabled
    ensures Distinct(IdsOf(Merged(models)))
    ensures forall i, j :: 0 <= i < j < |Merged(models)| ==>
              FirstBefore(models, Merged(models)[i].id, Merged(models)[j].id)
  {
    hide Merged, Group, Entries, FirstBefore;
    forall i, j | 0 <= i < j < |Merged(models)|
      ensures Merged(models)[i].id != Merged(models)[j].id
      ensures FirstBefore(models, Merged(models)[i].id, Merged(models)[j].id)
    {
      InOrder(models, i, j);
    }
    forall id
      ensures id in IdsOf(Merged(models)) <==> exists m :: m in models && m.id == id && m.enabled
    {
      IdMerged(models, id);
    }
  }

  lemma {:induction false} IdMerged(models: seq<Profile>, id: string)
    ensures id in IdsOf(Merged(models)) <==> exists m :: m in models && m.id == id && m.enabled
  {
    hide Merged, Group;
    var (merged, ids) := (Merged(models), IdsOf(Merged(models)));
    MergedGroups(models);
    if id in ids {
      var i :| 0 <= i < |ids| && ids[i] == id;
      assert merged[i] in merged && merged[i].id == id;
    }
    if m :| m in models && m.id == id && m.enabled {
      var p :| 0 <= p < |models| && models[p] == m;
      assert IdsOf(models)[p] == id;
      var i :| 0 <= i < |merged| && merged[i] == Group(Entries(models, id));
      assert ids[i] == id;
    }
  }

  // ----- merging in stages

  lemma {:induction false} EntriesConcat(a: seq<Profile>, b: seq<Profile>, id: string)
    ensures Entries(a + b, id) == Entries(a, id) + Entries(b, id)
  {
    hide Entries;
    if b == [] {
      assert a + b == a;
      NoEntries(id);
      assert Entries(a, id) + [] == Entries(a, id);
    } else {
      var (init, last) := (b[..|b| - 1], b[|b| - 1]);
      EntriesConcat(a, init, id);
      assert a + b == (a + init) + [last] && b == init + [last];
      EntriesMore(a + init, last, id);
      EntriesMore(init, last, id);
      var (first, second) := (Entries(a, id), Entries(init, id));
      assert first + second + [last] == first + (second + [last]);
    }
  }

  lemma NoEntries(id: string)
    ensures Entries([], id) == []
  {
  }

  lemma {:induction false} NormalGroup(entries: seq<Profile>)
    requires |entries| > 0
    ensures Normal(Group(entries)) == Group(entries)
  {
    hide Unique;
    GroupLists(entries);
    UniqueTwice(Capabilities(entries));
    UniqueTwice(ExecutorTypes(entries));
  }

  // A group stands for its entries in any later merge.
  lemma {:induction false} GroupStandsIn(entries: seq<Profile>, more: seq<Profile>)
    requires |entries| > 0
    ensures Group([Group(entries)] + more) == Group(entries + more)
  {
    hide Combine, Normal;
    if more == [] {
      assert [Group(entries)] + more == [Group(entries)] && entries + more == entries;
      NormalGroup(entries);
    } else {
      var (init, last) := (more[..|more| - 1], more[|more| - 1]);
      GroupStandsIn(entries, init);
      assert [Group(entries)] + more == ([Group(entries)] + init) + [last] &&
             entries + more == (entries + init) + [last];
      GroupMore([Group(entries)] + init, last);
      GroupMore(entries + init, last);
    }
  }

  lemma IdsConcat(a: seq<Profile>, b: seq<Profile>)
    ensures Ids(a + b) == Unique(Ids(a) + IdsOf(b))
  {
    hide Unique;
    assert IdsOf(a + b) == IdsOf(a) + IdsOf(b);
    UniqueConcat(IdsOf(a), IdsOf(b));
  }

  // Grouping some of the entries beforehand makes no difference.
  lemma {:induction false} GroupedInStages(xs: seq<Profile>, ys: seq<Profile>)
    ensures Grouped(Grouped(xs) + ys) == Grouped(xs + ys)
  {
    hide Unique, Entries, Group;
    var first := Grouped(xs);
    IdsConcat(first, ys);
    IdsConcat(xs, ys);
    DistinctUnique(Ids(xs));
    assert Ids(first + ys) == Ids(xs + ys);
    forall i | 0 <= i < |Ids(xs + ys)|
      ensures Group(Entries(first + ys, Ids(xs + ys)[i])) == Group(Entries(xs + ys, Ids(xs + ys)[i]))
    {
      EntriesInStages(xs, ys, Ids(xs + ys)[i]);
    }
  }

  lemma EntriesInStages(xs: seq<Profile>, ys: seq<Profile>, id: string)
    requires id in IdsOf(xs + ys)
    ensures id in IdsOf(Grouped(xs) + ys)
    ensures Group(Entries(Grouped(xs) + ys, id)) == Group(Entries(xs + ys, id))
  {
    hide Unique, Entries, Group;
    assert IdsOf(xs + ys) == IdsOf(xs) + IdsOf(ys) && IdsOf(Grouped(xs) + ys) == Ids(xs) + IdsOf(ys);
    EntriesConcat(Grouped(xs), ys, id);
    EntriesConcat(xs, ys, id);
    EntriesOfGrouped(xs, id);
    if id in IdsOf(xs) {
      GroupStandsIn(Entries(xs, id), Entries(ys, id));
    } else {
      assert [] + Entries(ys, id) == Entries(ys, id);
    }
  }

  lemma {:induction false} EntriesOfGrouped(xs: seq<Profile>, id: string)
    ensures Entries(Grouped(xs), id) == if id in IdsOf(xs) then [Group(Entries(xs, id))] else []
  {
    hide Unique, Entries, Group;
    var all := Grouped(xs);
    if id in IdsOf(xs) {
      assert id in Ids(xs);
      var i :| 0 <= i < |Ids(xs)| && Ids(xs)[i] == id;
      assert IdsOf(all)[i] == all[i].id;
      OnlyEntry(all, i);
    } else {
      assert id !in IdsOf(all);
    }
  }

  lemma {:induction false} OnlyEntry(models: seq<Profile>, i: int)
    requires Distinct(IdsOf(models)) && 0 <= i < |models|
    ensures Entries(models, models[i].id) == [models[i]]
  {
    var (init, last) := (models[..|models| - 1], models[|models| - 1]);
    assert IdsOf(init) == IdsOf(models)[..|init|];
    if i == |init| {
      var ids := IdsOf(models);
      assert forall k :: 0 <= k < |init| ==> IdsOf(init)[k] == ids[k] != ids[i];
      assert models[i].id !in IdsOf(init);
    } else {
      OnlyEntry(init, i);
      assert IdsOf(models)[i] != IdsOf(models)[|init|];
    }
  }

  predicate EveryIdEnabled(xs: seq<Profile>) {
    forall id :: id in IdsOf(xs) ==> exists m :: m in xs && m.id == id && m.enabled
  }

  lemma {:induction false} AllKept(models: seq<Profile>)
    requires forall m :: m in models ==> m.enabled
    ensures Enabled(models) == models
  {
    if models != [] {
      var (init, last) := (models[..|models| - 1], models[|models| - 1]);
      assert models == init + [last];
      AllKept(init);
    }
  }

  // Merging a merged list with more entries is merging everything at once, whatever the further
  // entries are, exactly if no id of the first stage is lost for want of an enabled entry.
  lemma {:induction false} MergingInStages(xs: seq<Profile>)
    ensures (forall ys: seq<Profile> :: Merged(Merged(xs) + ys) == Merged(xs + ys)) <==> EveryIdEnabled(xs)
  {
    hide Unique, Entries, Group, Merged;
    if EveryIdEnabled(xs) {
      forall ys: seq<Profile>
        ensures Merged(Merged(xs) + ys) == Merged(xs + ys)
      {
        StagesAgree(xs, ys);
      }
    } else {
      var ys := StagesDiffer(xs);
      assert Merged(Merged(xs) + ys) != Merged(xs + ys);
    }
  }

  lemma {:induction false} StagesAgree(xs: seq<Profile>, ys: seq<Profile>)
    requires EveryIdEnabled(xs)
    ensures Merged(Merged(xs) + ys) == Merged(xs + ys)
  {
    hide Unique, Entries, Group;
    var all := Grouped(xs);
    forall m | m in all
      ensures m.enabled
    {
      var i :| 0 <= i < |all| && all[i] == m;
      assert Ids(xs)[i] in IdsOf(xs);
      EnabledGroup(xs, Ids(xs)[i]);
    }
    AllKept(all);
    GroupedInStages(xs, ys);
  }

  // An id disabled throughout is forgotten with its identity: a later enabled entry shows.
  lemma {:induction false} StagesDiffer(xs: seq<Profile>) returns (ys: seq<Profile>)
    requires !EveryIdEnabled(xs)
    ensures Merged(Merged(xs) + ys) != Merged(xs + ys)
  {
    hide Unique, Entries, Group, Merged;
    var id :| id in IdsOf(xs) && forall m :: m in xs && m.id == id ==> !m.enabled;
    var old' := Entries(xs, id)[0];
    var late := old'.(identity := old'.identity + "'", enabled := true);
    ys := [late];
    FirstEntry(xs, ys, id);
    var m := Group(Entries(xs + ys, id));
    assert late in xs + ys && id in IdsOf(xs + ys);
    MergedGroups(xs + ys);
    assert m in Merged(xs + ys);
    LostId(xs, id);
    EntriesConcat(Merged(xs), ys, id);
    OnlyEntry(ys, 0);
    assert [] + ys == ys;
    GroupIdentity(ys);
    MergedGroups(Merged(xs) + ys);
  }

  lemma FirstEntry(xs: seq<Profile>, ys: seq<Profile>, id: string)
    requires id in IdsOf(xs)
    ensures id in IdsOf(xs + ys)
    ensures var m := Group(Entries(xs + ys, id)); m.id == id && m.identity == Entries(xs, id)[0].identity
  {
    hide Unique, Entries, Group;
    assert IdsOf(xs + ys) == IdsOf(xs) + IdsOf(ys);
    EntriesConcat(xs, ys, id);
    GroupIdentity(Entries(xs + ys, id));
    assert Entries(xs + ys, id)[0] in Entries(xs + ys, id);
  }

  lemma {:induction false} LostId(xs: seq<Profile>, id: string)
    requires forall m :: m in xs && m.id == id ==> !m.enabled
    ensures Entries(Merged(xs), id) == []
  {
    hide Unique, Entries, Group;
    var entries := Entries(Merged(xs), id);
    if entries != [] {
      var m := entries[0];
      assert m in entries;
      MergedGroups(xs);
      EnabledGroup(xs, id);
    }
  }
}
