/** The part of the HTML report exporter that decides what the report lists:
    the confirmed and unconfirmed profiles, the source each unconfirmed
    profile came from, and the unconfirmed profiles grouped by source with
    the `sherlock` group first. Rendering the template, the clock and the
    best-effort `_source` attribute are outside the model. */
module ReportGrouping {
  import opened PyText
  import opened Values
  import opened Domain
  import opened Seqs

  /** `[p for p in profiles if p.existe]` and `[p for p in profiles if not p.existe]`
      split the profiles: their counts add up to the total, together they
      hold every profile as often as the list does, each holds exactly the
      profiles of its kind, and each keeps the list's order. */
  lemma PartitionSplits(profiles: seq<SocialProfile>)
    ensures |Filter(profiles, IsConfirmed)| + |Filter(profiles, IsUnconfirmed)| == |profiles|
    ensures multiset(Filter(profiles, IsConfirmed)) + multiset(Filter(profiles, IsUnconfirmed)) == multiset(profiles)
    ensures forall p :: p in Filter(profiles, IsConfirmed) <==> p in profiles && p.existe
    ensures forall p :: p in Filter(profiles, IsUnconfirmed) <==> p in profiles && !p.existe
    ensures IsSubsequence(Filter(profiles, IsConfirmed), profiles)
    ensures IsSubsequence(Filter(profiles, IsUnconfirmed), profiles)
  {
    FilterPartition(profiles, IsConfirmed, IsUnconfirmed);
    FilterIsSubsequence(profiles, IsConfirmed);
    FilterIsSubsequence(profiles, IsUnconfirmed);
  }

  /** `_source_for_profile(profile)`: `str(metadata["source"])` when that
      value is truthy, `"unknown"` otherwise. */
  function SourceLabel(p: SocialProfile): (r: string)
    ensures Truthy(Get(p.metadata, "source")) ==> r == Str(p.metadata["source"])
    ensures !Truthy(Get(p.metadata, "source")) ==> r == "unknown"
  {
    var v := Get(p.metadata, "source");
    if Truthy(v) then Str(v) else "unknown"
  }

  // The grouping is stated for any labelling of any items; the report
  // groups profiles by `SourceLabel`.

  /** The items of `xs` whose label is `key`, in their order. */
  function Group<T(!new)>(xs: seq<T>, labelOf: T -> string, key: string): seq<T>
    decreases |xs|
  {
    if xs == [] then []
    else Group(xs[..|xs| - 1], labelOf, key) + (if labelOf(xs[|xs| - 1]) == key then [xs[|xs| - 1]] else [])
  }

  /** A group holds exactly the items with its label. */
  lemma {:induction false} GroupMembers<T(!new)>(xs: seq<T>, labelOf: T -> string, key: string)
    ensures forall p :: p in Group(xs, labelOf, key) <==> p in xs && labelOf(p) == key
    decreases |xs|
  {
    if xs != [] {
      var init := xs[..|xs| - 1];
      GroupMembers(init, labelOf, key);
      assert xs == init + [xs[|xs| - 1]];
    }
  }

  /** A group keeps the order of the list it is drawn from. */
  lemma {:induction false} GroupIsSubsequence<T(!new)>(xs: seq<T>, labelOf: T -> string, key: string)
    ensures IsSubsequence(Group(xs, labelOf, key), xs)
    decreases |xs|
  {
    if xs != [] {
      var init := xs[..|xs| - 1];
      var last := xs[|xs| - 1];
      GroupIsSubsequence(init, labelOf, key);
      SubsequenceAppend(Group(init, labelOf, key), init, if labelOf(last) == key then [last] else [], [last]);
      assert init + [last] == xs;
    }
  }

  /** The labels of the items of `xs`. */
  function Labels<T(!new)>(xs: seq<T>, labelOf: T -> string): set<string>
    decreases |xs|
  {
    if xs == [] then {} else Labels(xs[..|xs| - 1], labelOf) + {labelOf(xs[|xs| - 1])}
  }

  /** A label is among the labels exactly when some item has it. */
  lemma {:induction false} LabelsMeaning<T(!new)>(xs: seq<T>, labelOf: T -> string)
    ensures forall key :: key in Labels(xs, labelOf) <==> exists i :: 0 <= i < |xs| && labelOf(xs[i]) == key
    decreases |xs|
  {
    if xs != [] {
      var init := xs[..|xs| - 1];
      LabelsMeaning(init, labelOf);
      assert forall i :: 0 <= i < |init| ==> init[i] == xs[i];
    }
  }

  /** `groups` holds one group per label that occurs in `xs`, and each holds
      the items with that label in their order. */
  ghost predicate GroupsOf<T(!new)>(groups: map<string, seq<T>>, xs: seq<T>, labelOf: T -> string) {
    groups.Keys == Labels(xs, labelOf) && forall key :: key in groups ==> groups[key] == Group(xs, labelOf, key)
  }

  /** `groups.setdefault(labelOf(p), []).append(p)`, on values. */
  function AddToGroup<T>(groups: map<string, seq<T>>, labelOf: T -> string, p: T): map<string, seq<T>> {
    var key := labelOf(p);
    groups[key := (if key in groups then groups[key] else []) + [p]]
  }

  /** A label that no item of `xs` has has an empty group. */
  lemma {:induction false} AbsentGroup<T(!new)>(xs: seq<T>, labelOf: T -> string, key: string)
    requires key !in Labels(xs, labelOf)
    ensures Group(xs, labelOf, key) == []
    decreases |xs|
  {
    if xs != [] {
      AbsentGroup(xs[..|xs| - 1], labelOf, key);
    }
  }

  /** Adding the last item of `ys` to its group turns the groups of the
      others into those of `ys`. */
  lemma GroupsOfAdd<T(!new)>(groups: map<string, seq<T>>, ys: seq<T>, labelOf: T -> string)
    requires ys != [] && GroupsOf(groups, ys[..|ys| - 1], labelOf)
    ensures GroupsOf(AddToGroup(groups, labelOf, ys[|ys| - 1]), ys, labelOf)
  {
    var key := labelOf(ys[|ys| - 1]);
    if key !in groups {
      AbsentGroup(ys[..|ys| - 1], labelOf, key);
    }
  }

  /** The `unconfirmed_by_source_map.setdefault(source, []).append(p)` loop. */
  method GroupBy<T(!new)>(xs: seq<T>, labelOf: T -> string) returns (groups: map<string, seq<T>>)
    ensures GroupsOf(groups, xs, labelOf)
  {
    groups := map[];
    for k := 0 to |xs|
      invariant GroupsOf(groups, xs[..k], labelOf)
    {
      var p := xs[k];
      ghost var prefix := xs[..k + 1];
      assert prefix[..k] == xs[..k] && prefix[k] == p;
      GroupsOfAdd(groups, prefix, labelOf);
      groups := AddToGroup(groups, labelOf, p);
    }
    assert xs[..|xs|] == xs;
  }

  /** The sort key `(source != "sherlock", source)`: `sherlock` before every
      other source, the others in ascending order. */
  predicate SourceKeyLt(a: string, b: string) {
    (a == "sherlock" && b != "sherlock") || ((a == "sherlock") == (b == "sherlock") && StrLt(a, b))
  }

  /** The sources in the order of the sort key. */
  function OrderedSources(sources: set<string>): (r: seq<string>)
    ensures |r| == |sources|
    ensures forall s :: s in r <==> s in sources
    ensures forall i, j :: 0 <= i < j < |r| ==> SourceKeyLt(r[i], r[j])
  {
    if "sherlock" in sources then
      var rest := SortedSet(sources - {"sherlock"});
      assert forall k :: 0 <= k < |rest| ==> rest[k] != "sherlock" by {
        forall k | 0 <= k < |rest| ensures rest[k] != "sherlock" {
          assert rest[k] in rest;
        }
      }
      ["sherlock"] + rest
    else
      var r := SortedSet(sources);
      assert forall k :: 0 <= k < |r| ==> r[k] != "sherlock" by {
        forall k | 0 <= k < |r| ensures r[k] != "sherlock" {
          assert r[k] in r;
        }
      }
      r
  }

  /** The `(key, group)` pairs for the keys in `order`. */
  function Pairs<T>(order: seq<string>, groups: map<string, seq<T>>): (r: seq<(string, seq<T>)>)
    requires forall i :: 0 <= i < |order| ==> order[i] in groups
    ensures |r| == |order|
    ensures forall i :: 0 <= i < |r| ==> r[i] == (order[i], groups[order[i]])
  {
    if order == [] then [] else [(order[0], groups[order[0]])] + Pairs(order[1..], groups)
  }

  /** `sorted(map.items(), key=lambda kv: (kv[0] != "sherlock", kv[0]))`. */
  function SortedGroups<T>(groups: map<string, seq<T>>): (r: seq<(string, seq<T>)>)
    ensures |r| == |groups|
    ensures forall i :: 0 <= i < |r| ==> r[i].0 in groups && r[i].1 == groups[r[i].0]
    ensures forall i, j :: 0 <= i < j < |r| ==> SourceKeyLt(r[i].0, r[j].0)
  {
    var order := OrderedSources(groups.Keys);
    assert forall i :: 0 <= i < |order| ==> order[i] in groups by {
      forall i | 0 <= i < |order| ensures order[i] in groups {
        assert order[i] in order;
      }
    }
    Pairs(order, groups)
  }

  /** Every group appears among the sorted pairs. */
  lemma SortedGroupsCover<T>(groups: map<string, seq<T>>, key: string)
    requires key in groups
    ensures exists i :: 0 <= i < |SortedGroups(groups)| && SortedGroups(groups)[i].0 == key
  {
    var order := OrderedSources(groups.Keys);
    var i :| 0 <= i < |order| && order[i] == key;
    assert forall j :: 0 <= j < |order| ==> order[j] in groups by {
      forall j | 0 <= j < |order| ensures order[j] in groups {
        assert order[j] in order;
      }
    }
    assert SortedGroups(groups) == Pairs(order, groups);
    assert SortedGroups(groups)[i].0 == key;
  }

  /** What `render_person_html` hands the template about the profiles. */
  datatype ReportLists = ReportLists(
    total: nat,
    confirmed: seq<SocialProfile>,
    confirmedCount: nat,
    unconfirmedCount: nat,
    unconfirmedBySource: seq<(string, seq<SocialProfile>)>)

  /** The profile lists of `render_person_html(person=...)`. */
  method ReportListsOf(profiles: seq<SocialProfile>) returns (r: ReportLists)
    ensures r.total == |profiles| && r.confirmed == Filter(profiles, IsConfirmed)
    ensures r.confirmedCount == |r.confirmed| && r.confirmedCount + r.unconfirmedCount == r.total
    // Each group lists a source's unconfirmed profiles in their order, and
    // the groups are ordered by the sort key.
    ensures forall i :: 0 <= i < |r.unconfirmedBySource| ==>
              r.unconfirmedBySource[i].1 == Group(Filter(profiles, IsUnconfirmed), SourceLabel, r.unconfirmedBySource[i].0)
    ensures forall i, j :: 0 <= i < j < |r.unconfirmedBySource| ==>
              SourceKeyLt(r.unconfirmedBySource[i].0, r.unconfirmedBySource[j].0)
    // The sources listed are exactly those of the unconfirmed profiles.
    ensures forall i :: 0 <= i < |r.unconfirmedBySource| ==>
              r.unconfirmedBySource[i].0 in Labels(Filter(profiles, IsUnconfirmed), SourceLabel)
    ensures forall key :: key in Labels(Filter(profiles, IsUnconfirmed), SourceLabel) ==>
              exists i :: 0 <= i < |r.unconfirmedBySource| && r.unconfirmedBySource[i].0 == key
  {
    var confirmed := Filter(profiles, IsConfirmed);
    var unconfirmed := Filter(profiles, IsUnconfirmed);
    FilterPartition(profiles, IsConfirmed, IsUnconfirmed);
    var groups := GroupBy(unconfirmed, SourceLabel);
    var bySource := SortedGroups(groups);
    forall key | key in Labels(unconfirmed, SourceLabel)
      ensures exists i :: 0 <= i < |bySource| && bySource[i].0 == key {
      SortedGroupsCover(groups, key);
    }
    r := ReportLists(|profiles|, confirmed, |confirmed|, |unconfirmed|, bySource);
  }

  /** An element of `xs` whose label has an entry sits in that entry's group. */
  lemma ListedInGroup<T(!new)>(xs: seq<T>, labelOf: T -> string, listed: seq<(string, seq<T>)>, p: T)
    requires forall i :: 0 <= i < |listed| ==> listed[i].1 == Group(xs, labelOf, listed[i].0)
    requires forall key :: key in Labels(xs, labelOf) ==>
               exists i :: 0 <= i < |listed| && listed[i].0 == key
    requires p in xs
    ensures exists i :: 0 <= i < |listed| && listed[i].0 == labelOf(p) && p in listed[i].1
  {
    var k :| 0 <= k < |xs| && xs[k] == p;
    LabelsMeaning(xs, labelOf);
    assert labelOf(xs[k]) in Labels(xs, labelOf);
    var i :| 0 <= i < |listed| && listed[i].0 == labelOf(p);
    GroupMembers(xs, labelOf, labelOf(p));
  }

  /** Every unconfirmed profile is listed, in the group of its own source. */
  lemma UnconfirmedAllListed(profiles: seq<SocialProfile>, bySource: seq<(string, seq<SocialProfile>)>,
                             p: SocialProfile)
    requires forall i :: 0 <= i < |bySource| ==>
               bySource[i].1 == Group(Filter(profiles, IsUnconfirmed), SourceLabel, bySource[i].0)
    requires forall key :: key in Labels(Filter(profiles, IsUnconfirmed), SourceLabel) ==>
               exists i :: 0 <= i < |bySource| && bySource[i].0 == key
    requires p in profiles && !p.existe
    ensures exists i :: 0 <= i < |bySource| && bySource[i].0 == SourceLabel(p) && p in bySource[i].1
  {
    assert IsUnconfirmed(p);
    ListedInGroup(Filter(profiles, IsUnconfirmed), SourceLabel, bySource, p);
  }

  /** A listed group of elements of `xs` is never empty. */
  lemma GroupsNonEmpty<T(!new)>(xs: seq<T>, labelOf: T -> string, listed: seq<(string, seq<T>)>)
    requires forall i :: 0 <= i < |listed| ==>
               listed[i].1 == Group(xs, labelOf, listed[i].0) && listed[i].0 in Labels(xs, labelOf)
    ensures forall i :: 0 <= i < |listed| ==> listed[i].1 != []
  {
    LabelsMeaning(xs, labelOf);
    forall i | 0 <= i < |listed| ensures listed[i].1 != [] {
      var k :| 0 <= k < |xs| && labelOf(xs[k]) == listed[i].0;
      GroupMembers(xs, labelOf, listed[i].0);
      assert xs[k] in listed[i].1;
    }
  }

  /** No listed source has an empty group. */
  lemma ListedGroupsNonEmpty(profiles: seq<SocialProfile>, bySource: seq<(string, seq<SocialProfile>)>)
    requires forall i :: 0 <= i < |bySource| ==>
               bySource[i].1 == Group(Filter(profiles, IsUnconfirmed), SourceLabel, bySource[i].0)
               && bySource[i].0 in Labels(Filter(profiles, IsUnconfirmed), SourceLabel)
    ensures forall i :: 0 <= i < |bySource| ==> bySource[i].1 != []
  {
    GroupsNonEmpty(Filter(profiles, IsUnconfirmed), SourceLabel, bySource);
  }
}
