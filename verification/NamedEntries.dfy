/** merge_named_entries of scripts/sync-keycloak-demo-data.py: two lists of named entries merged. */
module NamedEntries {
  import opened Wrappers
  import opened Json

  /** An entry the reconciler can address: an object whose "name" is a string. */
  predicate IsNamed(j: Json) {
    j.Obj? && Get(j.fields, "name").Str?
  }

  type NamedEntry = j: Json | IsNamed(j)
    witness Obj(map["name" := Str("")])

  function NameOf(e: NamedEntry): string {
    Get(e.fields, "name").s
  }

  predicate AllNamed(xs: seq<Json>) {
    forall i :: 0 <= i < |xs| ==> IsNamed(xs[i])
  }

  predicate DistinctNames(xs: seq<NamedEntry>) {
    forall i, j :: 0 <= i < j < |xs| ==> NameOf(xs[i]) != NameOf(xs[j])
  }

  /** A list the code accepts: an array of named entries without a repeated name. */
  predicate WellNamed(j: Json) {
    j.Arr? && AllNamed(j.items) && DistinctNames(j.items)
  }

  /** The entry of that name, if any. */
  function Find(es: seq<NamedEntry>, name: string): Option<NamedEntry> {
    if es == [] then None
    else if NameOf(es[0]) == name then Some(es[0])
    else Find(es[1..], name)
  }

  /** `{**x, **e}` */
  function Overlaid(x: NamedEntry, e: NamedEntry): (r: NamedEntry)
    requires NameOf(x) == NameOf(e)
    ensures NameOf(r) == NameOf(x)
  {
    Obj(x.fields + e.fields)
  }

  /** What becomes of one live entry. */
  function Reconciled(x: NamedEntry, desired: seq<NamedEntry>): (r: NamedEntry)
    ensures NameOf(r) == NameOf(x)
  {
    FindNames(desired, NameOf(x));
    match Find(desired, NameOf(x))
    case None => x
    case Some(e) => Overlaid(x, e)
  }

  /** The desired entries whose name no live entry carries, in desired order. */
  function Fresh(desired: seq<NamedEntry>, live: seq<NamedEntry>): seq<NamedEntry> {
    if desired == [] then []
    else
      var last := desired[|desired| - 1];
      Fresh(desired[..|desired| - 1], live) + if Find(live, NameOf(last)).Some? then [] else [last]
  }

  /** Every live entry in its place, reconciled. */
  function ReconciledAll(live: seq<NamedEntry>, desired: seq<NamedEntry>): (r: seq<NamedEntry>)
    ensures |r| == |live|
    ensures forall i :: 0 <= i < |live| ==> r[i] == Reconciled(live[i], desired)
  {
    seq(|live|, i requires 0 <= i < |live| => Reconciled(live[i], desired))
  }

  /** The merge said in one breath: the live entries reconciled, then the new ones. */
  function Merged(live: seq<NamedEntry>, desired: seq<NamedEntry>): seq<NamedEntry> {
    ReconciledAll(live, desired) + Fresh(desired, live)
  }

  lemma {:induction false} FindNames(es: seq<NamedEntry>, name: string)
    ensures Find(es, name).Some? <==> exists i :: 0 <= i < |es| && NameOf(es[i]) == name
    ensures Find(es, name).Some? ==> Find(es, name).value in es && NameOf(Find(es, name).value) == name
  {
    if es != [] && NameOf(es[0]) != name {
      FindNames(es[1..], name);
      if i :| 0 <= i < |es| && NameOf(es[i]) == name {
        assert es[1..][i - 1] == es[i];
      }
    }
  }

  lemma {:induction false} FindAppend(es: seq<NamedEntry>, e: NamedEntry, name: string)
    ensures Find(es + [e], name) ==
            if Find(es, name).Some? then Find(es, name) else if NameOf(e) == name then Some(e) else None
  {
    if es == [] {
      assert es + [e] == [e];
    } else {
      assert (es + [e])[1..] == es[1..] + [e];
      FindAppend(es[1..], e, name);
    }
  }

  lemma {:induction false} FreshIsNew(desired: seq<NamedEntry>, live: seq<NamedEntry>)
    ensures forall e :: e in Fresh(desired, live) ==> e in desired && Find(live, NameOf(e)).None?
  {
    if desired != [] {
      FreshIsNew(desired[..|desired| - 1], live);
    }
  }

  lemma {:induction false} FreshStandsBehind(live: seq<NamedEntry>, before: seq<NamedEntry>)
    ensures forall i :: |live| <= i < |Merged(live, before)| ==> Merged(live, before)[i] in Fresh(before, live)
  {
  }

  /** An entry of e's name in the merge so far is a live one, as e's name is not yet desired. */
  lemma {:induction false} PlaceIsLive(live: seq<NamedEntry>, before: seq<NamedEntry>, e: NamedEntry, index: nat)
    requires Find(before, NameOf(e)).None?
    requires index < |Merged(live, before)| && NameOf(Merged(live, before)[index]) == NameOf(e)
    ensures index < |live| && NameOf(live[index]) == NameOf(e)
    ensures Find(live, NameOf(e)).Some? && Merged(live, before)[index] == live[index]
  {
    FreshIsNew(before, live);
    FindNames(before, NameOf(e));
    FindNames(live, NameOf(e));
    FreshStandsBehind(live, before);
  }

  /** One turn of the second loop: an entry replaced in place. */
  lemma {:induction false} MergeInPlace(live: seq<NamedEntry>, before: seq<NamedEntry>, e: NamedEntry, index: nat)
    requires Find(before, NameOf(e)).None?
    requires DistinctNames(live)
    requires index < |Merged(live, before)| && NameOf(Merged(live, before)[index]) == NameOf(e)
    ensures Merged(live, before + [e]) == Merged(live, before)[index := Overlaid(Merged(live, before)[index], e)]
  {
    PlaceIsLive(live, before, e, index);
    assert (before + [e])[..|before|] == before;
    var now, old_ := ReconciledAll(live, before + [e]), ReconciledAll(live, before);
    forall i | 0 <= i < |live| ensures now[i] == if i == index then Overlaid(live[i], e) else old_[i] {
      FindAppend(before, e, NameOf(live[i]));
      assert i < index ==> NameOf(live[i]) != NameOf(live[index]);
      assert i > index ==> NameOf(live[index]) != NameOf(live[i]);
    }
    assert now == old_[index := Overlaid(live[index], e)];
  }

  /** One turn of the second loop: an entry appended. */
  lemma {:induction false} MergeAppends(live: seq<NamedEntry>, before: seq<NamedEntry>, e: NamedEntry)
    requires forall x :: x in Merged(live, before) ==> NameOf(x) != NameOf(e)
    ensures Merged(live, before + [e]) == Merged(live, before) + [e]
  {
    var m := Merged(live, before);
    forall i | 0 <= i < |live| ensures NameOf(live[i]) != NameOf(e)
    {
      assert m[i] == Reconciled(live[i], before) && m[i] in m;
    }
    FindNames(live, NameOf(e));
    assert (before + [e])[..|before|] == before;
    assert Fresh(before + [e], live) == Fresh(before, live) + [e];
    forall i | 0 <= i < |live| ensures Reconciled(live[i], before + [e]) == m[i]
    {
      FindAppend(before, e, NameOf(live[i]));
    }
    assert Merged(live, before + [e]) == m + [e];
  }

  /** The index agrees with the list: each name is filed under its only position. */
  ghost predicate Indexes(positions: map<string, nat>, xs: seq<NamedEntry>) {
    && (forall i :: 0 <= i < |xs| ==> NameOf(xs[i]) in positions && positions[NameOf(xs[i])] == i)
    && (forall n :: n in positions ==> positions[n] < |xs| && NameOf(xs[positions[n]]) == n)
  }

  /** First loop of merge_named_entries: index the live list, or fail on a malformed or repeated entry. */
  method IndexEntries(xs: seq<Json>) returns (r: Result<map<string, nat>>)
    ensures r.Ok? <==> AllNamed(xs) && DistinctNames(xs)
    ensures r.Ok? ==> Indexes(r.value, xs)
  {
    var positions: map<string, nat> := map[];
    for index := 0 to |xs|
      invariant AllNamed(xs[..index]) && DistinctNames(xs[..index]) && Indexes(positions, xs[..index])
    {
      var entry := xs[index];
      if !IsNamed(entry) {
        return Err;
      }
      if NameOf(entry) in positions {
        assert NameOf(xs[..index][positions[NameOf(entry)]]) == NameOf(entry);
        return Err;
      }
      assert xs[..index + 1] == xs[..index] + [entry];
      positions := positions[NameOf(entry) := index];
    }
    assert xs[..|xs|] == xs;
    return Ok(positions);
  }

  /** Body of the second loop: replace the entry of that name in place, or append a new one. */
  method PlaceEntry(positions: map<string, nat>, merged: seq<NamedEntry>, entry: NamedEntry,
                    ghost live: seq<NamedEntry>, ghost before: seq<NamedEntry>)
    returns (positions': map<string, nat>, merged': seq<NamedEntry>)
    requires DistinctNames(live) && Find(before, NameOf(entry)).None?
    requires merged == Merged(live, before) && Indexes(positions, merged)
    ensures merged' == Merged(live, before + [entry]) && Indexes(positions', merged')
  {
    var name := NameOf(entry);
    if name !in positions {
      MergeAppends(live, before, entry);
      return positions[name := |merged|], merged + [entry];
    } else {
      var index := positions[name];
      MergeInPlace(live, before, entry, index);
      return positions, merged[index := Overlaid(merged[index], entry)];
    }
  }

  /** merge_named_entries: the list and the name index are updated together. */
  method MergeNamedEntries(current: Json, desired: Json) returns (r: Result<seq<Json>>)
    ensures r.Ok? <==> WellNamed(current) && WellNamed(desired)
    ensures r.Ok? ==> r.value == Merged(current.items, desired.items)
  {
    if !current.Arr? || !desired.Arr? {
      return Err;
    }
    var indexed := IndexEntries(current.items);
    if indexed.Err? {
      return Err;
    }
    var positions: map<string, nat> := indexed.value;
    var live: seq<NamedEntry> := current.items;
    var merged: seq<NamedEntry> := live;
    ghost var before: seq<NamedEntry> := [];
    assert ReconciledAll(live, []) == live && Merged(live, []) == live;
    hide Merged, Indexes, ReconciledAll, Find, DistinctNames;
    NothingDesired();
    var desiredNames: set<string> := {};
    for k := 0 to |desired.items|
      invariant before == desired.items[..k] && DistinctNames(before)
      invariant forall n :: n in desiredNames <==> Find(before, n).Some?
      invariant merged == Merged(live, before) && Indexes(positions, merged)
    {
      var entry := desired.items[k];
      if !IsNamed(entry) {
        return Err;
      }
      var name := NameOf(entry);
      NamesGrow(before, entry, desiredNames);
      if name in desiredNames {
        RepeatedName(desired.items, before, entry);
        return Err;
      }
      desiredNames := desiredNames + {name};
      positions, merged := PlaceEntry(positions, merged, entry, live, before);
      before := before + [entry];
      assert desired.items[..k + 1] == before;
    }
    assert desired.items[..|desired.items|] == desired.items;
    return Ok(merged);
  }

  lemma {:induction false} NothingDesired()
    ensures DistinctNames([]) && forall n :: Find([], n).None?
  {
  }

  lemma {:induction false} NamesGrow(before: seq<NamedEntry>, e: NamedEntry, names: set<string>)
    requires forall n :: n in names <==> Find(before, n).Some?
    ensures forall n :: n in names + {NameOf(e)} <==> Find(before + [e], n).Some?
    ensures DistinctNames(before) && NameOf(e) !in names ==> DistinctNames(before + [e])
  {
    FindNames(before, NameOf(e));
    forall n ensures n in names + {NameOf(e)} <==> Find(before + [e], n).Some? {
      FindAppend(before, e, n);
    }
    hide Find, NameOf;
  }

  lemma {:induction false} RepeatedName(all: seq<Json>, before: seq<NamedEntry>, e: NamedEntry)
    requires |before| < |all| && before == all[..|before|] && all[|before|] == e
    requires Find(before, NameOf(e)).Some?
    ensures !(AllNamed(all) && DistinctNames(all))
  {
    FindNames(before, NameOf(e));
    var i :| 0 <= i < |before| && NameOf(before[i]) == NameOf(e);
    assert all[i] == before[i];
  }

  /** x is the entry of e's name and has every desired key at its desired value. */
  ghost predicate Carries(x: NamedEntry, e: NamedEntry) {
    NameOf(x) == NameOf(e) && forall key :: key in e.fields ==> key in x.fields && x.fields[key] == e.fields[key]
  }

  /** What the merge promises: live entries keep their places and every key they do not share
      with the desired entry of their name; desired keys get their desired values; the new
      names follow in desired order; names stay distinct. */
  lemma {:induction false} MergeKeepsAndSets(live: seq<NamedEntry>, desired: seq<NamedEntry>)
    requires DistinctNames(live) && DistinctNames(desired)
    ensures var r := Merged(live, desired);
      && |r| >= |live| && DistinctNames(r)
      && r[|live|..] == Fresh(desired, live)
      && (forall i :: 0 <= i < |live| ==> NameOf(r[i]) == NameOf(live[i]))
      && (forall i, key :: 0 <= i < |live| && key in live[i].fields ==>
            key in r[i].fields && (r[i].fields[key] == live[i].fields[key]
              || exists e :: e in desired && NameOf(e) == NameOf(live[i]) && key in e.fields))
      && (forall e :: e in desired ==>
            exists i :: 0 <= i < |r| && Carries(r[i], e))
  {
    var r := Merged(live, desired);
    FreshIsNew(desired, live);
    FreshDistinct(desired, live);
    forall i, j | 0 <= i < j < |r| ensures NameOf(r[i]) != NameOf(r[j]) {
      if i < |live| <= j {
        assert r[j] in Fresh(desired, live);
        FindNames(live, NameOf(r[j]));
        assert NameOf(live[i]) == NameOf(r[i]);
      }
    }
    forall i | 0 <= i < |live| ensures NameOf(r[i]) == NameOf(live[i])
    {
      FindNames(desired, NameOf(live[i]));
    }
    forall i, key | 0 <= i < |live| && key in live[i].fields
      ensures key in r[i].fields && (r[i].fields[key] == live[i].fields[key]
              || exists e :: e in desired && NameOf(e) == NameOf(live[i]) && key in e.fields)
    {
      FindNames(desired, NameOf(live[i]));
    }
    forall e | e in desired
      ensures exists i :: 0 <= i < |r| && Carries(r[i], e)
    {
      DesiredIsPlaced(live, desired, e);
    }
  }

  lemma {:induction false} DesiredIsPlaced(live: seq<NamedEntry>, desired: seq<NamedEntry>, e: NamedEntry)
    requires DistinctNames(live) && DistinctNames(desired) && e in desired
    ensures exists i :: 0 <= i < |Merged(live, desired)| && Carries(Merged(live, desired)[i], e)
  {
    var r := Merged(live, desired);
    FindNames(live, NameOf(e));
    FindNames(desired, NameOf(e));
    if i :| 0 <= i < |live| && NameOf(live[i]) == NameOf(e) {
      assert r[i] == Reconciled(live[i], desired) == Overlaid(live[i], e);
      assert Carries(r[i], e);
    } else {
      NewIsFresh(desired, live, e);
      var k :| 0 <= k < |Fresh(desired, live)| && Fresh(desired, live)[k] == e;
      assert r[|live| + k] == e && Carries(r[|live| + k], e);
    }
  }

  lemma {:induction false} NewIsFresh(desired: seq<NamedEntry>, live: seq<NamedEntry>, e: NamedEntry)
    requires e in desired && Find(live, NameOf(e)).None?
    ensures e in Fresh(desired, live)
  {
    if e != desired[|desired| - 1] {
      NewIsFresh(desired[..|desired| - 1], live, e);
    }
  }

  lemma {:induction false} FreshDistinct(desired: seq<NamedEntry>, live: seq<NamedEntry>)
    requires DistinctNames(desired)
    ensures DistinctNames(Fresh(desired, live))
  {
    if desired != [] {
      var n := |desired| - 1;
      FreshDistinct(desired[..n], live);
      FreshIsNew(desired[..n], live);
    }
  }

  /** An entry the merge has produced is not changed by reconciling it again. */
  lemma {:induction false} ReconciledIsStable(live: seq<NamedEntry>, desired: seq<NamedEntry>, i: nat)
    requires DistinctNames(desired) && i < |Merged(live, desired)|
    ensures Reconciled(Merged(live, desired)[i], desired) == Merged(live, desired)[i]
  {
    var x := Merged(live, desired)[i];
    FindNames(desired, NameOf(x));
    if i >= |live| {
      FreshIsNew(desired, live);
      assert x in Fresh(desired, live);
      assert Find(desired, NameOf(x)) == Some(x);
    } else {
      assert NameOf(x) == NameOf(live[i]);
    }
  }

  /** Merging the same entries again changes nothing. */
  lemma {:induction false} MergeIsIdempotent(live: seq<NamedEntry>, desired: seq<NamedEntry>)
    requires DistinctNames(live) && DistinctNames(desired)
    ensures Merged(Merged(live, desired), desired) == Merged(live, desired)
  {
    var r := Merged(live, desired);
    forall e | e in desired ensures exists i :: 0 <= i < |r| && NameOf(r[i]) == NameOf(e) {
      DesiredIsPlaced(live, desired, e);
      var i :| 0 <= i < |r| && Carries(r[i], e);
    }
    NothingFresh(desired, r);
    forall i | 0 <= i < |r| ensures Reconciled(r[i], desired) == r[i] {
      ReconciledIsStable(live, desired, i);
    }
    assert ReconciledAll(r, desired) == r;
  }

  lemma {:induction false} NothingFresh(desired: seq<NamedEntry>, live: seq<NamedEntry>)
    requires forall e :: e in desired ==> exists i :: 0 <= i < |live| && NameOf(live[i]) == NameOf(e)
    ensures Fresh(desired, live) == []
  {
    if desired != [] {
      var e := desired[|desired| - 1];
      assert e in desired;
      FindNames(live, NameOf(e));
      NothingFresh(desired[..|desired| - 1], live);
    }
  }
}
