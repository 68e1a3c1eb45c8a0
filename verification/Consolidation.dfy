/**
 Consolidation of similar memories: groups are merged into a new entry, and each member keeps a
 link to it.  Search results, summaries, generated ids and store faults are arbitrary.
 */
module Consolidation {
  import opened Prelude

  /** `born` numbers the entries in the order they were created. */
  datatype Entry = Entry(born: nat, mergedInto: Option<string>, content: string)

  type Entries = map<string, Entry>

  // ---- The merge graph ----

  ghost predicate LinkForward(entries: Entries, id: string)
    requires id in entries
  {
    entries[id].mergedInto.Some? ==>
      var target := entries[id].mergedInto.value;
      target in entries && entries[id].born < entries[target].born
  }

  /** Every link points to an entry that exists and was created later. */
  ghost predicate Forward(entries: Entries) {
    forall id :: id in entries ==> LinkForward(entries, id)
  }

  ghost predicate Dated(entries: Entries, created: nat) {
    forall id :: id in entries ==> entries[id].born < created
  }

  /** Where following the links from `id` ends. */
  ghost function Final(entries: Entries, created: nat, id: string): (r: string)
    requires Forward(entries) && Dated(entries, created) && id in entries
    ensures r in entries && entries[r].mergedInto.None? && entries[id].born <= entries[r].born
    decreases created - entries[id].born
  {
    assert LinkForward(entries, id);
    if entries[id].mergedInto.None? then id else Final(entries, created, entries[id].mergedInto.value)
  }

  // ---- Merging one group ----

  function Link(entries: Entries, target: string, id: string): Entry
    requires id in entries
  {
    entries[id].(mergedInto := Some(target))
  }

  /** The members are linked to the target, except those whose update fails. */
  function Linked(entries: Entries, ids: seq<string>, stuck: set<string>, target: string): Entries {
    map id | id in entries :: if id in ids && id !in stuck then Link(entries, target, id) else entries[id]
  }

  function Created(entries: Entries, target: string, born: nat, content: string): Entries {
    entries[target := Entry(born, None, content)]
  }

  /**
   Creating a target and linking a group keeps links forward exactly if the group does not get
   to hold its own target.
   */
  lemma MergeKeepsForward(
    entries: Entries, created: nat, ids: seq<string>, stuck: set<string>, target: string, content: string)
    requires Forward(entries) && Dated(entries, created) && target !in entries
    ensures var entries' := Linked(Created(entries, target, created, content), ids, stuck, target);
            && Dated(entries', created + 1)
            && (Forward(entries') <==> target !in ids || target in stuck)
  {
    var entries' := Linked(Created(entries, target, created, content), ids, stuck, target);
    if target in ids && target !in stuck {
      assert !LinkForward(entries', target);
    } else {
      forall id | id in entries' ensures LinkForward(entries', id) {
        if id in entries { assert LinkForward(entries, id); }
      }
    }
  }

  // ---- The store ----

  datatype MergeError = SummarizerError | ParseError | CreateError

  /**
   Everything a run does not decide, by the position of the entry it is about: whether its
   content can be read, the ids the search returns (those similar enough), how the merge goes,
   the id and content of a new entry, and which updates fail.
   */
  datatype World = World(
    readable: nat -> bool, similar: nat -> Option<seq<string>>, trouble: nat -> Option<MergeError>,
    newId: (nat, Entries) -> string, content: nat -> string, stuck: nat -> set<string>)

  /** Ids are generated so that no stored entry has them. */
  ghost predicate FreshIds(w: World) {
    forall k, entries: Entries :: w.newId(k, entries) !in entries
  }

  /** A group that was merged: its members and the new entry, if one was made. */
  datatype Group = Group(ids: seq<string>, target: Option<string>, stuck: set<string>)

  datatype Stats = Stats(checked: nat, merged: nat, errors: nat)

  ghost predicate Member(g: Group, id: string) {
    id in g.ids
  }

  /** No entry is in two groups. */
  ghost predicate Disjoint(groups: seq<Group>) {
    forall i, j, id :: 0 <= i < j < |groups| && Member(groups[i], id) ==> !Member(groups[j], id)
  }

  ghost predicate Grouped(groups: seq<Group>, id: string) {
    exists i :: 0 <= i < |groups| && Member(groups[i], id)
  }

  /** No generated id was already the name of a member. */
  ghost predicate Untangled(groups: seq<Group>) {
    forall i :: 0 <= i < |groups| && groups[i].target.Some? ==> !Member(groups[i], groups[i].target.value)
  }

  /** Every member older than the target and whose update worked is linked to it. */
  ghost predicate Marked(entries: Entries, g: Group) {
    g.target.Some? ==>
      && g.target.value in entries
      && forall id :: Member(g, id) && id in entries && id !in g.stuck
                      && entries[id].born < entries[g.target.value].born ==>
           entries[id].mergedInto == g.target
  }

  class MemoryStore {
    var entries: Entries
    var created: nat

    ghost predicate Valid()
      reads this
    {
      Forward(entries) && Dated(entries, created)
    }

    constructor ()
      ensures entries == map[] && created == 0 && Valid()
    {
      entries, created := map[], 0;
    }

    method CountFound(ids: seq<string>) returns (n: nat)
      ensures n == Found(entries, ids)
    {
      n := 0;
      for i := 0 to |ids|
        invariant n == Found(entries, ids[..i])
      {
        assert ids[..i + 1][..i] == ids[..i];
        if ids[i] in entries {
          n := n + 1;
        }
      }
      assert ids[..|ids|] == ids;
    }

    method MergeGroup(w: World, k: nat, ids: seq<string>) returns (r: Result<Option<string>, MergeError>)
      requires FreshIds(w)
      modifies this
      ensures r == MergeOutcome(w, k, old(entries), ids)
      ensures r.Err? || r.value.None? ==> entries == old(entries) && created == old(created)
      ensures r.Ok? && r.value.Some? ==>
                && created == old(created) + 1
                && var target := r.value.value;
                entries == Linked(Created(old(entries), target, old(created), w.content(k)), ids, w.stuck(k), target)
    {
      var found := CountFound(ids);
      if found < 2 {
        return Ok(None);
      }
      if w.trouble(k).Some? {
        return Err(w.trouble(k).value);
      }
      var target := w.newId(k, entries);
      entries := Created(entries, target, created, w.content(k));
      created := created + 1;
      LinkAll(ids, w.stuck(k), target);
      return Ok(Some(target));
    }

    method LinkAll(ids: seq<string>, stuck: set<string>, target: string)
      modifies this`entries
      ensures entries == Linked(old(entries), ids, stuck, target)
    {
      for i := 0 to |ids|
        invariant entries == Linked(old(entries), ids[..i], stuck, target)
      {
        LinkedPush(old(entries), ids, i, stuck, target);
        if ids[i] in entries && ids[i] !in stuck {
          entries := entries[ids[i] := entries[ids[i]].(mergedInto := Some(target))];
        }
      }
      assert ids[..|ids|] == ids;
    }

    /** The ids in `similar` that were not merged yet, without the entry itself. */
    method Candidates(entry: string, similar: seq<string>, merged: set<string>) returns (c: seq<string>)
      ensures forall id :: id in c <==> id in similar && id != entry && id !in merged
    {
      c := [];
      for i := 0 to |similar|
        invariant forall id :: id in c <==> id in similar[..i] && id != entry && id !in merged
      {
        assert similar[..i + 1] == similar[..i] + [similar[i]];
        if similar[i] != entry && similar[i] !in merged {
          c := c + [similar[i]];
        }
      }
      assert similar[..|similar|] == similar;
    }

    /** What becomes of one listed entry. */
    method Consider(w: World, k: nat, entry: string, merged: set<string>) returns (a: Attempt)
      requires FreshIds(w) && entry !in merged
      modifies this
      ensures !a.Formed? ==> entries == old(entries) && created == old(created)
      ensures a.Skipped? ==> NoPartner(w, k, entry, merged)
      ensures a.Failed? ==> w.trouble(k).Some?
      ensures a.Formed? ==>
                && Merged(old(entries), old(created), entries, created, a.group, w.content(k))
                && From(w, k, entry, a.group) && (forall id :: Member(a.group, id) ==> id !in merged)
                && (forall id :: id in w.similar(k).value && id !in merged ==> Member(a.group, id))
                && (a.group.target.Some? <==> TwoFound(old(entries), a.group.ids))
    {
      var similar := w.similar(k);
      if similar.None? {
        return Skipped;
      }
      var candidates := Candidates(entry, similar.value, merged);
      if candidates == [] {
        assert forall id :: id in similar.value ==> id == entry || id in merged || id in candidates;
        return Skipped;
      }
      var ids := [entry] + candidates;
      var r := MergeGroup(w, k, ids);
      if r.Err? {
        return Failed;
      }
      MergesIff(w, k, old(entries), ids);
      return Formed(Group(ids, r.value, w.stuck(k)));
    }

    /**
     One run over a listing of the store.  The log of merged groups and of failed merges is
     returned with the statistics; an unreadable entry ends the run.
     */
    method Run(
      w: World, listed: seq<string>)
      returns (complete: bool, stats: Stats, groups: seq<Group>, failures: seq<nat>)
      requires FreshIds(w) && Dated(entries, created)
      modifies this
      ensures Dated(entries, created) && stats == Stats(|listed|, |groups|, |failures|)
      ensures Disjoint(groups) && KeptBut(old(entries), entries, groups)
      ensures forall i :: 0 <= i < |groups| ==> Marked(entries, groups[i]) && Sourced(w, listed, groups[i])
      ensures forall i :: 0 <= i < |failures| ==> failures[i] < |listed| && w.trouble(failures[i]).Some?
      ensures old(Valid()) && Untangled(groups) ==> Valid()
      ensures old(Valid()) && NewToListing(w, listed) ==> Valid()
      ensures complete ==> forall k :: 0 <= k < |listed| ==> Settled(w, k, listed[k], groups, failures)
    {
      stats := Stats(|listed|, 0, 0);
      groups, failures, complete := [], [], true;
      var merged: set<string> := {};
      for k := 0 to |listed|
        invariant stats == Stats(|listed|, |groups|, |failures|)
        invariant forall id :: id in merged <==> Grouped(groups, id)
        invariant RunSoFar(old(entries), old(Valid()), entries, created, groups)
        invariant LogSoFar(w, listed, groups, failures, k)
      {
        if listed[k] in merged {
          continue;
        }
        if !w.readable(k) {
          SourcedUntangled(w, listed, groups);
          return false, stats, groups, failures;
        }
        ghost var before, born := entries, created;
        var a := Consider(w, k, listed[k], merged);
        match a {
          case Skipped =>
          case Failed =>
            FailureLogged(w, listed, groups, failures, k);
            stats := stats.(errors := stats.errors + 1);
            failures := failures + [k];
          case Formed(g) =>
            GroupStep(old(entries), old(Valid()), before, born, entries, created, groups, g, w.content(k));
            GroupedPush(groups, g);
            GroupLogged(w, listed, groups, failures, g, k);
            merged := merged + set id | id in g.ids;
            stats := stats.(merged := stats.merged + 1);
            groups := groups + [g];
        }
      }
      SourcedUntangled(w, listed, groups);
    }
  }

  datatype Attempt = Skipped | Failed | Formed(group: Group)

  /** The search failed, or found nothing left to be grouped with. */
  ghost predicate NoPartner(w: World, k: nat, entry: string, merged: set<string>) {
    w.similar(k).None? || forall id :: id in w.similar(k).value ==> id == entry || id in merged
  }

  /** No id generated for an entry is that entry's own or one its search returns. */
  ghost predicate NewToListing(w: World, listed: seq<string>) {
    forall k, entries: Entries :: 0 <= k < |listed| ==>
      && w.newId(k, entries) != listed[k]
      && (w.similar(k).Some? ==> w.newId(k, entries) !in w.similar(k).value)
  }

  /** Any number of runs, over any listings: links stay forward if no generated id is already listed or found. */
  method RunAll(store: MemoryStore, worlds: seq<World>, listings: seq<seq<string>>) returns (logs: seq<seq<Group>>)
    requires |worlds| == |listings| && store.Valid() && forall k :: 0 <= k < |worlds| ==> FreshIds(worlds[k])
    modifies store
    ensures |logs| == |worlds| && forall k :: 0 <= k < |logs| ==> Disjoint(logs[k])
    ensures (forall k :: 0 <= k < |worlds| ==> NewToListing(worlds[k], listings[k])) ==> store.Valid()
    ensures forall id :: id in old(store.entries) ==> id in store.entries
  {
    logs := [];
    for k := 0 to |worlds|
      invariant |logs| == k && Dated(store.entries, store.created)
      invariant forall j :: 0 <= j < k ==> Disjoint(logs[j])
      invariant (forall j :: 0 <= j < k ==> NewToListing(worlds[j], listings[j])) ==> store.Valid()
      invariant forall id :: id in old(store.entries) ==> id in store.entries
    {
      var _, _, groups, _ := store.Run(worlds[k], listings[k]);
      ghost var before := logs;
      logs := logs + [groups];
      assert forall j :: 0 <= j < k ==> before[j] == logs[j];
      assert logs[k] == groups;
    }
  }

  lemma LinkedPush(entries: Entries, ids: seq<string>, i: nat, stuck: set<string>, target: string)
    requires i < |ids|
    ensures var before := Linked(entries, ids[..i], stuck, target);
            Linked(entries, ids[..i + 1], stuck, target) ==
            if ids[i] in entries && ids[i] !in stuck
            then before[ids[i] := before[ids[i]].(mergedInto := Some(target))] else before
  {
    assert ids[..i + 1] == ids[..i] + [ids[i]];
  }

  /** How many of the ids are found, counting repetitions. */
  function Found(entries: Entries, ids: seq<string>): nat {
    if ids == [] then 0 else Found(entries, ids[..|ids| - 1]) + if ids[|ids| - 1] in entries then 1 else 0
  }

  function MergeOutcome(w: World, k: nat, entries: Entries, ids: seq<string>): Result<Option<string>, MergeError> {
    if Found(entries, ids) < 2 then Ok(None)
    else if w.trouble(k).Some? then Err(w.trouble(k).value)
    else Ok(Some(w.newId(k, entries)))
  }

  ghost predicate TwoFound(entries: Entries, ids: seq<string>) {
    exists i, j :: 0 <= i < j < |ids| && ids[i] in entries && ids[j] in entries
  }

  lemma {:induction false} FoundCounts(entries: Entries, ids: seq<string>)
    ensures Found(entries, ids) > 0 <==> exists i :: 0 <= i < |ids| && ids[i] in entries
    ensures Found(entries, ids) >= 2 <==> TwoFound(entries, ids)
  {
    if ids != [] {
      var n := |ids| - 1;
      var front := ids[..n];
      FoundCounts(entries, front);
      if Found(entries, front) > 0 {
        var i :| 0 <= i < n && front[i] in entries;
        assert ids[i] in entries;
      }
      if TwoFound(entries, front) {
        var i, j :| 0 <= i < j < n && front[i] in entries && front[j] in entries;
        assert ids[i] in entries && ids[j] in entries;
      }
      if TwoFound(entries, ids) {
        var i, j :| 0 <= i < j < |ids| && ids[i] in entries && ids[j] in entries;
        assert front[i] == ids[i] && (j < n ==> front[j] == ids[j]);
      }
    }
  }

  /** A group is merged exactly if two of its members are found and nothing goes wrong; with fewer nothing is tried. */
  lemma MergesIff(w: World, k: nat, entries: Entries, ids: seq<string>)
    ensures var r := MergeOutcome(w, k, entries, ids);
            && (r.Ok? && r.value.Some? <==> TwoFound(entries, ids) && w.trouble(k).None?)
            && (r.Err? <==> TwoFound(entries, ids) && w.trouble(k).Some?)
            && (r.Err? ==> r.error == w.trouble(k).value)
            && (r.Ok? && r.value.Some? ==> r.value.value == w.newId(k, entries))
  {
    FoundCounts(entries, ids);
  }

  /** A merge leaves the new entry, each member whose update works linked to it, and the rest as it was. */
  lemma MergeLeaves(
    entries: Entries, born: nat, ids: seq<string>, stuck: set<string>, target: string, content: string)
    requires target !in entries
    ensures var after := Linked(Created(entries, target, born, content), ids, stuck, target);
            && after.Keys == entries.Keys + {target}
            && after[target].content == content && after[target].born == born
            && forall id :: id in entries ==>
                 && after[id].content == entries[id].content && after[id].born == entries[id].born
                 && after[id].mergedInto == if id in ids && id !in stuck then Some(target) else entries[id].mergedInto
  {
  }

  /** The group is an entry with some of the entries its search returned, and its target a generated id. */
  ghost predicate From(w: World, k: nat, entry: string, g: Group) {
    && w.similar(k).Some? && Member(g, entry)
    && (forall id :: Member(g, id) ==> id == entry || id in w.similar(k).value)
    && (g.target.Some? ==> exists entries: Entries :: g.target.value == w.newId(k, entries))
  }

  ghost predicate Sourced(w: World, listed: seq<string>, g: Group) {
    exists k :: 0 <= k < |listed| && From(w, k, listed[k], g)
  }

  lemma SourcedUntangled(w: World, listed: seq<string>, groups: seq<Group>)
    requires forall i :: 0 <= i < |groups| ==> Sourced(w, listed, groups[i])
    ensures NewToListing(w, listed) ==> Untangled(groups)
  {
    if NewToListing(w, listed) {
      forall i | 0 <= i < |groups| && groups[i].target.Some? ensures !Member(groups[i], groups[i].target.value) {
        var k :| 0 <= k < |listed| && From(w, k, listed[k], groups[i]);
        var entries: Entries :| groups[i].target.value == w.newId(k, entries);
      }
    }
  }

  /** A listed entry was grouped, its merge failed, or it had nothing left to be grouped with. */
  ghost predicate Settled(w: World, k: nat, entry: string, groups: seq<Group>, failures: seq<nat>) {
    || Grouped(groups, entry) || k in failures || w.similar(k).None?
    || (forall id :: id in w.similar(k).value ==> id == entry || Grouped(groups, id))
  }

  /** After the first `n` entries of the listing. */
  ghost predicate LogSoFar(w: World, listed: seq<string>, groups: seq<Group>, failures: seq<nat>, n: nat) {
    && n <= |listed| && (forall i :: 0 <= i < |groups| ==> Sourced(w, listed, groups[i]))
    && (forall i :: 0 <= i < |failures| ==> failures[i] < n && w.trouble(failures[i]).Some?)
    && (forall k :: 0 <= k < n ==> Settled(w, k, listed[k], groups, failures))
  }

  lemma GroupLogged(w: World, listed: seq<string>, groups: seq<Group>, failures: seq<nat>, g: Group, k: nat)
    requires LogSoFar(w, listed, groups, failures, k) && k < |listed| && From(w, k, listed[k], g)
    ensures LogSoFar(w, listed, groups + [g], failures, k + 1)
  {
    GroupedPush(groups, g);
    forall j | 0 <= j < k + 1 ensures Settled(w, j, listed[j], groups + [g], failures) {
      if j < k { assert Settled(w, j, listed[j], groups, failures); }
    }
  }

  lemma FailureLogged(w: World, listed: seq<string>, groups: seq<Group>, failures: seq<nat>, k: nat)
    requires LogSoFar(w, listed, groups, failures, k) && k < |listed| && w.trouble(k).Some?
    ensures LogSoFar(w, listed, groups, failures + [k], k + 1)
  {
    assert (failures + [k])[|failures|] == k;
    forall j | 0 <= j < k + 1 ensures Settled(w, j, listed[j], groups, failures + [k]) {
      if j < k { assert Settled(w, j, listed[j], groups, failures); }
    }
  }

  /** No entry is removed, and those outside all groups are as they were. */
  ghost predicate KeptBut(before: Entries, after: Entries, groups: seq<Group>) {
    && (forall id :: id in before ==>
         id in after && after[id].born == before[id].born && after[id].content == before[id].content)
    && (forall id :: id in before && !Grouped(groups, id) ==> after[id] == before[id])
  }

  ghost predicate RunSoFar(start: Entries, sound: bool, entries: Entries, created: nat, groups: seq<Group>) {
    && Dated(entries, created) && Disjoint(groups) && KeptBut(start, entries, groups)
    && (forall i :: 0 <= i < |groups| ==> Marked(entries, groups[i]))
    && (sound && Untangled(groups) ==> Forward(entries))
  }

  lemma GroupedPush(groups: seq<Group>, g: Group)
    ensures forall id :: Grouped(groups + [g], id) <==> Grouped(groups, id) || Member(g, id)
  {
    forall id ensures Grouped(groups + [g], id) <==> Grouped(groups, id) || Member(g, id) {
      if Grouped(groups, id) {
        var i :| 0 <= i < |groups| && Member(groups[i], id);
        assert Member((groups + [g])[i], id);
      }
      if Member(g, id) { assert Member((groups + [g])[|groups|], id); }
    }
  }

  /** What `MergeGroup` leaves behind for a group. */
  ghost predicate Merged(before: Entries, born: nat, after: Entries, created: nat, g: Group, content: string) {
    if g.target.None? then after == before && created == born
    else
      && g.target.value !in before && created == born + 1
      && after == Linked(Created(before, g.target.value, born, content), g.ids, g.stuck, g.target.value)
  }

  lemma GroupStep(
    start: Entries, sound: bool, before: Entries, born: nat, after: Entries, created: nat, groups: seq<Group>,
    g: Group, content: string)
    requires RunSoFar(start, sound, before, born, groups) && Merged(before, born, after, created, g, content)
    requires forall id :: Member(g, id) ==> !Grouped(groups, id)
    ensures RunSoFar(start, sound, after, created, groups + [g])
  {
    GroupedPush(groups, g);
    DisjointPush(groups, g);
    if sound && Untangled(groups + [g]) {
      UntangledFront(groups, g);
      if g.target.Some? { MergeKeepsForward(before, born, g.ids, g.stuck, g.target.value, content); }
    }
    forall i | 0 <= i < |groups + [g]| ensures Marked(after, (groups + [g])[i]) {
      if i < |groups| { MarkStays(before, born, after, created, groups, g, content, i); }
    }
  }

  lemma UntangledFront(groups: seq<Group>, g: Group)
    requires Untangled(groups + [g])
    ensures Untangled(groups) && (g.target.Some? ==> !Member(g, g.target.value))
  {
    assert (groups + [g])[|groups|] == g;
    forall i | 0 <= i < |groups| && groups[i].target.Some? ensures !Member(groups[i], groups[i].target.value) {
      assert (groups + [g])[i] == groups[i];
    }
  }

  lemma DisjointPush(groups: seq<Group>, g: Group)
    requires Disjoint(groups) && forall id :: Member(g, id) ==> !Grouped(groups, id)
    ensures Disjoint(groups + [g])
  {
    var all := groups + [g];
    forall i, j, id | 0 <= i < j < |all| && Member(all[i], id) ensures !Member(all[j], id) {
      if j == |groups| { assert Grouped(groups, id); }
    }
  }

  lemma MarkStays(
    before: Entries, born: nat, after: Entries, created: nat, groups: seq<Group>, g: Group, content: string, i: nat)
    requires i < |groups| && Dated(before, born) && Marked(before, groups[i])
    requires Merged(before, born, after, created, g, content)
    requires forall id :: Member(g, id) ==> !Grouped(groups, id)
    ensures Marked(after, groups[i])
  {
    var m := groups[i];
    if m.target.Some? {
      forall id | Member(m, id) && id in after && id !in m.stuck && after[id].born < after[m.target.value].born
        ensures after[id].mergedInto == m.target
      {
        assert Member(groups[i], id);
        assert Grouped(groups, id);
        assert !Member(g, id);
      }
    }
  }
}
