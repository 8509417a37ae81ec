/** Applying a consolidation plan: pruning, merging, promoting to preferences, and rewriting working memory. */
module Consolidation {
  import opened Prelude
  import opened MemoryEntries
  import opened WorkingMemory
  import opened Preferences
  import opened Consolidator
  import PlanTheorems

  const SECOND: int := 1_000_000_000
  const DAY: int := 86_400 * SECOND
  const UNSET := Stamp(0, 101)

  /** The n-th id the generator yields. */
  type IdSource = nat -> string

  /** Timestamps pass through a text with whole seconds. */
  function WholeSeconds(ns: int): int {
    ns - ns % SECOND
  }

  function ToMemory(e: Entry): Memory {
    Memory(e.id, e.content, e.salience, Some(WholeSeconds(e.timestamp.ns)))
  }

  function ToMemories(entries: seq<Entry>): seq<Memory> {
    seq(|entries|, i requires 0 <= i < |entries| => ToMemory(entries[i]))
  }

  /** The highest salience among the sources, zero if none is higher. */
  function MaxSalience(ids: seq<string>, byId: map<string, Entry>): real {
    if ids == [] then 0.0
    else
      var before, id := MaxSalience(ids[..|ids| - 1], byId), ids[|ids| - 1];
      if id in byId && byId[id].salience > before then byId[id].salience else before
  }

  /** The earliest timestamp among the sources, an unset one giving way to the next. */
  function Earliest(ids: seq<string>, byId: map<string, Entry>): Stamp {
    if ids == [] then UNSET
    else
      var before, id := Earliest(ids[..|ids| - 1], byId), ids[|ids| - 1];
      if id in byId && (before.ns == 0 || byId[id].timestamp.ns < before.ns) then byId[id].timestamp else before
  }

  function MergedEntry(g: MergeGroup, byId: map<string, Entry>, newId: string): Entry {
    Entry(newId, g.mergedContent, MaxSalience(g.sourceIds, byId), Earliest(g.sourceIds, byId),
          "consolidation", [], "working")
  }

  /** Groups without sources are skipped. */
  function NonEmpty(groups: seq<MergeGroup>): seq<MergeGroup> {
    if groups == [] then []
    else
      var before, g := NonEmpty(groups[..|groups| - 1]), groups[|groups| - 1];
      if g.sourceIds == [] then before else before + [g]
  }

  /** One new entry for each group, in order. */
  function MergedEntries(groups: seq<MergeGroup>, byId: map<string, Entry>, newIds: IdSource, next: nat): seq<Entry> {
    seq(|groups|, i requires 0 <= i < |groups| => MergedEntry(groups[i], byId, newIds(next + i)))
  }

  function IdsIn(ids: seq<string>): set<string> {
    set id | id in ids
  }

  /** Entries the plan neither prunes nor merges. */
  function Untouched(entries: seq<Entry>, plan: Plan): seq<Entry> {
    WithoutIds(entries, IdsIn(plan.prune) + IdsIn(PlanTheorems.AllSources(plan.merge)))
  }

  function Survivors(entries: seq<Entry>, plan: Plan, newIds: IdSource, next: nat): seq<Entry> {
    Untouched(entries, plan) + MergedEntries(NonEmpty(plan.merge), ById(entries), newIds, next)
  }

  function Promotion(e: Entry): Entry {
    e.(layer := "preferences", source := "consolidation")
  }

  function Promoted(survivors: seq<Entry>): seq<Entry> {
    if survivors == [] then []
    else
      var before, last := Promoted(survivors[..|survivors| - 1]), survivors[|survivors| - 1];
      if last.salience >= 0.7 then before + [Promotion(last)] else before
  }

  function Remaining(survivors: seq<Entry>): seq<Entry> {
    if survivors == [] then []
    else
      var before, last := Remaining(survivors[..|survivors| - 1]), survivors[|survivors| - 1];
      if last.salience >= 0.7 then before else before + [last]
  }

  function WrittenAll(p: Prefs, entries: seq<Entry>, newIds: IdSource, next: nat): Prefs {
    if entries == [] then p
    else
      Written(WrittenAll(p, entries[..|entries| - 1], newIds, next), entries[|entries| - 1],
              newIds(next + |entries| - 1))
  }

  datatype ConsolidationResult = ConsolidationResult(
    pruned: nat, merged: nat, promoted: nat, snapshotVer: nat,
    workingBefore: nat, workingAfter: nat, prefsBefore: nat, prefsAfter: nat)

  /** Both tiers: working files and preferences. */
  datatype Tiers = Tiers(files: Files, prefs: Prefs)

  function PlanOf(entries: seq<Entry>, cutoff: int): Plan {
    PlanFor(ToMemories(entries), cutoff)
  }

  function Cutoff(now: int, retentionDays: int): int {
    now - retentionDays * DAY
  }

  /** Applying a plan: salient survivors go to preferences, the others back to working memory. */
  function Applied(prefs: Prefs, entries: seq<Entry>, plan: Plan, newIds: IdSource, next: nat)
    : (Tiers, ConsolidationResult)
  {
    var survivors := Survivors(entries, plan, newIds, next);
    var promoted, remaining := Promoted(survivors), Remaining(survivors);
    var prefs' := WrittenAll(prefs, promoted, newIds, next + |plan.merge|);
    (Tiers(Grouped(remaining), prefs'),
     ConsolidationResult(|plan.prune|, |plan.merge|, |promoted|, prefs.version,
                         |entries|, |remaining|, prefs.totalEntries, prefs'.totalEntries))
  }

  /** The whole cycle. Empty working memory ends it after the snapshot. */
  function Consolidated(t: Tiers, months: nat, cutoff: int, newIds: IdSource, next: nat): (Tiers, ConsolidationResult) {
    var prefs := Snapshotted(t.prefs);
    var entries := ReadUpTo(t.files, months);
    if entries == [] then (Tiers(t.files, prefs), ConsolidationResult(0, 0, 0, prefs.version, 0, 0, 0, 0))
    else Applied(prefs, entries, PlanOf(entries, cutoff), newIds, next)
  }

  // ---------- The code ----------

  class TieredMemoryStore {
    const working: WorkingLayer
    const preferences: PreferencesLayer
    const retentionDays: int

    ghost function Model(): Tiers
      reads working, preferences
    {
      Tiers(working.files, preferences.Model())
    }

    constructor (working: WorkingLayer, preferences: PreferencesLayer, retentionDays: int)
      ensures this.working == working && this.preferences == preferences && this.retentionDays == retentionDays
    {
      this.working := working;
      this.preferences := preferences;
      this.retentionDays := retentionDays;
    }

    method RunConsolidation(now: int, newIds: IdSource, next: nat) returns (result: ConsolidationResult)
      requires working.Valid() && UNSET.month < working.months
      modifies working, preferences
      ensures working.Valid()
      ensures (Model(), result)
              == Consolidated(old(Model()), working.months, Cutoff(now, retentionDays), newIds, next)
      ensures preferences.lastConsolidation
              == if old(ReadUpTo(working.files, working.months)) == [] then old(preferences.lastConsolidation) else now
    {
      var snapVer := preferences.Snapshot();
      var workingEntries := working.ReadAll();
      if |workingEntries| == 0 {
        return ConsolidationResult(0, 0, 0, snapVer, 0, 0, 0, 0);
      }
      ReadWithinMonths(working.files, working.months, working.months);
      var driftEntries := ToMemories(workingEntries);
      var plan := GenerateConsolidationPlan(driftEntries, Cutoff(now, retentionDays));
      result := Rewrite(workingEntries, plan, snapVer, newIds, next);
      preferences.lastConsolidation := now;
    }

    /** The second half of the cycle: carrying the plan out on both tiers. */
    method Rewrite(entries: seq<Entry>, plan: Plan, snapVer: nat, newIds: IdSource, next: nat)
      returns (result: ConsolidationResult)
      requires UNSET.month < working.months && WithinMonths(entries, working.months)
      requires snapVer == preferences.currentVersion
      modifies working, preferences
      ensures working.Valid()
      ensures var (tiers, account) := Applied(old(preferences.Model()), entries, plan, newIds, next);
              Model() == tiers && result == account
    {
      var survivors := ApplyPlan(entries, plan, newIds, next);
      SurvivorsWithinMonths(entries, plan, newIds, next, working.months);
      var promoted, remaining := Promote(survivors);
      working.Replace(remaining);
      var prefsBefore := preferences.totalEntries;
      WritePromoted(promoted, newIds, next + |plan.merge|);
      result := ConsolidationResult(|plan.prune|, |plan.merge|, |promoted|, snapVer,
                                    |entries|, |remaining|, prefsBefore, preferences.totalEntries);
    }

    method WritePromoted(promoted: seq<Entry>, newIds: IdSource, next: nat)
      modifies preferences
      ensures preferences.Model() == WrittenAll(old(preferences.Model()), promoted, newIds, next)
      ensures preferences.lastConsolidation == old(preferences.lastConsolidation)
    {
      var i := 0;
      while i < |promoted|
        invariant 0 <= i <= |promoted|
        invariant preferences.Model() == WrittenAll(old(preferences.Model()), promoted[..i], newIds, next)
        invariant preferences.lastConsolidation == old(preferences.lastConsolidation)
      {
        assert promoted[..i + 1][..i] == promoted[..i];
        preferences.Write(promoted[i], newIds(next + i));
        i := i + 1;
      }
      assert promoted[..|promoted|] == promoted;
    }
  }

  method ApplyPlan(entries: seq<Entry>, plan: Plan, newIds: IdSource, next: nat) returns (survivors: seq<Entry>)
    ensures survivors == Survivors(entries, plan, newIds, next)
  {
    var pruneSet := IdsIn(plan.prune);
    var mergedEntries := ApplyMerges(plan.merge, entries, newIds, next);
    var mergeSourceIDs := CollectMergeSourceIDs(plan.merge);
    survivors := [];
    var i := 0;
    while i < |entries|
      invariant 0 <= i <= |entries|
      invariant survivors == WithoutIds(entries[..i], pruneSet + mergeSourceIDs)
    {
      assert entries[..i + 1][..i] == entries[..i];
      if !(entries[i].id in pruneSet || entries[i].id in mergeSourceIDs) {
        survivors := survivors + [entries[i]];
      }
      i := i + 1;
    }
    assert entries[..|entries|] == entries;
    survivors := survivors + mergedEntries;
  }

  method CollectMergeSourceIDs(groups: seq<MergeGroup>) returns (ids: set<string>)
    ensures ids == IdsIn(PlanTheorems.AllSources(groups))
  {
    ids := {};
    var i := 0;
    while i < |groups|
      invariant 0 <= i <= |groups|
      invariant ids + IdsIn(PlanTheorems.AllSources(groups[i..])) == IdsIn(PlanTheorems.AllSources(groups))
    {
      SourcesFrom(groups, i);
      ids := ids + IdsIn(groups[i].sourceIds);
      i := i + 1;
    }
  }

  lemma SourcesFrom(groups: seq<MergeGroup>, i: nat)
    requires i < |groups|
    ensures IdsIn(PlanTheorems.AllSources(groups[i..]))
            == IdsIn(groups[i].sourceIds) + IdsIn(PlanTheorems.AllSources(groups[i + 1..]))
  {
    assert groups[i..][1..] == groups[i + 1..];
  }

  method ApplyMerges(groups: seq<MergeGroup>, entries: seq<Entry>, newIds: IdSource, next: nat) returns (merged: seq<Entry>)
    ensures merged == MergedEntries(NonEmpty(groups), ById(entries), newIds, next)
  {
    var entryMap := IndexEntries(entries);
    merged := [];
    var i := 0;
    while i < |groups|
      invariant 0 <= i <= |groups|
      invariant merged == MergedEntries(NonEmpty(groups[..i]), entryMap, newIds, next)
    {
      assert groups[..i + 1][..i] == groups[..i];
      var g := groups[i];
      if |g.sourceIds| > 0 {
        MergedOneMore(NonEmpty(groups[..i]), g, entryMap, newIds, next);
        var maxSalience, ts := MergeSources(g.sourceIds, entryMap);
        merged := merged + [Entry(newIds(next + |merged|), g.mergedContent, maxSalience, ts,
                                  "consolidation", [], "working")];
      }
      i := i + 1;
    }
    assert groups[..|groups|] == groups;
  }

  lemma MergedOneMore(groups: seq<MergeGroup>, g: MergeGroup, byId: map<string, Entry>, newIds: IdSource, next: nat)
    ensures var before := MergedEntries(groups, byId, newIds, next);
            MergedEntries(groups + [g], byId, newIds, next) == before + [MergedEntry(g, byId, newIds(next + |before|))]
  {
  }

  method MergeSources(ids: seq<string>, entryMap: map<string, Entry>) returns (maxSalience: real, ts: Stamp)
    ensures maxSalience == MaxSalience(ids, entryMap) && ts == Earliest(ids, entryMap)
  {
    maxSalience, ts := 0.0, UNSET;
    var i := 0;
    while i < |ids|
      invariant 0 <= i <= |ids|
      invariant maxSalience == MaxSalience(ids[..i], entryMap) && ts == Earliest(ids[..i], entryMap)
    {
      assert ids[..i + 1][..i] == ids[..i];
      if ids[i] in entryMap {
        var e := entryMap[ids[i]];
        if e.salience > maxSalience {
          maxSalience := e.salience;
        }
        if ts.ns == 0 || e.timestamp.ns < ts.ns {
          ts := e.timestamp;
        }
      }
      i := i + 1;
    }
    assert ids[..|ids|] == ids;
  }

  method Promote(survivors: seq<Entry>) returns (promoted: seq<Entry>, remaining: seq<Entry>)
    ensures promoted == Promoted(survivors) && remaining == Remaining(survivors)
  {
    promoted, remaining := [], [];
    var i := 0;
    while i < |survivors|
      invariant 0 <= i <= |survivors|
      invariant promoted == Promoted(survivors[..i]) && remaining == Remaining(survivors[..i])
    {
      assert survivors[..i + 1][..i] == survivors[..i];
      var e := survivors[i];
      if e.salience >= 0.7 {
        promoted := promoted + [e.(layer := "preferences", source := "consolidation")];
      } else {
        remaining := remaining + [e];
      }
      i := i + 1;
    }
    assert survivors[..|survivors|] == survivors;
  }

  // ---------- File names stay in range ----------

  lemma {:induction false} ReadWithinMonths(files: Files, months: nat, n: nat)
    requires Filed(files, months)
    ensures WithinMonths(ReadUpTo(files, n), months)
  {
    if n > 0 {
      ReadWithinMonths(files, months, n - 1);
    }
  }

  /** The merged timestamp is that of some source; it stays unset only if no source is known. */
  lemma {:induction false} EarliestIsASource(ids: seq<string>, byId: map<string, Entry>)
    ensures if exists id <- ids :: id in byId
            then exists id <- ids :: id in byId && byId[id].timestamp == Earliest(ids, byId)
            else Earliest(ids, byId) == UNSET
  {
    if ids != [] {
      var front, last := Pop(ids);
      EarliestIsASource(front, byId);
      assert last in ids && forall id <- front :: id in ids;
    }
  }

  predicate Stamped(ids: seq<string>, byId: map<string, Entry>) {
    forall id <- ids :: id in byId ==> byId[id].timestamp.ns != 0
  }

  /** No known source is earlier than the merged timestamp, unless some source's own time is unset. */
  lemma {:induction false} EarliestIsEarliest(ids: seq<string>, byId: map<string, Entry>)
    requires Stamped(ids, byId)
    ensures forall id <- ids :: id in byId ==> Earliest(ids, byId).ns != 0 && Earliest(ids, byId).ns <= byId[id].timestamp.ns
  {
    if ids != [] {
      var front, last := Pop(ids);
      assert last in ids && forall id <- front :: id in ids;
      EarliestIsEarliest(front, byId);
      EarliestIsASource(front, byId);
    }
  }

  /** The merged timestamp is the first source's if and only if no other source is earlier. */
  lemma FirstSourceDatesMergeIff(ids: seq<string>, byId: map<string, Entry>)
    requires Stamped(ids, byId) && ids != [] && ids[0] in byId
    ensures Earliest(ids, byId) == byId[ids[0]].timestamp
            <==> forall id <- ids :: id in byId ==> byId[ids[0]].timestamp.ns <= byId[id].timestamp.ns
  {
    EarliestIsEarliest(ids, byId);
    if forall id <- ids :: id in byId ==> byId[ids[0]].timestamp.ns <= byId[id].timestamp.ns {
      FirstStays(ids, byId);
    }
  }

  lemma {:induction false} FirstStays(ids: seq<string>, byId: map<string, Entry>)
    requires Stamped(ids, byId) && ids != [] && ids[0] in byId
    requires forall id <- ids :: id in byId ==> byId[ids[0]].timestamp.ns <= byId[id].timestamp.ns
    ensures Earliest(ids, byId) == byId[ids[0]].timestamp
  {
    var front, last := Pop(ids);
    assert last in ids && forall id <- front :: id in ids;
    if front != [] {
      FirstStays(front, byId);
      assert front[0] in ids;
    }
  }

  lemma MergedWithinMonths(groups: seq<MergeGroup>, byId: map<string, Entry>, newIds: IdSource, next: nat, months: nat)
    requires UNSET.month < months && forall id <- byId :: byId[id].timestamp.month < months
    ensures WithinMonths(MergedEntries(groups, byId, newIds, next), months)
  {
    forall e <- MergedEntries(groups, byId, newIds, next) ensures e.timestamp.month < months {
      var i :| 0 <= i < |groups| && e == MergedEntry(groups[i], byId, newIds(next + i));
      EarliestIsASource(groups[i].sourceIds, byId);
    }
  }

  lemma {:induction false} RemainingMembers(survivors: seq<Entry>)
    ensures forall e :: e in Remaining(survivors) <==> e in survivors && e.salience < 0.7
    ensures forall e :: e in Promoted(survivors) <==> exists s <- survivors :: s.salience >= 0.7 && e == Promotion(s)
    ensures |Promoted(survivors)| + |Remaining(survivors)| == |survivors|
  {
    if survivors != [] {
      var front, last := PopEntry(survivors);
      RemainingMembers(front);
    }
  }

  lemma SurvivorsWithinMonths(entries: seq<Entry>, plan: Plan, newIds: IdSource, next: nat, months: nat)
    requires WithinMonths(entries, months) && UNSET.month < months
    ensures WithinMonths(Remaining(Survivors(entries, plan, newIds, next)), months)
  {
    WithoutMembers(entries, IdsIn(plan.prune) + IdsIn(PlanTheorems.AllSources(plan.merge)));
    ByIdIsKeyed(entries);
    MergedWithinMonths(NonEmpty(plan.merge), ById(entries), newIds, next, months);
    RemainingMembers(Survivors(entries, plan, newIds, next));
  }
}
