/** What a consolidation keeps: entries are accounted for, salient ones are promoted, and repeating it settles. */
module ConsolidationTheorems {
  import opened Prelude
  import opened MemoryEntries
  import opened WorkingMemory
  import opened Preferences
  import opened Consolidator
  import opened Consolidation
  import opened PlanTheorems
  import Similarity

  // ---------- The plan as it looks from the entries ----------

  /** Old, and not salient enough for the retention filter. */
  predicate Expired(e: Entry, cutoff: int) {
    WholeSeconds(e.timestamp.ns) < cutoff && e.salience <= 0.7
  }

  predicate HasId(entries: seq<Entry>, id: string) {
    exists e <- entries :: e.id == id
  }

  predicate HasExpired(entries: seq<Entry>, id: string, cutoff: int) {
    exists e <- entries :: e.id == id && Expired(e, cutoff)
  }

  lemma SameId(entries: seq<Entry>, a: Entry, b: Entry)
    requires DistinctEntries(entries) && a in entries && b in entries && a.id == b.id
    ensures a == b
  {
  }

  lemma DistinctMemories(entries: seq<Entry>)
    requires DistinctEntries(entries)
    ensures DistinctIds(ToMemories(entries))
  {
  }

  lemma ToMemoriesOneMore(front: seq<Entry>, last: Entry)
    ensures ToMemories(front + [last]) == ToMemories(front) + [ToMemory(last)]
  {
  }

  lemma {:induction false} PrunedAreExpired(entries: seq<Entry>, cutoff: int)
    ensures forall id :: id in PrunedIds(ToMemories(entries), cutoff) <==> HasExpired(entries, id, cutoff)
  {
    if entries != [] {
      var front, last := PopEntry(entries);
      PrunedAreExpired(front, cutoff);
      ToMemoriesOneMore(front, last);
      RetentionOneMore(ToMemories(front), ToMemory(last), cutoff);
      forall id ensures HasExpired(entries, id, cutoff)
                        <==> HasExpired(front, id, cutoff) || (last.id == id && Expired(last, cutoff)) {
      }
    }
  }

  lemma KeptOneMore(front: seq<Entry>, last: Entry, cutoff: int, dropped: set<string>, marked: set<string>)
    requires last.id in dropped <==> Expired(last, cutoff) || last.id in marked
    requires ToMemories(WithoutIds(front, dropped)) == Unmarked(RetainedOf(ToMemories(front), cutoff), marked)
    ensures ToMemories(WithoutIds(front + [last], dropped))
            == Unmarked(RetainedOf(ToMemories(front + [last]), cutoff), marked)
  {
    assert (front + [last])[..|front + [last]| - 1] == front;
    ToMemoriesOneMore(front, last);
    RetentionOneMore(ToMemories(front), ToMemory(last), cutoff);
    UnmarkedOneMore(RetainedOf(ToMemories(front), cutoff), ToMemory(last), marked);
    ToMemoriesOneMore(WithoutIds(front, dropped), last);
  }

  lemma {:induction false} KeptAreUnmarked(entries: seq<Entry>, cutoff: int, dropped: set<string>, marked: set<string>)
    requires forall e <- entries :: e.id in dropped <==> Expired(e, cutoff) || e.id in marked
    ensures ToMemories(WithoutIds(entries, dropped)) == Unmarked(RetainedOf(ToMemories(entries), cutoff), marked)
  {
    if entries != [] {
      var front, last := PopEntry(entries);
      KeptAreUnmarked(front, cutoff, dropped, marked);
      KeptOneMore(front, last, cutoff, dropped, marked);
    }
  }

  lemma IdBagMembers(memories: seq<Memory>, id: string)
    ensures id in IdBag(memories) <==> id in IdSet(memories)
  {
    if id in IdSet(memories) {
      var m :| m in memories && m.id == id;
      var i :| 0 <= i < |memories| && memories[i] == m;
      assert Ids(memories)[i] == id;
    }
    if id in IdBag(memories) {
      var i :| 0 <= i < |Ids(memories)| && Ids(memories)[i] == id;
      assert memories[i] in memories;
    }
  }

  /** The ids of an entry sequence, seen by the planner, each occur once. */
  lemma {:induction false} IdBagOfEntries(entries: seq<Entry>, id: string)
    ensures id in IdBag(ToMemories(entries)) <==> HasId(entries, id)
    ensures DistinctEntries(entries) ==> IdBag(ToMemories(entries))[id] <= 1
  {
    if entries != [] {
      var front, last := PopEntry(entries);
      IdBagOfEntries(front, id);
      ToMemoriesOneMore(front, last);
      IdBagAppend(ToMemories(front), [ToMemory(last)]);
      assert Ids([ToMemory(last)]) == [last.id];
      assert HasId(entries, id) <==> HasId(front, id) || last.id == id;
    } else {
      assert Ids(ToMemories(entries)) == [];
    }
  }

  /** Where the plan sends an id: it is pruned, merged or kept, and never two of these. */
  lemma PlanSends(entries: seq<Entry>, cutoff: int, id: string)
    requires DistinctEntries(entries)
    ensures var plan := PlanOf(entries, cutoff);
            && (id in plan.prune <==> HasExpired(entries, id, cutoff))
            && !(id in plan.prune && id in AllSources(plan.merge))
            && (id in AllSources(plan.merge) ==> HasId(entries, id))
  {
    var plan := PlanOf(entries, cutoff);
    DistinctMemories(entries);
    PrunedAreExpired(entries, cutoff);
    PlanPartitionsInput(ToMemories(entries), cutoff);
    IdBagOfEntries(entries, id);
    assert multiset(plan.prune)[id] + multiset(AllSources(plan.merge))[id] <= IdBag(ToMemories(entries))[id];
  }

  /** The merge sources are what the planner marked, whatever the ids. */
  lemma SourcesAreMarked(memories: seq<Memory>, cutoff: int)
    ensures var retained := RetainedOf(memories, cutoff);
            IdsIn(AllSources(PlanFor(memories, cutoff).merge)) == Greedy(Similarity.Similar, retained, {}).1
  {
    var retained := RetainedOf(memories, cutoff);
    var groups := Greedy(Similarity.Similar, retained, {}).0;
    GreedyMarks(Similarity.Similar, retained, {});
    SourcesOfGroups(groups);
    forall id ensures id in AllSources(MergeAll(groups)) <==> id in IdSet(Flatten(groups)) {
      IdBagMembers(Flatten(groups), id);
      assert id in AllSources(MergeAll(groups)) <==> id in multiset(AllSources(MergeAll(groups)));
    }
  }

  /** No entry that is neither expired nor merged shares its id with an expired one. */
  predicate NoneCaught(entries: seq<Entry>, cutoff: int, sources: set<string>) {
    forall a <- entries, b <- entries ::
      !Expired(a, cutoff) && a.id !in sources && Expired(b, cutoff) ==> a.id != b.id
  }

  predicate Caught(e: Entry, cutoff: int, pruned: set<string>, marked: set<string>) {
    !Expired(e, cutoff) && e.id !in marked && e.id in pruned
  }

  lemma CountOneMore(front: seq<Entry>, last: Entry, cutoff: int, pruned: set<string>, marked: set<string>)
    ensures |WithoutIds(front + [last], pruned + marked)|
            == |WithoutIds(front, pruned + marked)| + if last.id in pruned + marked then 0 else 1
    ensures |Unmarked(RetainedOf(ToMemories(front + [last]), cutoff), marked)|
            == |Unmarked(RetainedOf(ToMemories(front), cutoff), marked)|
               + if Expired(last, cutoff) || last.id in marked then 0 else 1
  {
    assert (front + [last])[..|front + [last]| - 1] == front;
    ToMemoriesOneMore(front, last);
    RetentionOneMore(ToMemories(front), ToMemory(last), cutoff);
    UnmarkedOneMore(RetainedOf(ToMemories(front), cutoff), ToMemory(last), marked);
  }

  /** Applying the plan drops one entry more than planned for each one that a pruned id catches. */
  lemma {:induction false} CountsAgreeIff(entries: seq<Entry>, cutoff: int, pruned: set<string>, marked: set<string>)
    requires forall e <- entries :: Expired(e, cutoff) ==> e.id in pruned
    ensures var left := |WithoutIds(entries, pruned + marked)|;
            var planned := |Unmarked(RetainedOf(ToMemories(entries), cutoff), marked)|;
            left <= planned && (left == planned <==> forall e <- entries :: !Caught(e, cutoff, pruned, marked))
  {
    if entries != [] {
      var front, last := PopEntry(entries);
      CountsAgreeIff(front, cutoff, pruned, marked);
      CountOneMore(front, last, cutoff, pruned, marked);
      assert (forall e <- entries :: !Caught(e, cutoff, pruned, marked))
        <==> (forall e <- front :: !Caught(e, cutoff, pruned, marked)) && !Caught(last, cutoff, pruned, marked);
    } else {
      assert RetainedOf(ToMemories(entries), cutoff) == [];
    }
  }

  lemma CaughtByPruned(entries: seq<Entry>, cutoff: int, pruned: set<string>, marked: set<string>)
    requires forall id :: id in pruned <==> HasExpired(entries, id, cutoff)
    ensures NoneCaught(entries, cutoff, marked) <==> forall e <- entries :: !Caught(e, cutoff, pruned, marked)
  {
    if NoneCaught(entries, cutoff, marked) {
      forall e <- entries | e.id in pruned ensures !Caught(e, cutoff, pruned, marked) {
        var b :| b in entries && b.id == e.id && Expired(b, cutoff);
      }
    } else {
      var a, b :| a in entries && b in entries
                  && !Expired(a, cutoff) && a.id !in marked && Expired(b, cutoff) && a.id == b.id;
      assert HasExpired(entries, a.id, cutoff) && Caught(a, cutoff, pruned, marked);
    }
  }

  /**
    * Whatever the ids: applying the plan leaves untouched what the plan says to keep, in the same order, if and
    * only if no entry that is neither expired nor merged shares its id with an expired one; otherwise fewer stay.
    */
  lemma UntouchedIsKeptIff(entries: seq<Entry>, cutoff: int)
    ensures var plan := PlanOf(entries, cutoff);
            var untouched := Untouched(entries, plan);
            && |untouched| <= |plan.keep|
            && (|untouched| == |plan.keep| <==> NoneCaught(entries, cutoff, IdsIn(AllSources(plan.merge))))
            && (Ids(ToMemories(untouched)) == plan.keep <==> NoneCaught(entries, cutoff, IdsIn(AllSources(plan.merge))))
  {
    var plan := PlanOf(entries, cutoff);
    var pruned, marked := IdsIn(plan.prune), IdsIn(AllSources(plan.merge));
    SourcesAreMarked(ToMemories(entries), cutoff);
    PrunedAreExpired(entries, cutoff);
    forall e <- entries | Expired(e, cutoff) ensures e.id in pruned {
      assert HasExpired(entries, e.id, cutoff);
    }
    CountsAgreeIff(entries, cutoff, pruned, marked);
    CaughtByPruned(entries, cutoff, pruned, marked);
    if NoneCaught(entries, cutoff, marked) {
      forall e <- entries ensures e.id in pruned + marked <==> Expired(e, cutoff) || e.id in marked {
        assert !Caught(e, cutoff, pruned, marked);
      }
      KeptAreUnmarked(entries, cutoff, pruned + marked, marked);
    }
  }

  lemma UntouchedIsKept(entries: seq<Entry>, cutoff: int)
    requires DistinctEntries(entries)
    ensures var plan := PlanOf(entries, cutoff);
            Ids(ToMemories(Untouched(entries, plan))) == plan.keep
  {
    UntouchedIsKeptIff(entries, cutoff);
    forall a <- entries, b <- entries | !Expired(a, cutoff) && Expired(b, cutoff) ensures a.id != b.id {
      if a.id == b.id {
        SameId(entries, a, b);
      }
    }
  }

  lemma ExpiredById(entries: seq<Entry>, cutoff: int, e: Entry)
    requires DistinctEntries(entries) && e in entries
    ensures HasExpired(entries, e.id, cutoff) <==> Expired(e, cutoff)
  {
    if HasExpired(entries, e.id, cutoff) {
      var other :| other in entries && other.id == e.id && Expired(other, cutoff);
      SameId(entries, other, e);
    }
  }

  // ---------- Conservation ----------

  /** Pruned, merged and untouched entries make up working memory. */
  lemma EntriesAreAccountedFor(entries: seq<Entry>, cutoff: int)
    requires DistinctEntries(entries)
    ensures var plan := PlanOf(entries, cutoff);
            && |entries| == |plan.prune| + |AllSources(plan.merge)| + |Untouched(entries, plan)|
            && forall g <- plan.merge :: |g.sourceIds| >= 2
  {
    var plan := PlanOf(entries, cutoff);
    DistinctMemories(entries);
    PlanPartitionsInput(ToMemories(entries), cutoff);
    UntouchedIsKept(entries, cutoff);
    assert |IdBag(ToMemories(entries))| == |entries|;
    assert |plan.keep| == |Untouched(entries, plan)|;
    assert |multiset(plan.keep) + multiset(plan.prune) + multiset(AllSources(plan.merge))|
           == |plan.keep| + |plan.prune| + |AllSources(plan.merge)|;
  }

  lemma {:induction false} SourcesCount(groups: seq<MergeGroup>)
    requires forall g <- groups :: |g.sourceIds| >= 2
    ensures |AllSources(groups)| >= 2 * |groups|
  {
    if groups != [] {
      assert forall g <- groups[1..] :: g in groups;
      SourcesCount(groups[1..]);
      assert groups[0] in groups;
    }
  }

  lemma {:induction false} NoneIsEmpty(groups: seq<MergeGroup>)
    requires forall g <- groups :: g.sourceIds != []
    ensures NonEmpty(groups) == groups
  {
    if groups != [] {
      var front, last := Pop(groups);
      assert last in groups && forall g <- front :: g in groups;
      NoneIsEmpty(front);
    }
  }

  lemma MergedAre(groups: seq<MergeGroup>, byId: map<string, Entry>, newIds: IdSource, next: nat)
      returns (merged: seq<Entry>)
    ensures merged == MergedEntries(groups, byId, newIds, next) && |merged| == |groups|
    ensures forall i :: 0 <= i < |merged| ==> merged[i] == MergedEntry(groups[i], byId, newIds(next + i))
  {
    merged := MergedEntries(groups, byId, newIds, next);
  }

  lemma SurvivorsSplit(entries: seq<Entry>, plan: Plan, newIds: IdSource, next: nat) returns (merged: seq<Entry>)
    requires forall g <- plan.merge :: g.sourceIds != []
    ensures Survivors(entries, plan, newIds, next) == Untouched(entries, plan) + merged
    ensures |merged| == |plan.merge|
    ensures forall i :: 0 <= i < |merged| ==> merged[i] == MergedEntry(plan.merge[i], ById(entries), newIds(next + i))
  {
    NoneIsEmpty(plan.merge);
    merged := MergedAre(plan.merge, ById(entries), newIds, next);
  }

  /** Preferences grow by exactly the written entries, in order, and no snapshot changes. */
  lemma {:induction false} WritesAppend(p: Prefs, entries: seq<Entry>, newIds: IdSource, next: nat)
    ensures var q := WrittenAll(p, entries, newIds, next);
            && q.snapshots == p.snapshots && q.version == p.version && q.totalEntries == p.totalEntries + |entries|
            && |q.current| == |p.current| + |entries| && q.current[..|p.current|] == p.current
            && forall i :: 0 <= i < |entries| ==> q.current[|p.current| + i] == Labelled(entries[i], newIds(next + i))
  {
    if entries != [] {
      var front, last := Pop(entries);
      WritesAppend(p, front, newIds, next);
    }
  }

  lemma ReadBack(entries: seq<Entry>, months: nat)
    requires WithinMonths(entries, months)
    ensures var all := ReadUpTo(Grouped(entries), months);
            && |all| == |entries| && multiset(all) == multiset(entries)
            && forall e :: e in all <==> e in entries
  {
    ReplaceThenRead(entries, months, 0);
    var all := ReadUpTo(Grouped(entries), months);
    assert |multiset(all)| == |multiset(entries)|;
    assert forall e :: e in all <==> e in multiset(all);
  }

  /** Survivors stay or are promoted, and what stays is below 0.7. */
  lemma SurvivorsAreAccountedFor(prefs: Prefs, entries: seq<Entry>, plan: Plan, newIds: IdSource, next: nat, months: nat)
    requires WithinMonths(entries, months) && UNSET.month < months
    requires forall g <- plan.merge :: g.sourceIds != []
    ensures var (t', r) := Applied(prefs, entries, plan, newIds, next);
            var all := ReadUpTo(t'.files, months);
            && |all| == r.workingAfter
            && r.workingAfter + r.promoted == |Untouched(entries, plan)| + r.merged
            && forall e <- all :: e.salience < 0.7
  {
    var survivors := Survivors(entries, plan, newIds, next);
    var merged := SurvivorsSplit(entries, plan, newIds, next);
    RemainingMembers(survivors);
    SurvivorsWithinMonths(entries, plan, newIds, next, months);
    ReadBack(Remaining(survivors), months);
  }

  /** The account of a run that carries out a plan. */
  predicate Balances(entries: seq<Entry>, plan: Plan, r: ConsolidationResult) {
    && r.workingBefore == |entries| && r.pruned == |plan.prune| && r.merged == |plan.merge|
    && r.workingBefore == r.pruned + |AllSources(plan.merge)| + |Untouched(entries, plan)|
    && r.workingAfter + r.promoted == |Untouched(entries, plan)| + r.merged
    && 2 * r.merged <= |AllSources(plan.merge)|
  }

  /** Preferences keep what they had and take `n` more entries behind it. */
  predicate GrowsBy(before: Prefs, after: Prefs, n: nat) {
    && |after.current| == |before.current| + n && after.current[..|before.current|] == before.current
    && after.totalEntries == before.totalEntries + n
  }

  lemma PreferencesGrow(prefs: Prefs, entries: seq<Entry>, plan: Plan, newIds: IdSource, next: nat)
    ensures var (t', r) := Applied(Snapshotted(prefs), entries, plan, newIds, next);
            && GrowsBy(prefs, t'.prefs, r.promoted)
            && r.prefsBefore == prefs.totalEntries && r.prefsAfter == t'.prefs.totalEntries
  {
    WritesAppend(Snapshotted(prefs), Promoted(Survivors(entries, plan, newIds, next)), newIds, next + |plan.merge|);
  }

  lemma PlanBalances(prefs: Prefs, entries: seq<Entry>, plan: Plan, newIds: IdSource, next: nat, months: nat)
    requires WithinMonths(entries, months) && UNSET.month < months
    requires |entries| == |plan.prune| + |AllSources(plan.merge)| + |Untouched(entries, plan)|
    requires forall g <- plan.merge :: |g.sourceIds| >= 2
    ensures Balances(entries, plan, Applied(prefs, entries, plan, newIds, next).1)
  {
    SourcesCount(plan.merge);
    SurvivorsAreAccountedFor(prefs, entries, plan, newIds, next, months);
  }

  /**
    * Every entry is pruned, merged or untouched; untouched and merged ones stay or are promoted; preferences
    * grow by exactly the promoted ones; and nothing of salience 0.7 or more stays in working memory.
    */
  lemma ConsolidationConserves(t: Tiers, months: nat, cutoff: int, newIds: IdSource, next: nat)
    requires Filed(t.files, months) && UNSET.month < months
    requires DistinctEntries(ReadUpTo(t.files, months)) && ReadUpTo(t.files, months) != []
    ensures var entries := ReadUpTo(t.files, months);
            var (t', r) := Consolidated(t, months, cutoff, newIds, next);
            && Balances(entries, PlanOf(entries, cutoff), r)
            && |ReadUpTo(t'.files, months)| == r.workingAfter
            && (forall e <- ReadUpTo(t'.files, months) :: e.salience < 0.7)
            && GrowsBy(t.prefs, t'.prefs, r.promoted)
            && r.prefsBefore == t.prefs.totalEntries && r.prefsAfter == t'.prefs.totalEntries
  {
    var entries := ReadUpTo(t.files, months);
    ReadWithinMonths(t.files, months, months);
    PlannedRoundConserves(t.prefs, entries, PlanOf(entries, cutoff), cutoff, newIds, next, months);
  }

  lemma PlannedRoundConserves(prefs: Prefs, entries: seq<Entry>, plan: Plan, cutoff: int,
                              newIds: IdSource, next: nat, months: nat)
    requires WithinMonths(entries, months) && UNSET.month < months
    requires DistinctEntries(entries) && plan == PlanOf(entries, cutoff)
    ensures var (t', r) := Applied(Snapshotted(prefs), entries, plan, newIds, next);
            && Balances(entries, plan, r)
            && |ReadUpTo(t'.files, months)| == r.workingAfter
            && (forall e <- ReadUpTo(t'.files, months) :: e.salience < 0.7)
            && GrowsBy(prefs, t'.prefs, r.promoted)
            && r.prefsBefore == prefs.totalEntries && r.prefsAfter == t'.prefs.totalEntries
  {
    EntriesAreAccountedFor(entries, cutoff);
    PlanBalances(Snapshotted(prefs), entries, plan, newIds, next, months);
    SurvivorsAreAccountedFor(Snapshotted(prefs), entries, plan, newIds, next, months);
    PreferencesGrow(prefs, entries, plan, newIds, next);
  }

  /** With empty working memory a run takes its snapshot, reports zeros and changes nothing else. */
  lemma EmptyRunOnlySnapshots(t: Tiers, months: nat, cutoff: int, newIds: IdSource, next: nat)
    requires ReadUpTo(t.files, months) == []
    ensures var (t', r) := Consolidated(t, months, cutoff, newIds, next);
            && t'.files == t.files && t'.prefs.current == t.prefs.current && t'.prefs.totalEntries == t.prefs.totalEntries
            && t'.prefs.version == t.prefs.version + 1
            && t'.prefs.snapshots == t.prefs.snapshots[t.prefs.version + 1 := t.prefs.current]
            && r == ConsolidationResult(0, 0, 0, t.prefs.version + 1, 0, 0, 0, 0)
  {
  }

  lemma LoneMemoryIsKept(alike: Likeness, memories: seq<Memory>, marked: set<string>)
    requires |memories| == 1 && marked == {}
    ensures Greedy(alike, memories, marked) == ([], marked) && Unmarked(memories, marked) == memories
  {
    var rest := memories[1..];
    assert rest == [];
    assert Gather(alike, memories[0], rest, marked) == ([memories[0]], marked);
    assert Greedy(alike, rest, marked) == ([], marked);
    UnmarkedByNothing(memories);
  }

  lemma PlanOfOneRetained(memories: seq<Memory>, cutoff: int)
    requires |RetainedOf(memories, cutoff)| == 1
    ensures PlanFor(memories, cutoff) == Plan(Ids(RetainedOf(memories, cutoff)), PrunedIds(memories, cutoff), [])
  {
    LoneMemoryIsKept(Similarity.Similar, RetainedOf(memories, cutoff), {});
  }

  lemma RetainedOfTwo(memories: seq<Memory>, cutoff: int)
    requires |memories| == 2 && !Retained(memories[0], cutoff) && Retained(memories[1], cutoff)
    ensures RetainedOf(memories, cutoff) == [memories[1]] && PrunedIds(memories, cutoff) == [memories[0].id]
  {
    var front, recent := PopMemory(memories);
    var none, stale := PopMemory(front);
    RetentionOneMore(none, stale, cutoff);
    RetentionOneMore(front, recent, cutoff);
  }

  lemma PlanOfStaleAndRecent(stale: Entry, recent: Entry, cutoff: int)
    requires stale.id == recent.id && Expired(stale, cutoff) && !Expired(recent, cutoff)
    ensures PlanOf([stale, recent], cutoff) == Plan([recent.id], [stale.id], [])
  {
    var memories := ToMemories([stale, recent]);
    RetainedOfTwo(memories, cutoff);
    PlanOfOneRetained(memories, cutoff);
    assert Ids([memories[1]]) == [recent.id];
  }

  lemma PrunedIsDropped(entries: seq<Entry>, plan: Plan)
    requires forall e <- entries :: e.id in plan.prune
    ensures Untouched(entries, plan) == []
  {
    AllDropped(entries, IdsIn(plan.prune) + IdsIn(AllSources(plan.merge)));
  }

  /** The smallest case of it: one id on an expired and on a current entry. */
  lemma SharedIdLosesCurrentEntry(stale: Entry, recent: Entry, cutoff: int)
    requires stale.id == recent.id && Expired(stale, cutoff) && !Expired(recent, cutoff)
    ensures var plan := PlanOf([stale, recent], cutoff);
            plan == Plan([recent.id], [stale.id], []) && Untouched([stale, recent], plan) == []
  {
    PlanOfStaleAndRecent(stale, recent, cutoff);
    PrunedIsDropped([stale, recent], Plan([recent.id], [stale.id], []));
  }

  lemma {:induction false} AllDropped(entries: seq<Entry>, ids: set<string>)
    requires forall e <- entries :: e.id in ids
    ensures WithoutIds(entries, ids) == []
  {
    if entries != [] {
      var front, last := PopEntry(entries);
      AllDropped(front, ids);
    }
  }

  // ---------- Promotion ----------

  /** A survivor that stands for an entry: the entry itself, or the merge that took it in. */
  ghost predicate StandsFor(s: Entry, e: Entry, entries: seq<Entry>, plan: Plan, newIds: IdSource, next: nat) {
    || (s == e && e in Untouched(entries, plan))
    || exists i :: 0 <= i < |plan.merge| && e.id in plan.merge[i].sourceIds
                   && s == MergedEntry(plan.merge[i], ById(entries), newIds(next + i))
  }

  predicate Preserves(p: Entry, s: Entry) {
    && p.content == s.content && p.salience == s.salience && p.timestamp == s.timestamp && p.tags == s.tags
    && p.layer == "preferences" && p.source == "consolidation" && (s.id != "" ==> p.id == s.id)
  }

  /** Some entry that preferences gained preserves `s`. */
  ghost predicate Gains(before: Prefs, after: Prefs, s: Entry) {
    exists k :: |before.current| <= k < |after.current| && Preserves(after.current[k], s)
  }

  lemma StandInSurvives(s: Entry, e: Entry, entries: seq<Entry>, plan: Plan, newIds: IdSource, next: nat)
    requires StandsFor(s, e, entries, plan, newIds, next) && forall g <- plan.merge :: g.sourceIds != []
    ensures s in Survivors(entries, plan, newIds, next)
  {
    var merged := SurvivorsSplit(entries, plan, newIds, next);
    if !(s == e && e in Untouched(entries, plan)) {
      var i :| 0 <= i < |plan.merge| && e.id in plan.merge[i].sourceIds
               && s == MergedEntry(plan.merge[i], ById(entries), newIds(next + i));
      assert s == merged[i];
    }
  }

  lemma WrittenIsGained(prefs: Prefs, written: seq<Entry>, newIds: IdSource, next: nat, s: Entry)
    requires Promotion(s) in written
    ensures Gains(prefs, WrittenAll(Snapshotted(prefs), written, newIds, next), s)
  {
    WritesAppend(Snapshotted(prefs), written, newIds, next);
    var k :| 0 <= k < |written| && written[k] == Promotion(s);
    assert Preserves(WrittenAll(Snapshotted(prefs), written, newIds, next).current[|prefs.current| + k], s);
  }

  lemma SalientIsPromoted(survivors: seq<Entry>, s: Entry)
    requires s in survivors && s.salience >= 0.7
    ensures Promotion(s) in Promoted(survivors)
  {
    RemainingMembers(survivors);
  }

  lemma SalientSurvivorIsGained(prefs: Prefs, entries: seq<Entry>, plan: Plan, newIds: IdSource, next: nat, s: Entry)
    requires s in Survivors(entries, plan, newIds, next) && s.salience >= 0.7
    ensures Gains(prefs, Applied(Snapshotted(prefs), entries, plan, newIds, next).0.prefs, s)
  {
    var survivors := Survivors(entries, plan, newIds, next);
    SalientIsPromoted(survivors, s);
    WrittenIsGained(prefs, Promoted(survivors), newIds, next + |plan.merge|, s);
  }

  lemma {:induction false} MaxSalienceBounds(ids: seq<string>, byId: map<string, Entry>, id: string)
    requires id in ids && id in byId
    ensures byId[id].salience <= MaxSalience(ids, byId)
  {
    var front, last := Pop(ids);
    if id in front {
      MaxSalienceBounds(front, byId, id);
    }
  }

  lemma {:induction false} SourceHasGroup(groups: seq<MergeGroup>, id: string) returns (i: nat)
    requires id in AllSources(groups)
    ensures i < |groups| && id in groups[i].sourceIds
  {
    if id in groups[0].sourceIds {
      i := 0;
    } else {
      i := SourceHasGroup(groups[1..], id);
      i := i + 1;
    }
  }

  lemma {:induction false} GroupSourcesAreSources(groups: seq<MergeGroup>, i: nat, id: string)
    requires i < |groups| && id in groups[i].sourceIds
    ensures id in AllSources(groups)
  {
    if i > 0 {
      GroupSourcesAreSources(groups[1..], i - 1, id);
    }
  }

  /** An entry the retention filter lets pass survives, itself or in a merge, with no loss of salience. */
  lemma RetainedHasStandIn(entries: seq<Entry>, cutoff: int, newIds: IdSource, next: nat, e: Entry) returns (s: Entry)
    requires DistinctEntries(entries) && e in entries && !Expired(e, cutoff)
    ensures StandsFor(s, e, entries, PlanOf(entries, cutoff), newIds, next) && s.salience >= e.salience
  {
    var plan := PlanOf(entries, cutoff);
    PlanSends(entries, cutoff, e.id);
    ExpiredById(entries, cutoff, e);
    ByIdIsKeyed(entries);
    if e.id in AllSources(plan.merge) {
      var i := SourceHasGroup(plan.merge, e.id);
      s := MergedEntry(plan.merge[i], ById(entries), newIds(next + i));
      MaxSalienceBounds(plan.merge[i].sourceIds, ById(entries), e.id);
    } else {
      s := e;
      WithoutMembers(entries, IdsIn(plan.prune) + IdsIn(AllSources(plan.merge)));
    }
  }

  lemma ExpiredHasNoStandIn(entries: seq<Entry>, cutoff: int, newIds: IdSource, next: nat, e: Entry, s: Entry)
    requires DistinctEntries(entries) && e in entries && Expired(e, cutoff)
    ensures !StandsFor(s, e, entries, PlanOf(entries, cutoff), newIds, next)
  {
    var plan := PlanOf(entries, cutoff);
    PlanSends(entries, cutoff, e.id);
    WithoutMembers(entries, IdsIn(plan.prune) + IdsIn(AllSources(plan.merge)));
    forall i | 0 <= i < |plan.merge| ensures e.id !in plan.merge[i].sourceIds {
      if e.id in plan.merge[i].sourceIds {
        GroupSourcesAreSources(plan.merge, i, e.id);
      }
    }
  }

  /** Preferences gain an entry that stands for `e` and is at least as salient. */
  ghost predicate ReachesPreferences(e: Entry, prefs: Prefs, entries: seq<Entry>, plan: Plan, newIds: IdSource, next: nat) {
    exists s :: StandsFor(s, e, entries, plan, newIds, next) && s.salience >= e.salience
                && Gains(prefs, Applied(Snapshotted(prefs), entries, plan, newIds, next).0.prefs, s)
  }

  /**
    * An entry salient enough for promotion reaches preferences, except that one of salience exactly 0.7 that
    * is past the retention period is pruned first: the filter asks for more than 0.7, promotion for 0.7.
    */
  lemma SalientReachPreferencesIff(prefs: Prefs, entries: seq<Entry>, cutoff: int, newIds: IdSource, next: nat, e: Entry)
    requires DistinctEntries(entries) && e in entries && e.salience >= 0.7
    ensures ReachesPreferences(e, prefs, entries, PlanOf(entries, cutoff), newIds, next)
            <==> !(e.salience == 0.7 && WholeSeconds(e.timestamp.ns) < cutoff)
  {
    var plan := PlanOf(entries, cutoff);
    if Expired(e, cutoff) {
      forall s ensures !StandsFor(s, e, entries, plan, newIds, next) {
        ExpiredHasNoStandIn(entries, cutoff, newIds, next, e, s);
      }
    } else {
      var s := RetainedHasStandIn(entries, cutoff, newIds, next, e);
      EntriesAreAccountedFor(entries, cutoff);
      StandInSurvives(s, e, entries, plan, newIds, next);
      SalientSurvivorIsGained(prefs, entries, plan, newIds, next, s);
    }
  }

  // ---------- Retention ----------

  const DAY_NS: int := 86_400_000_000_000

  /** Older than the retention period at `now`, in whole seconds, and of salience 0.7 or less. */
  predicate PastRetention(e: Entry, now: int, retentionDays: int) {
    e.salience <= 0.7 && e.timestamp.ns - e.timestamp.ns % 1_000_000_000 + retentionDays * DAY_NS < now
  }

  lemma ExpiredMeans(e: Entry, now: int, retentionDays: int)
    ensures Expired(e, Cutoff(now, retentionDays)) <==> PastRetention(e, now, retentionDays)
  {
  }

  /** Something stands for the entry after the run: in working memory, or, if salient, gained by preferences. */
  ghost predicate Survives(e: Entry, before: Tiers, after: Tiers, months: nat, plan: Plan, newIds: IdSource, next: nat) {
    var entries := ReadUpTo(before.files, months);
    exists s :: StandsFor(s, e, entries, plan, newIds, next)
                && if s.salience >= 0.7 then Gains(before.prefs, after.prefs, s) else s in ReadUpTo(after.files, months)
  }

  lemma LightSurvivorStays(prefs: Prefs, entries: seq<Entry>, plan: Plan, newIds: IdSource, next: nat, months: nat, s: Entry)
    requires WithinMonths(entries, months) && UNSET.month < months
    requires s in Survivors(entries, plan, newIds, next) && s.salience < 0.7
    ensures s in ReadUpTo(Applied(prefs, entries, plan, newIds, next).0.files, months)
  {
    var survivors := Survivors(entries, plan, newIds, next);
    RemainingMembers(survivors);
    SurvivorsWithinMonths(entries, plan, newIds, next, months);
    ReadBack(Remaining(survivors), months);
  }

  /**
    * Running a consolidation at `now` prunes an entry of working memory if and only if it is past retention then;
    * and exactly the others survive, alone or in a merge, in one of the two tiers.
    */
  lemma PrunedIffPastRetention(t: Tiers, months: nat, now: int, retentionDays: int, newIds: IdSource, next: nat, e: Entry)
    requires Filed(t.files, months) && UNSET.month < months
    requires DistinctEntries(ReadUpTo(t.files, months)) && e in ReadUpTo(t.files, months)
    ensures var plan := PlanOf(ReadUpTo(t.files, months), Cutoff(now, retentionDays));
            var t' := Consolidated(t, months, Cutoff(now, retentionDays), newIds, next).0;
            && (e.id in plan.prune <==> PastRetention(e, now, retentionDays))
            && (Survives(e, t, t', months, plan, newIds, next) <==> !PastRetention(e, now, retentionDays))
  {
    var entries, cutoff := ReadUpTo(t.files, months), Cutoff(now, retentionDays);
    var plan := PlanOf(entries, cutoff);
    ExpiredMeans(e, now, retentionDays);
    PlanSends(entries, cutoff, e.id);
    ExpiredById(entries, cutoff, e);
    if Expired(e, cutoff) {
      forall s ensures !StandsFor(s, e, entries, plan, newIds, next) {
        ExpiredHasNoStandIn(entries, cutoff, newIds, next, e, s);
      }
    } else {
      CurrentSurvives(t, months, cutoff, newIds, next, e);
    }
  }

  lemma CurrentSurvives(t: Tiers, months: nat, cutoff: int, newIds: IdSource, next: nat, e: Entry)
    requires Filed(t.files, months) && UNSET.month < months
    requires DistinctEntries(ReadUpTo(t.files, months)) && e in ReadUpTo(t.files, months) && !Expired(e, cutoff)
    ensures Survives(e, t, Consolidated(t, months, cutoff, newIds, next).0, months,
                     PlanOf(ReadUpTo(t.files, months), cutoff), newIds, next)
  {
    var s := RetainedHasStandIn(ReadUpTo(t.files, months), cutoff, newIds, next, e);
    StandInIsKept(t, months, cutoff, newIds, next, e, s);
  }

  /** What stands for an entry is in working memory after the run, or, if salient, in preferences. */
  lemma StandInIsKept(t: Tiers, months: nat, cutoff: int, newIds: IdSource, next: nat, e: Entry, s: Entry)
    requires Filed(t.files, months) && UNSET.month < months
    requires DistinctEntries(ReadUpTo(t.files, months)) && e in ReadUpTo(t.files, months)
    requires StandsFor(s, e, ReadUpTo(t.files, months), PlanOf(ReadUpTo(t.files, months), cutoff), newIds, next)
    ensures var t' := Consolidated(t, months, cutoff, newIds, next).0;
            if s.salience >= 0.7 then Gains(t.prefs, t'.prefs, s) else s in ReadUpTo(t'.files, months)
  {
    var entries := ReadUpTo(t.files, months);
    var plan := PlanOf(entries, cutoff);
    EntriesAreAccountedFor(entries, cutoff);
    StandInSurvives(s, e, entries, plan, newIds, next);
    ReadWithinMonths(t.files, months, months);
    if s.salience >= 0.7 {
      SalientSurvivorIsGained(t.prefs, entries, plan, newIds, next, s);
    } else {
      LightSurvivorStays(Snapshotted(t.prefs), entries, plan, newIds, next, months, s);
    }
  }

  // ---------- Rollback ----------

  lemma ConsolidationKeepsSnapshots(t: Tiers, months: nat, cutoff: int, newIds: IdSource, next: nat)
    requires Sound(t.prefs)
    ensures var (t', r) := Consolidated(t, months, cutoff, newIds, next);
            && Sound(t'.prefs) && t'.prefs.snapshots == Snapshotted(t.prefs).snapshots
            && t'.prefs.version == r.snapshotVer == t.prefs.version + 1
  {
    var entries := ReadUpTo(t.files, months);
    if entries != [] {
      AppliedKeepsSnapshots(Snapshotted(t.prefs), entries, PlanOf(entries, cutoff), newIds, next);
    }
  }

  lemma AppliedKeepsSnapshots(prefs: Prefs, entries: seq<Entry>, plan: Plan, newIds: IdSource, next: nat)
    requires Sound(prefs)
    ensures var (t', r) := Applied(prefs, entries, plan, newIds, next);
            && Sound(t'.prefs) && t'.prefs.snapshots == prefs.snapshots && t'.prefs.version == r.snapshotVer == prefs.version
  {
    WritesAppend(prefs, Promoted(Survivors(entries, plan, newIds, next)), newIds, next + |plan.merge|);
  }

  /** Whatever is done to preferences after a consolidation, rolling back to its snapshot undoes it there. */
  lemma RollbackUndoesConsolidation(t: Tiers, months: nat, cutoff: int, newIds: IdSource, next: nat, ops: seq<Op>)
    requires Sound(t.prefs)
    ensures var (t', r) := Consolidated(t, months, cutoff, newIds, next);
            var back := RolledBack(ApplyAll(t'.prefs, ops), r.snapshotVer);
            back.current == t.prefs.current && back.totalEntries == t.prefs.totalEntries
  {
    ConsolidationKeepsSnapshots(t, months, cutoff, newIds, next);
    var (t', r) := Consolidated(t, months, cutoff, newIds, next);
    SnapshotsAreKept(t'.prefs, ops, r.snapshotVer);
  }
}
