/** What merging in a consolidation does to the contents: no word of a memory that is not pruned is lost. */
module ConsolidationWords {
  import opened Prelude
  import opened MemoryEntries
  import opened WorkingMemory
  import opened Preferences
  import opened Consolidator
  import opened Consolidation
  import opened PlanTheorems
  import opened ConsolidationTheorems
  import opened Words
  import Similarity

  /** Every word of the entry is one of the text, or stands in it before a blank or semicolon. */
  ghost predicate SaysAll(text: string, e: Entry) {
    forall word :: HasWord(e.content, word) ==> HasWord(text, word) || Stands(text, word)
  }

  // ---------- The group behind a merge ----------

  lemma {:induction false} GroupOfMerge(groups: seq<seq<Memory>>, i: nat) returns (group: seq<Memory>)
    requires i < |MergeAll(groups)| && forall g <- groups :: |g| > 1
    ensures group in groups && MergeAll(groups)[i] == Merge(group) && group != []
  {
    group := groups[i];
  }

  lemma MemberById(memories: seq<Memory>, group: seq<Memory>, e: Entry, entries: seq<Entry>)
    requires DistinctEntries(entries) && e in entries && memories == ToMemories(entries)
    requires group != [] && (forall m <- group :: m in memories) && e.id in Merge(group).sourceIds
    ensures ToMemory(e) in group
  {
    MergeListsItsGroup(group);
    assert e.id in multiset(Merge(group).sourceIds);
    IdBagMembers(group, e.id);
    var m :| m in group && m.id == e.id;
    var k :| 0 <= k < |memories| && memories[k] == m;
    SameId(entries, entries[k], e);
  }

  /** The entries a merge takes in form a group of memories that it merges. */
  lemma MergeHasGroup(entries: seq<Entry>, cutoff: int, i: nat, e: Entry) returns (group: seq<Memory>)
    requires DistinctEntries(entries) && e in entries
    requires i < |PlanOf(entries, cutoff).merge| && e.id in PlanOf(entries, cutoff).merge[i].sourceIds
    ensures group != [] && PlanOf(entries, cutoff).merge[i] == Merge(group) && ToMemory(e) in group
  {
    var memories := ToMemories(entries);
    var retained := RetainedOf(memories, cutoff);
    var clusters := ClustersFor(memories, cutoff);
    DistinctMemories(entries);
    PlanFollowsClusters(memories, cutoff);
    GroupsAreLarge(clusters);
    group := GroupOfMerge(Groups(clusters), i);
    AllClusterMembers(Similarity.Similar, retained);
    RetainedMembers(memories, cutoff);
    MemberById(memories, group, e, entries);
  }

  // ---------- Merged entries ----------

  /** A merge's entry has the new id and the merged text, and is as salient as the most salient of its sources. */
  lemma MergedEntryIs(g: MergeGroup, byId: map<string, Entry>, newId: string)
    ensures var s := MergedEntry(g, byId, newId);
            && s.id == newId && s.content == g.mergedContent && s.source == "consolidation" && s.tags == []
            && s.layer == "working"
            && (forall id <- g.sourceIds :: id in byId ==> byId[id].salience <= s.salience)
            && (s.salience == 0.0 || exists id <- g.sourceIds :: id in byId && byId[id].salience == s.salience)
  {
    forall id | id in g.sourceIds && id in byId ensures byId[id].salience <= MaxSalience(g.sourceIds, byId) {
      MaxSalienceBounds(g.sourceIds, byId, id);
    }
    MaxSalienceIsOne(g.sourceIds, byId);
  }

  lemma {:induction false} MaxSalienceIsOne(ids: seq<string>, byId: map<string, Entry>)
    ensures MaxSalience(ids, byId) == 0.0 || exists id <- ids :: id in byId && byId[id].salience == MaxSalience(ids, byId)
  {
    if ids != [] {
      var front, last := Pop(ids);
      MaxSalienceIsOne(front, byId);
      assert last in ids && forall id <- front :: id in ids;
    }
  }

  lemma MergeSaysAll(group: seq<Memory>, e: Entry)
    requires group != [] && ToMemory(e) in group
    ensures SaysAll(Merge(group).mergedContent, e)
  {
    var primary := NoWordIsLost(group);
    forall word | HasWord(e.content, word)
      ensures HasWord(Merge(group).mergedContent, word) || Stands(Merge(group).mergedContent, word)
    {
      assert HasWord(ToMemory(e).content, word);
      if HasWord(primary.content, word) {
        WordsStay(primary.content, Merge(group).mergedContent, word);
      }
    }
  }

  lemma StandInSaysAll(entries: seq<Entry>, cutoff: int, newIds: IdSource, next: nat, e: Entry, s: Entry)
    requires DistinctEntries(entries) && e in entries
    requires StandsFor(s, e, entries, PlanOf(entries, cutoff), newIds, next)
    ensures SaysAll(s.content, e)
  {
    var plan := PlanOf(entries, cutoff);
    if !(s == e && e in Untouched(entries, plan)) {
      var i :| 0 <= i < |plan.merge| && e.id in plan.merge[i].sourceIds
               && s == MergedEntry(plan.merge[i], ById(entries), newIds(next + i));
      var group := MergeHasGroup(entries, cutoff, i, e);
      MergeSaysAll(group, e);
    }
  }

  /**
    * Whatever stands for an entry after a run says all its words: with PrunedIffPastRetention, no word of an entry
    * that is not past retention is lost.
    */
  lemma NoWordLeavesMemory(t: Tiers, months: nat, now: int, retentionDays: int, newIds: IdSource, next: nat, e: Entry)
    requires Filed(t.files, months) && UNSET.month < months
    requires DistinctEntries(ReadUpTo(t.files, months)) && e in ReadUpTo(t.files, months)
    requires !PastRetention(e, now, retentionDays)
    ensures var t' := Consolidated(t, months, Cutoff(now, retentionDays), newIds, next).0;
            exists s: Entry :: SaysAll(s.content, e) && s.salience >= e.salience
                        && if s.salience >= 0.7 then Gains(t.prefs, t'.prefs, s) else s in ReadUpTo(t'.files, months)
  {
    var entries, cutoff := ReadUpTo(t.files, months), Cutoff(now, retentionDays);
    var plan := PlanOf(entries, cutoff);
    ExpiredMeans(e, now, retentionDays);
    var s := RetainedHasStandIn(entries, cutoff, newIds, next, e);
    StandInSaysAll(entries, cutoff, newIds, next, e, s);
    StandInIsKept(t, months, cutoff, newIds, next, e, s);
  }
}
