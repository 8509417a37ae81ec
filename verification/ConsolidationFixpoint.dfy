/** Consolidating again and again at one instant settles within as many rounds as there are entries. */
module ConsolidationFixpoint {
  import opened Prelude
  import opened MemoryEntries
  import opened WorkingMemory
  import opened Preferences
  import opened Consolidator
  import opened Consolidation
  import opened PlanTheorems
  import opened ConsolidationTheorems

  /** Nothing to prune and nothing to promote. */
  predicate Settled(entries: seq<Entry>, cutoff: int) {
    forall e <- entries :: e.salience < 0.7 && cutoff <= WholeSeconds(e.timestamp.ns)
  }

  /** From `next` on the generator yields ids of no entry, each once. */
  ghost predicate Supplies(newIds: IdSource, next: nat, entries: seq<Entry>) {
    && (forall m: nat, n: nat :: next <= m < n ==> newIds(m) != newIds(n))
    && (forall n: nat, e :: next <= n && e in entries ==> newIds(n) != e.id)
  }

  // ---------- Ids stay distinct ----------

  lemma {:induction false} WithoutKeepsDistinct(entries: seq<Entry>, ids: set<string>)
    requires DistinctEntries(entries)
    ensures DistinctEntries(WithoutIds(entries, ids))
  {
    if entries != [] {
      var front, last := PopEntry(entries);
      WithoutKeepsDistinct(front, ids);
      WithoutMembers(front, ids);
    }
  }

  lemma {:induction false} RemainingKeepsDistinct(survivors: seq<Entry>)
    requires DistinctEntries(survivors)
    ensures DistinctEntries(Remaining(survivors))
  {
    if survivors != [] {
      var front, last := PopEntry(survivors);
      RemainingKeepsDistinct(front);
      RemainingMembers(front);
    }
  }

  lemma SurvivorsAreDistinct(entries: seq<Entry>, plan: Plan, newIds: IdSource, next: nat)
    requires DistinctEntries(entries) && Supplies(newIds, next, entries)
    requires forall g <- plan.merge :: g.sourceIds != []
    ensures DistinctEntries(Survivors(entries, plan, newIds, next))
    ensures Supplies(newIds, next + |plan.merge|, Survivors(entries, plan, newIds, next))
  {
    var dropped := IdsIn(plan.prune) + IdsIn(AllSources(plan.merge));
    WithoutKeepsDistinct(entries, dropped);
    WithoutMembers(entries, dropped);
    var merged := SurvivorsSplit(entries, plan, newIds, next);
    DistinctConcat(Untouched(entries, plan), merged, newIds, next);
  }

  lemma DistinctConcat(a: seq<Entry>, b: seq<Entry>, newIds: IdSource, next: nat)
    requires DistinctEntries(a) && Supplies(newIds, next, a)
    requires forall i :: 0 <= i < |b| ==> b[i].id == newIds(next + i)
    ensures DistinctEntries(a + b) && Supplies(newIds, next + |b|, a + b)
  {
    forall i, j | 0 <= i < j < |a + b| ensures (a + b)[i].id != (a + b)[j].id {
      if i < |a| <= j {
        assert a[i] in a;
      }
    }
    forall n: nat, e | next + |b| <= n && e in a + b ensures newIds(n) != e.id {
      if e !in a {
        var i :| 0 <= i < |b| && b[i] == e;
        assert next + i < n;
      }
    }
  }

  lemma {:induction false} OnceEach(entries: seq<Entry>, e: Entry)
    requires DistinctEntries(entries)
    ensures multiset(entries)[e] <= 1
  {
    if entries != [] {
      var front, last := PopEntry(entries);
      OnceEach(front, e);
    }
  }

  lemma CountedTwice<T>(s: seq<T>, i: nat, j: nat)
    requires i < j < |s| && s[i] == s[j]
    ensures multiset(s)[s[i]] >= 2
  {
    var front, back := s[..j], s[j..];
    assert s == front + back && front[i] == s[i] && back[0] == s[i];
  }

  lemma ReorderingKeepsDistinct(a: seq<Entry>, b: seq<Entry>)
    requires multiset(a) == multiset(b) && DistinctEntries(a)
    ensures DistinctEntries(b)
  {
    forall i, j | 0 <= i < j < |b| ensures b[i].id != b[j].id {
      assert b[i] in multiset(b) && b[j] in multiset(b);
      if b[i] == b[j] {
        CountedTwice(b, i, j);
        OnceEach(a, b[i]);
      }
    }
  }

  // ---------- One round ----------

  lemma SourceIsCurrent(entries: seq<Entry>, cutoff: int, i: nat, id: string) returns (e: Entry)
    requires DistinctEntries(entries)
    requires i < |PlanOf(entries, cutoff).merge| && id in PlanOf(entries, cutoff).merge[i].sourceIds
    ensures e in entries && e.id == id && !Expired(e, cutoff)
    ensures id in ById(entries) && ById(entries)[id] == e
  {
    GroupSourcesAreSources(PlanOf(entries, cutoff).merge, i, id);
    PlanSends(entries, cutoff, id);
    e :| e in entries && e.id == id;
    ExpiredById(entries, cutoff, e);
    ByIdIsKeyed(entries);
  }

  /** A merge that is not promoted comes from entries inside the retention period, and is inside itself. */
  lemma LightMergeIsCurrent(entries: seq<Entry>, cutoff: int, i: nat, newId: string)
    requires DistinctEntries(entries) && i < |PlanOf(entries, cutoff).merge|
    requires PlanOf(entries, cutoff).merge[i].sourceIds != []
    requires MaxSalience(PlanOf(entries, cutoff).merge[i].sourceIds, ById(entries)) < 0.7
    ensures cutoff <= WholeSeconds(MergedEntry(PlanOf(entries, cutoff).merge[i], ById(entries), newId).timestamp.ns)
  {
    var ids, byId := PlanOf(entries, cutoff).merge[i].sourceIds, ById(entries);
    var first := SourceIsCurrent(entries, cutoff, i, ids[0]);
    EarliestIsASource(ids, byId);
    var id :| id in ids && id in byId && byId[id].timestamp == Earliest(ids, byId);
    var e := SourceIsCurrent(entries, cutoff, i, id);
    MaxSalienceBounds(ids, byId, id);
  }

  lemma LightSurvivorIsCurrent(entries: seq<Entry>, cutoff: int, newIds: IdSource, next: nat, s: Entry)
    requires DistinctEntries(entries) && s in Survivors(entries, PlanOf(entries, cutoff), newIds, next) && s.salience < 0.7
    ensures cutoff <= WholeSeconds(s.timestamp.ns)
  {
    var plan := PlanOf(entries, cutoff);
    EntriesAreAccountedFor(entries, cutoff);
    WithoutMembers(entries, IdsIn(plan.prune) + IdsIn(AllSources(plan.merge)));
    if s in Untouched(entries, plan) {
      PlanSends(entries, cutoff, s.id);
    } else {
      var merged := SurvivorsSplit(entries, plan, newIds, next);
      var i :| 0 <= i < |merged| && merged[i] == s;
      LightMergeIsCurrent(entries, cutoff, i, newIds(next + i));
    }
  }

  /** Whatever working memory held, one round leaves nothing to prune or promote. */
  lemma RemainingIsSettled(entries: seq<Entry>, cutoff: int, newIds: IdSource, next: nat)
    requires DistinctEntries(entries)
    ensures Settled(Remaining(Survivors(entries, PlanOf(entries, cutoff), newIds, next)), cutoff)
  {
    var survivors := Survivors(entries, PlanOf(entries, cutoff), newIds, next);
    RemainingMembers(survivors);
    forall e <- Remaining(survivors) ensures e.salience < 0.7 && cutoff <= WholeSeconds(e.timestamp.ns) {
      LightSurvivorIsCurrent(entries, cutoff, newIds, next, e);
    }
  }

  lemma {:induction false} MaxSalienceBelow(ids: seq<string>, byId: map<string, Entry>, bound: real)
    requires 0.0 < bound && forall id <- byId :: byId[id].salience < bound
    ensures MaxSalience(ids, byId) < bound
  {
    if ids != [] {
      var front, last := Pop(ids);
      MaxSalienceBelow(front, byId, bound);
    }
  }

  lemma {:induction false} AllRemain(survivors: seq<Entry>)
    requires forall e <- survivors :: e.salience < 0.7
    ensures Remaining(survivors) == survivors && Promoted(survivors) == []
  {
    if survivors != [] {
      var front, last := PopEntry(survivors);
      AllRemain(front);
    }
  }

  lemma {:induction false} WithoutNone(entries: seq<Entry>)
    ensures WithoutIds(entries, {}) == entries
  {
    if entries != [] {
      var front, last := PopEntry(entries);
      WithoutNone(front);
    }
  }

  lemma PrunedHasExpired(entries: seq<Entry>, cutoff: int)
    requires PlanOf(entries, cutoff).prune != []
    ensures exists e <- entries :: Expired(e, cutoff)
  {
    PrunedAreExpired(entries, cutoff);
    assert HasExpired(entries, PlanOf(entries, cutoff).prune[0], cutoff);
  }

  lemma NothingExpires(entries: seq<Entry>, cutoff: int)
    requires Settled(entries, cutoff)
    ensures PlanOf(entries, cutoff).prune == []
  {
    if PlanOf(entries, cutoff).prune != [] {
      PrunedHasExpired(entries, cutoff);
    }
  }

  lemma SurvivorsStayLight(entries: seq<Entry>, plan: Plan, newIds: IdSource, next: nat)
    requires forall e <- entries :: e.salience < 0.7
    requires forall g <- plan.merge :: g.sourceIds != []
    ensures forall s <- Survivors(entries, plan, newIds, next) :: s.salience < 0.7
  {
    WithoutMembers(entries, IdsIn(plan.prune) + IdsIn(AllSources(plan.merge)));
    ByIdIsKeyed(entries);
    var merged := SurvivorsSplit(entries, plan, newIds, next);
    forall s <- merged ensures s.salience < 0.7 {
      var i :| 0 <= i < |merged| && merged[i] == s;
      MaxSalienceBelow(plan.merge[i].sourceIds, ById(entries), 0.7);
    }
  }

  /** In settled memory a round promotes nothing; it shrinks memory if it merges and changes nothing otherwise. */
  lemma SettledRound(entries: seq<Entry>, plan: Plan, cutoff: int, newIds: IdSource, next: nat)
    requires DistinctEntries(entries) && Settled(entries, cutoff) && plan == PlanOf(entries, cutoff)
    ensures var survivors := Survivors(entries, plan, newIds, next);
            && plan.prune == [] && Promoted(survivors) == [] && Remaining(survivors) == survivors
            && |survivors| + |plan.merge| <= |entries|
            && (plan.merge == [] ==> survivors == entries)
  {
    EntriesAreAccountedFor(entries, cutoff);
    NothingExpires(entries, cutoff);
    SurvivorsStayLight(entries, plan, newIds, next);
    AllRemain(Survivors(entries, plan, newIds, next));
    var merged := SurvivorsSplit(entries, plan, newIds, next);
    SourcesCount(plan.merge);
    if plan.merge == [] {
      WithoutNone(entries);
      assert IdsIn(plan.prune) + IdsIn(AllSources(plan.merge)) == {};
    }
  }

  // ---------- Rounds ----------

  /** A consolidation, and how far it took the id generator at most. */
  function Round(t: Tiers, months: nat, cutoff: int, newIds: IdSource, next: nat): (Tiers, nat) {
    var (t', r) := Consolidated(t, months, cutoff, newIds, next);
    (t', next + r.merged + r.promoted)
  }

  /** Files are in order, ids are distinct, and new ones are fresh. */
  ghost predicate Ready(files: Files, months: nat, newIds: IdSource, next: nat) {
    && UNSET.month < months && Filed(files, months)
    && DistinctEntries(ReadUpTo(files, months)) && Supplies(newIds, next, ReadUpTo(files, months))
  }

  /** No round will prune or promote anything, and no file is empty beside others that are not. */
  ghost predicate Quiet(files: Files, months: nat, cutoff: int, newIds: IdSource, next: nat) {
    && Ready(files, months, newIds, next) && Settled(ReadUpTo(files, months), cutoff)
    && (ReadUpTo(files, months) == [] || forall month <- files :: files[month] != [])
  }

  lemma GroupedFilesHold(entries: seq<Entry>)
    ensures forall month <- Grouped(entries) :: Grouped(entries)[month] != []
  {
    forall month <- Grouped(entries) ensures OfMonth(entries, month) != [] {
      var e :| e in entries && e.timestamp.month == month;
      OfMonthMembers(entries, month);
      assert e in OfMonth(entries, month);
    }
  }

  /** Writing back entries makes working memory ready, and settled if they were. */
  lemma WritingBackIsQuiet(entries: seq<Entry>, months: nat, cutoff: int, newIds: IdSource, next: nat)
    requires UNSET.month < months && WithinMonths(entries, months) && DistinctEntries(entries)
    requires Supplies(newIds, next, entries) && Settled(entries, cutoff)
    ensures Quiet(Grouped(entries), months, cutoff, newIds, next)
  {
    ReadBack(entries, months);
    GroupedIsFiled(entries, months);
    GroupedFilesHold(entries);
    ReorderingKeepsDistinct(entries, ReadUpTo(Grouped(entries), months));
  }

  lemma AppliedIsQuiet(prefs: Prefs, entries: seq<Entry>, plan: Plan, months: nat, cutoff: int, newIds: IdSource, next: nat)
    requires UNSET.month < months && WithinMonths(entries, months) && DistinctEntries(entries)
    requires Supplies(newIds, next, entries) && plan == PlanOf(entries, cutoff)
    ensures var (t', r) := Applied(prefs, entries, plan, newIds, next);
            Quiet(t'.files, months, cutoff, newIds, next + r.merged + r.promoted)
  {
    var survivors := Survivors(entries, plan, newIds, next);
    EntriesAreAccountedFor(entries, cutoff);
    SurvivorsAreDistinct(entries, plan, newIds, next);
    RemainingKeepsDistinct(survivors);
    RemainingMembers(survivors);
    RemainingIsSettled(entries, cutoff, newIds, next);
    SurvivorsWithinMonths(entries, plan, newIds, next, months);
    WritingBackIsQuiet(Remaining(survivors), months, cutoff, newIds, next + |plan.merge| + |Promoted(survivors)|);
  }

  /** One round makes any working memory quiet. */
  lemma RoundIsQuiet(t: Tiers, months: nat, cutoff: int, newIds: IdSource, next: nat)
    requires Ready(t.files, months, newIds, next)
    ensures var (t', next') := Round(t, months, cutoff, newIds, next);
            Quiet(t'.files, months, cutoff, newIds, next')
  {
    var entries := ReadUpTo(t.files, months);
    if entries != [] {
      ReadWithinMonths(t.files, months, months);
      AppliedIsQuiet(Snapshotted(t.prefs), entries, PlanOf(entries, cutoff), months, cutoff, newIds, next);
    }
  }

  lemma AppliedToSettled(prefs: Prefs, files: Files, plan: Plan, months: nat, cutoff: int, newIds: IdSource, next: nat)
    requires Quiet(files, months, cutoff, newIds, next) && ReadUpTo(files, months) != []
    requires plan == PlanOf(ReadUpTo(files, months), cutoff)
    ensures var (t', r) := Applied(prefs, ReadUpTo(files, months), plan, newIds, next);
            && r.pruned == 0 && r.promoted == 0 && r.merged == |plan.merge| && t'.prefs == prefs
            && |ReadUpTo(t'.files, months)| + r.merged <= |ReadUpTo(files, months)|
            && (r.merged == 0 ==> t'.files == files)
  {
    var entries := ReadUpTo(files, months);
    SettledRound(entries, plan, cutoff, newIds, next);
    ReadWithinMonths(files, months, months);
    SurvivorsWithinMonths(entries, plan, newIds, next, months);
    ReadBack(Remaining(Survivors(entries, plan, newIds, next)), months);
    ReadThenReplace(files, months);
  }

  /** A round over quiet memory only merges; every merge shrinks memory, and with none it is stable. */
  lemma QuietRound(t: Tiers, months: nat, cutoff: int, newIds: IdSource, next: nat)
    requires Quiet(t.files, months, cutoff, newIds, next)
    ensures var (t', r) := Consolidated(t, months, cutoff, newIds, next);
            && r.pruned == 0 && r.promoted == 0 && t'.prefs == Snapshotted(t.prefs)
            && |ReadUpTo(t'.files, months)| + r.merged <= |ReadUpTo(t.files, months)|
            && (r.merged == 0 ==> t'.files == t.files)
  {
    var entries := ReadUpTo(t.files, months);
    if entries != [] {
      AppliedToSettled(Snapshotted(t.prefs), t.files, PlanOf(entries, cutoff), months, cutoff, newIds, next);
    }
  }

  lemma MergingNeedsTwo(t: Tiers, months: nat, cutoff: int, newIds: IdSource, next: nat)
    requires Ready(t.files, months, newIds, next)
    ensures 2 * Consolidated(t, months, cutoff, newIds, next).1.merged <= |ReadUpTo(t.files, months)|
  {
    var entries := ReadUpTo(t.files, months);
    EntriesAreAccountedFor(entries, cutoff);
    SourcesCount(PlanOf(entries, cutoff).merge);
  }

  // ---------- Rounds without end ----------

  function Iterate<S>(step: S -> S, s: S, k: nat): S {
    if k == 0 then s else Iterate(step, step(s), k - 1)
  }

  /** A step that keeps stable states stable, and shrinks the others by one at least while they measure two. */
  ghost predicate Shrinks<S(!new)>(step: S -> S, good: S -> bool, stable: S -> bool, size: S -> nat) {
    && (forall s :: good(s) ==> good(step(s)))
    && (forall s :: good(s) && stable(s) ==> stable(step(s)))
    && (forall s :: good(s) && !stable(s) ==> size(step(s)) < size(s) && 2 <= size(s))
  }

  lemma {:induction false} ShrinkingSettles<S(!new)>(step: S -> S, good: S -> bool, stable: S -> bool, size: S -> nat,
                                                     s: S, k: nat)
    requires Shrinks(step, good, stable, size) && good(s)
    ensures good(Iterate(step, s, k))
    ensures stable(s) || size(s) <= k + 1 ==> stable(Iterate(step, s, k))
  {
    if k > 0 {
      ShrinkingSettles(step, good, stable, size, step(s), k - 1);
    }
  }

  /** Both tiers and the id generator. */
  datatype State = State(tiers: Tiers, next: nat)

  function Repeat(months: nat, cutoff: int, newIds: IdSource): State -> State {
    (s: State) => var (t', next') := Round(s.tiers, months, cutoff, newIds, s.next); State(t', next')
  }

  /** The next round would change neither working memory nor the current preferences. */
  predicate Stable(s: State, months: nat, cutoff: int, newIds: IdSource) {
    var t' := Round(s.tiers, months, cutoff, newIds, s.next).0;
    && t'.files == s.tiers.files
    && t'.prefs.current == s.tiers.prefs.current && t'.prefs.totalEntries == s.tiers.prefs.totalEntries
  }

  /** The next round would prune and promote nothing. */
  predicate OnlyMerges(s: State, months: nat, cutoff: int, newIds: IdSource) {
    var r := Consolidated(s.tiers, months, cutoff, newIds, s.next).1;
    r.pruned == 0 && r.promoted == 0
  }

  /** The next round would prune, merge and promote nothing. */
  predicate Idle(s: State, months: nat, cutoff: int, newIds: IdSource) {
    var r := Consolidated(s.tiers, months, cutoff, newIds, s.next).1;
    r.pruned == 0 && r.merged == 0 && r.promoted == 0
  }

  lemma QuietStep(s: State, months: nat, cutoff: int, newIds: IdSource)
    requires Quiet(s.tiers.files, months, cutoff, newIds, s.next)
    ensures var s' := Repeat(months, cutoff, newIds)(s);
            && Quiet(s'.tiers.files, months, cutoff, newIds, s'.next)
            && (Idle(s, months, cutoff, newIds) ==> s'.tiers.files == s.tiers.files && s'.next == s.next)
            && (!Idle(s, months, cutoff, newIds) ==>
                  && |ReadUpTo(s'.tiers.files, months)| < |ReadUpTo(s.tiers.files, months)|
                  && 2 <= |ReadUpTo(s.tiers.files, months)|)
  {
    RoundIsQuiet(s.tiers, months, cutoff, newIds, s.next);
    QuietRound(s.tiers, months, cutoff, newIds, s.next);
    MergingNeedsTwo(s.tiers, months, cutoff, newIds, s.next);
  }

  /** What a round does to working memory does not depend on the preferences. */
  lemma IdleByFiles(s: State, s': State, months: nat, cutoff: int, newIds: IdSource)
    requires s.tiers.files == s'.tiers.files && s.next == s'.next
    ensures Idle(s, months, cutoff, newIds) == Idle(s', months, cutoff, newIds)
  {
  }

  lemma QuietRoundsShrink(months: nat, cutoff: int, newIds: IdSource,
                          good: State -> bool, stable: State -> bool, size: State -> nat)
    requires forall s: State :: good(s) == Quiet(s.tiers.files, months, cutoff, newIds, s.next)
    requires forall s: State :: stable(s) == Idle(s, months, cutoff, newIds)
    requires forall s: State :: size(s) == |ReadUpTo(s.tiers.files, months)|
    ensures Shrinks(Repeat(months, cutoff, newIds), good, stable, size)
  {
    var step := Repeat(months, cutoff, newIds);
    forall s: State | good(s)
      ensures good(step(s)) && (stable(s) ==> stable(step(s)))
              && (!stable(s) ==> size(step(s)) < size(s) && 2 <= size(s))
    {
      QuietStep(s, months, cutoff, newIds);
      if stable(s) {
        IdleByFiles(s, step(s), months, cutoff, newIds);
      }
    }
  }

  lemma QuietSettles(s: State, months: nat, cutoff: int, newIds: IdSource, k: nat)
    requires Quiet(s.tiers.files, months, cutoff, newIds, s.next)
    ensures var sk := Iterate(Repeat(months, cutoff, newIds), s, k);
            && Quiet(sk.tiers.files, months, cutoff, newIds, sk.next)
            && (|ReadUpTo(s.tiers.files, months)| <= k + 1 ==> Idle(sk, months, cutoff, newIds))
  {
    ghost var good := (s: State) => Quiet(s.tiers.files, months, cutoff, newIds, s.next);
    var stable := (s: State) => Idle(s, months, cutoff, newIds);
    var size := (s: State) => |ReadUpTo(s.tiers.files, months)|;
    QuietRoundsShrink(months, cutoff, newIds, good, stable, size);
    ShrinkingSettles(Repeat(months, cutoff, newIds), good, stable, size, s, k);
  }

  lemma RoundNeverGrows(t: Tiers, months: nat, cutoff: int, newIds: IdSource, next: nat)
    requires Ready(t.files, months, newIds, next)
    ensures |ReadUpTo(Round(t, months, cutoff, newIds, next).0.files, months)| <= |ReadUpTo(t.files, months)|
  {
    if ReadUpTo(t.files, months) != [] {
      ConsolidationConserves(t, months, cutoff, newIds, next);
    }
  }

  lemma QuietIsSpent(s: State, months: nat, cutoff: int, newIds: IdSource)
    requires Quiet(s.tiers.files, months, cutoff, newIds, s.next)
    ensures OnlyMerges(s, months, cutoff, newIds)
    ensures Idle(s, months, cutoff, newIds) ==> Stable(s, months, cutoff, newIds)
  {
    QuietRound(s.tiers, months, cutoff, newIds, s.next);
  }

  lemma EmptyIsStable(s: State, months: nat, cutoff: int, newIds: IdSource)
    ensures ReadUpTo(s.tiers.files, months) == [] ==> Idle(s, months, cutoff, newIds) && Stable(s, months, cutoff, newIds)
  {
  }

  lemma FirstRound(s: State, months: nat, cutoff: int, newIds: IdSource) returns (s': State)
    requires Ready(s.tiers.files, months, newIds, s.next)
    ensures s' == Repeat(months, cutoff, newIds)(s) && Quiet(s'.tiers.files, months, cutoff, newIds, s'.next)
    ensures |ReadUpTo(s'.tiers.files, months)| <= |ReadUpTo(s.tiers.files, months)|
  {
    s' := Repeat(months, cutoff, newIds)(s);
    RoundIsQuiet(s.tiers, months, cutoff, newIds, s.next);
    RoundNeverGrows(s.tiers, months, cutoff, newIds, s.next);
  }

  /** What holds of the state that repetition has reached: after one round, and when it is done. */
  predicate Progress(s: State, begun: bool, done: bool, months: nat, cutoff: int, newIds: IdSource) {
    && (begun ==> OnlyMerges(s, months, cutoff, newIds))
    && (done ==> Idle(s, months, cutoff, newIds) && Stable(s, months, cutoff, newIds))
  }

  lemma LaterRounds(s: State, n: nat, months: nat, cutoff: int, newIds: IdSource, k: nat)
    requires Quiet(s.tiers.files, months, cutoff, newIds, s.next) && |ReadUpTo(s.tiers.files, months)| <= n
    ensures Progress(Iterate(Repeat(months, cutoff, newIds), s, k), true, n <= k + 1, months, cutoff, newIds)
  {
    QuietSettles(s, months, cutoff, newIds, k);
    QuietIsSpent(Iterate(Repeat(months, cutoff, newIds), s, k), months, cutoff, newIds);
  }

  lemma SomeRounds(s: State, n: nat, months: nat, cutoff: int, newIds: IdSource, k: nat)
    requires Ready(s.tiers.files, months, newIds, s.next) && n == |ReadUpTo(s.tiers.files, months)| && k > 0
    ensures Progress(Iterate(Repeat(months, cutoff, newIds), s, k), true, n <= k, months, cutoff, newIds)
  {
    var s' := FirstRound(s, months, cutoff, newIds);
    LaterRounds(s', n, months, cutoff, newIds, k - 1);
    assert Iterate(Repeat(months, cutoff, newIds), s, k) == Iterate(Repeat(months, cutoff, newIds), s', k - 1);
  }

  /**
    * Repeating a consolidation, nothing is pruned or promoted after the first round, and within as many rounds
    * as working memory had entries a fixpoint is reached.
    */
  lemma ConsolidationReachesFixpoint(s: State, months: nat, cutoff: int, newIds: IdSource, k: nat)
    requires Ready(s.tiers.files, months, newIds, s.next)
    ensures Progress(Iterate(Repeat(months, cutoff, newIds), s, k), k > 0, |ReadUpTo(s.tiers.files, months)| <= k,
                     months, cutoff, newIds)
  {
    if k == 0 {
      EmptyIsStable(s, months, cutoff, newIds);
    } else {
      SomeRounds(s, |ReadUpTo(s.tiers.files, months)|, months, cutoff, newIds, k);
    }
  }
}
