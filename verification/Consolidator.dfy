/** Planning a consolidation: what to prune, which memories to merge, and what stays on its own. */
module Consolidator {
  import opened Prelude
  import opened Similarity

  /** `timestamp` is the parsed instant in nanoseconds, None when the text cannot be parsed. */
  datatype Memory = Memory(id: string, content: string, salience: real, timestamp: Option<int>)

  datatype MergeGroup = MergeGroup(sourceIds: seq<string>, mergedContent: string)

  datatype Plan = Plan(keep: seq<string>, prune: seq<string>, merge: seq<MergeGroup>)

  function Ids(memories: seq<Memory>): seq<string> {
    seq(|memories|, i requires 0 <= i < |memories| => memories[i].id)
  }

  /** Recent, or salient, or of unknown age. */
  predicate Retained(m: Memory, cutoff: int) {
    m.timestamp.None? || m.timestamp.value >= cutoff || m.salience > 0.7
  }

  function RetainedOf(memories: seq<Memory>, cutoff: int): seq<Memory> {
    if memories == [] then []
    else
      var last := memories[|memories| - 1];
      var before := RetainedOf(memories[..|memories| - 1], cutoff);
      if Retained(last, cutoff) then before + [last] else before
  }

  function PrunedIds(memories: seq<Memory>, cutoff: int): seq<string> {
    if memories == [] then []
    else
      var last := memories[|memories| - 1];
      var before := PrunedIds(memories[..|memories| - 1], cutoff);
      if Retained(last, cutoff) then before else before + [last.id]
  }

  /** Entries whose id is not marked. */
  function Unmarked(memories: seq<Memory>, marked: set<string>): seq<Memory> {
    if memories == [] then []
    else
      var last := memories[|memories| - 1];
      var before := Unmarked(memories[..|memories| - 1], marked);
      if last.id in marked then before else before + [last]
  }

  /** When two contents are to be merged; the planner uses `Similar`. */
  type Likeness = (string, string) -> bool

  /** The group a leader gathers from the entries behind it, and the ids marked by then. */
  function Gather(alike: Likeness, leader: Memory, others: seq<Memory>, marked: set<string>): (seq<Memory>, set<string>) {
    if others == [] then ([leader], marked)
    else
      var (group, marked') := Gather(alike, leader, others[..|others| - 1], marked);
      var x := others[|others| - 1];
      if x.id !in marked' && alike(leader.content, x.content) then (group + [x], marked' + {x.id})
      else (group, marked')
  }

  /** Groups of two or more, in order of their leaders, and the ids in them. */
  function Greedy(alike: Likeness, memories: seq<Memory>, marked: set<string>): (seq<seq<Memory>>, set<string>) {
    if memories == [] then ([], marked)
    else if memories[0].id in marked then Greedy(alike, memories[1..], marked)
    else
      var (group, marked') := Gather(alike, memories[0], memories[1..], marked);
      if |group| > 1 then
        var (groups, final) := Greedy(alike, memories[1..], marked' + {memories[0].id});
        ([group] + groups, final)
      else Greedy(alike, memories[1..], marked')
  }

  /** The first position of the highest salience. */
  function MaxIndex(group: seq<Memory>): (k: nat)
    requires group != []
    ensures k < |group|
    ensures forall i :: 0 <= i < |group| ==> group[i].salience <= group[k].salience
    ensures forall i :: 0 <= i < k ==> group[i].salience < group[k].salience
  {
    if |group| == 1 then 0
    else
      var k := MaxIndex(group[..|group| - 1]);
      if group[|group| - 1].salience > group[k].salience then |group| - 1 else k
  }

  /** The group with its most salient entry exchanged to the front. */
  function PrimaryFirst(group: seq<Memory>): seq<Memory>
    requires group != []
  {
    var k := MaxIndex(group);
    group[0 := group[k]][k := group[0]]
  }

  /** What each further entry adds to the primary one, where it adds anything. */
  function Details(primary: Memory, others: seq<Memory>): seq<string> {
    if others == [] then []
    else
      var unique := UniqueContent(others[|others| - 1].content, primary.content);
      Details(primary, others[..|others| - 1]) + if unique != "" then [unique] else []
  }

  function MergedContent(primary: Memory, others: seq<Memory>): string {
    var details := Details(primary, others);
    if details == [] then primary.content
    else primary.content + "\n\nAdditional context: " + Join(details, "; ")
  }

  function Merge(group: seq<Memory>): MergeGroup {
    if group == [] then MergeGroup([], "")
    else
      var ordered := PrimaryFirst(group);
      MergeGroup(Ids(ordered), MergedContent(ordered[0], ordered[1..]))
  }

  function MergeAll(groups: seq<seq<Memory>>): seq<MergeGroup> {
    seq(|groups|, i requires 0 <= i < |groups| => Merge(groups[i]))
  }

  function PlanFor(memories: seq<Memory>, cutoff: int): Plan {
    var retained := RetainedOf(memories, cutoff);
    var (groups, marked) := Greedy(Similar, retained, {});
    Plan(Ids(Unmarked(retained, marked)), PrunedIds(memories, cutoff), MergeAll(groups))
  }

  // ---------- The code ----------

  method GenerateConsolidationPlan(memories: seq<Memory>, cutoff: int) returns (plan: Plan)
    ensures plan == PlanFor(memories, cutoff)
  {
    var toKeep, prune := RetentionFilter(memories, cutoff);
    var merge, merged := DetectMerges(toKeep);
    var keep: seq<string> := [];
    var i := 0;
    while i < |toKeep|
      invariant 0 <= i <= |toKeep|
      invariant keep == Ids(Unmarked(toKeep[..i], merged))
    {
      assert toKeep[..i + 1][..i] == toKeep[..i];
      if toKeep[i].id !in merged {
        IdsAppend(Unmarked(toKeep[..i], merged), toKeep[i]);
        keep := keep + [toKeep[i].id];
      }
      i := i + 1;
    }
    assert toKeep[..|toKeep|] == toKeep;
    plan := Plan(keep, prune, merge);
  }

  lemma IdsAppend(memories: seq<Memory>, last: Memory)
    ensures Ids(memories + [last]) == Ids(memories) + [last.id]
  {
  }

  method RetentionFilter(memories: seq<Memory>, cutoff: int) returns (toKeep: seq<Memory>, prune: seq<string>)
    ensures toKeep == RetainedOf(memories, cutoff) && prune == PrunedIds(memories, cutoff)
  {
    toKeep, prune := [], [];
    var i := 0;
    while i < |memories|
      invariant 0 <= i <= |memories|
      invariant toKeep == RetainedOf(memories[..i], cutoff) && prune == PrunedIds(memories[..i], cutoff)
    {
      assert memories[..i + 1][..i] == memories[..i];
      var m := memories[i];
      if m.timestamp.None? {
        toKeep := toKeep + [m];
      } else if m.timestamp.value >= cutoff || m.salience > 0.7 {
        toKeep := toKeep + [m];
      } else {
        prune := prune + [m.id];
      }
      i := i + 1;
    }
    assert memories[..|memories|] == memories;
  }

  /** The nested loops over leaders and the entries behind them. */
  method DetectMerges(toKeep: seq<Memory>) returns (merge: seq<MergeGroup>, merged: set<string>)
    ensures var (groups, marked) := Greedy(Similar, toKeep, {});
            merged == marked && merge == MergeAll(groups)
  {
    merged := {};
    merge := [];
    ghost var found: seq<seq<Memory>> := [];
    var i := 0;
    assert toKeep[0..] == toKeep && found + Greedy(Similar, toKeep, {}).0 == Greedy(Similar, toKeep, {}).0;
    while i < |toKeep|
      invariant 0 <= i <= |toKeep|
      invariant merge == MergeAll(found)
      invariant var (groups, marked) := Greedy(Similar, toKeep[i..], merged);
                Greedy(Similar, toKeep, {}) == (found + groups, marked)
    {
      assert toKeep[i..][1..] == toKeep[i + 1..];
      if toKeep[i].id !in merged {
        var group;
        group, merged := GatherBehind(toKeep, i, merged);
        if |group| > 1 {
          merged := merged + {toKeep[i].id};
          var mg := MergeMemories(group);
          Regroup(found, [group], Greedy(Similar, toKeep[i + 1..], merged).0);
          found := found + [group];
          merge := merge + [mg];
        }
      }
      i := i + 1;
    }
  }

  /** The inner loop: similar, unmarked entries behind position `i` join its group. */
  method GatherBehind(toKeep: seq<Memory>, i: nat, marked: set<string>) returns (group: seq<Memory>, merged: set<string>)
    requires i < |toKeep|
    ensures (group, merged) == Gather(Similar, toKeep[i], toKeep[i + 1..], marked)
  {
    group, merged := [toKeep[i]], marked;
    ghost var behind := toKeep[i + 1..];
    var j := i + 1;
    while j < |toKeep|
      invariant i < j <= |toKeep|
      invariant (group, merged) == Gather(Similar, toKeep[i], behind[..j - i - 1], marked)
    {
      assert behind[..j - i] == behind[..j - i - 1] + [toKeep[j]];
      GatherOneMore(Similar, toKeep[i], behind[..j - i - 1], toKeep[j], marked);
      if toKeep[j].id !in merged {
        var similarity := JaccardSimilarity(toKeep[i].content, toKeep[j].content);
        if similarity >= 0.6 {
          group := group + [toKeep[j]];
          merged := merged + {toKeep[j].id};
        }
      }
      j := j + 1;
    }
    assert behind[..|behind|] == behind;
  }

  lemma GatherOneMore(alike: Likeness, leader: Memory, front: seq<Memory>, last: Memory, marked: set<string>)
    ensures var (group, marked') := Gather(alike, leader, front, marked);
            Gather(alike, leader, front + [last], marked)
            == if last.id !in marked' && alike(leader.content, last.content) then (group + [last], marked' + {last.id})
               else (group, marked')
  {
    assert (front + [last])[..|front + [last]| - 1] == front;
  }

  method MergeMemories(group: seq<Memory>) returns (merged: MergeGroup)
    requires group != []
    ensures merged == Merge(group)
  {
    var maxIdx := FindPrimary(group);
    var ordered := group[0 := group[maxIdx]][maxIdx := group[0]];
    var primary := ordered[0];
    var additionalDetails := CollectDetails(primary, ordered[1..]);
    var content := primary.content;
    if |additionalDetails| > 0 {
      content := content + "\n\nAdditional context: " + Join(additionalDetails, "; ");
    }
    merged := MergeGroup(Ids(ordered), content);
  }

  method FindPrimary(group: seq<Memory>) returns (maxIdx: nat)
    requires group != []
    ensures maxIdx == MaxIndex(group)
  {
    maxIdx := 0;
    var i := 0;
    while i < |group|
      invariant 0 <= i <= |group| && maxIdx < |group| && (i > 0 ==> maxIdx < i) && (i == 0 ==> maxIdx == 0)
      invariant forall k :: 0 <= k < i ==> group[k].salience <= group[maxIdx].salience
      invariant forall k :: 0 <= k < maxIdx ==> group[k].salience < group[maxIdx].salience
    {
      if group[i].salience > group[maxIdx].salience {
        maxIdx := i;
      }
      i := i + 1;
    }
  }

  method CollectDetails(primary: Memory, others: seq<Memory>) returns (details: seq<string>)
    ensures details == Details(primary, others)
  {
    details := [];
    var i := 0;
    while i < |others|
      invariant 0 <= i <= |others|
      invariant details == Details(primary, others[..i])
    {
      assert others[..i + 1][..i] == others[..i];
      var unique := ExtractUniqueContent(others[i].content, primary.content);
      if unique != "" {
        details := details + [unique];
      }
      i := i + 1;
    }
    assert others[..|others|] == others;
  }
}
