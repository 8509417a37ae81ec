/** What a consolidation plan does to its input: a partition, and a clustering around earliest members. */
module PlanTheorems {
  import opened Prelude
  import opened Consolidator
  import Similarity

  // ---------- Reference clustering ----------

  function Like(alike: Likeness, leader: Memory, memories: seq<Memory>): (r: seq<Memory>)
    ensures |r| <= |memories|
  {
    if memories == [] then []
    else
      var last := memories[|memories| - 1];
      var before := Like(alike, leader, memories[..|memories| - 1]);
      if alike(leader.content, last.content) then before + [last] else before
  }

  function Unlike(alike: Likeness, leader: Memory, memories: seq<Memory>): (r: seq<Memory>)
    ensures |r| <= |memories|
  {
    if memories == [] then []
    else
      var last := memories[|memories| - 1];
      var before := Unlike(alike, leader, memories[..|memories| - 1]);
      if alike(leader.content, last.content) then before else before + [last]
  }

  /** The first memory takes every similar one with it; the rest are clustered in the same way. */
  function Clusters(alike: Likeness, memories: seq<Memory>): seq<seq<Memory>>
    decreases |memories|
  {
    if memories == [] then []
    else
      var leader, others := memories[0], memories[1..];
      [[leader] + Like(alike, leader, others)] + Clusters(alike, Unlike(alike, leader, others))
  }

  function Groups(clusters: seq<seq<Memory>>): seq<seq<Memory>> {
    if clusters == [] then []
    else (if |clusters[0]| > 1 then [clusters[0]] else []) + Groups(clusters[1..])
  }

  function Singles(clusters: seq<seq<Memory>>): seq<Memory> {
    if clusters == [] then []
    else (if |clusters[0]| > 1 then [] else clusters[0]) + Singles(clusters[1..])
  }

  function Flatten(clusters: seq<seq<Memory>>): seq<Memory> {
    if clusters == [] then [] else clusters[0] + Flatten(clusters[1..])
  }

  predicate DistinctIds(memories: seq<Memory>) {
    forall i, j :: 0 <= i < j < |memories| ==> memories[i].id != memories[j].id
  }

  function IdSet(memories: seq<Memory>): set<string> {
    set m | m in memories :: m.id
  }

  function IdBag(memories: seq<Memory>): multiset<string> {
    multiset(Ids(memories))
  }

  // ---------- The marking loops compute the reference clustering ----------

  lemma PopMemory(memories: seq<Memory>) returns (front: seq<Memory>, last: Memory)
    requires memories != []
    ensures front == memories[..|memories| - 1] && last == memories[|memories| - 1]
    ensures memories == front + [last] && |front| < |memories|
    ensures DistinctIds(memories) ==> DistinctIds(front) && forall m <- front :: m.id != last.id
    ensures forall m :: m in memories <==> m in front || m == last
  {
    front, last := memories[..|memories| - 1], memories[|memories| - 1];
  }

  lemma {:induction false} LikeMembers(alike: Likeness, leader: Memory, memories: seq<Memory>)
    ensures forall m :: m in Like(alike, leader, memories) <==> m in memories && alike(leader.content, m.content)
    ensures forall m :: m in Unlike(alike, leader, memories) <==> m in memories && !alike(leader.content, m.content)
  {
    if memories != [] {
      var front, last := PopMemory(memories);
      LikeMembers(alike, leader, front);
    }
  }

  lemma {:induction false} UnmarkedMembers(memories: seq<Memory>, marked: set<string>)
    ensures forall m :: m in Unmarked(memories, marked) <==> m in memories && m.id !in marked
  {
    if memories != [] {
      var front, last := PopMemory(memories);
      UnmarkedMembers(front, marked);
    }
  }

  lemma {:induction false} FiltersKeepDistinct(alike: Likeness, leader: Memory, memories: seq<Memory>, marked: set<string>)
    requires DistinctIds(memories)
    ensures DistinctIds(Unlike(alike, leader, memories)) && DistinctIds(Unmarked(memories, marked))
  {
    if memories != [] {
      var front, last := PopMemory(memories);
      FiltersKeepDistinct(alike, leader, front, marked);
      LikeMembers(alike, leader, front);
      UnmarkedMembers(front, marked);
    }
  }

  lemma IdSetPush(memories: seq<Memory>, last: Memory)
    ensures IdSet(memories + [last]) == IdSet(memories) + {last.id}
  {
  }

  lemma LikeOneMore(alike: Likeness, leader: Memory, front: seq<Memory>, last: Memory)
    ensures alike(leader.content, last.content) ==>
              Like(alike, leader, front + [last]) == Like(alike, leader, front) + [last]
              && Unlike(alike, leader, front + [last]) == Unlike(alike, leader, front)
    ensures !alike(leader.content, last.content) ==>
              Like(alike, leader, front + [last]) == Like(alike, leader, front)
              && Unlike(alike, leader, front + [last]) == Unlike(alike, leader, front) + [last]
  {
    assert (front + [last])[..|front + [last]| - 1] == front;
  }

  lemma UnmarkedOneMore(front: seq<Memory>, last: Memory, marked: set<string>)
    ensures Unmarked(front + [last], marked)
            == if last.id in marked then Unmarked(front, marked) else Unmarked(front, marked) + [last]
  {
    assert (front + [last])[..|front + [last]| - 1] == front;
  }

  predicate GathersLike(alike: Likeness, leader: Memory, others: seq<Memory>, marked: set<string>) {
    var like := Like(alike, leader, Unmarked(others, marked));
    Gather(alike, leader, others, marked) == ([leader] + like, marked + IdSet(like))
  }

  lemma GathersOneMore(alike: Likeness, leader: Memory, front: seq<Memory>, last: Memory, marked: set<string>)
    requires GathersLike(alike, leader, front, marked) && forall m <- front :: m.id != last.id
    ensures GathersLike(alike, leader, front + [last], marked)
  {
    var open := Unmarked(front, marked);
    var like := Like(alike, leader, open);
    LikeMembers(alike, leader, open);
    UnmarkedMembers(front, marked);
    assert last.id !in IdSet(like);
    UnmarkedOneMore(front, last, marked);
    GatherOneMore(alike, leader, front, last, marked);
    LikeOneMore(alike, leader, open, last);
    if last.id !in marked && alike(leader.content, last.content) {
      GroupOneMore(leader, like, last, marked);
    }
  }

  lemma GroupOneMore(leader: Memory, like: seq<Memory>, last: Memory, marked: set<string>)
    ensures [leader] + like + [last] == [leader] + (like + [last])
    ensures marked + IdSet(like) + {last.id} == marked + IdSet(like + [last])
  {
    IdSetPush(like, last);
  }

  lemma {:induction false} GatherIsLike(alike: Likeness, leader: Memory, others: seq<Memory>, marked: set<string>)
    requires DistinctIds(others)
    ensures GathersLike(alike, leader, others, marked)
  {
    if others == [] {
      assert marked + IdSet([]) == marked && [leader] + [] == [leader];
    } else {
      var front, last := PopMemory(others);
      GatherIsLike(alike, leader, front, marked);
      GathersOneMore(alike, leader, front, last, marked);
    }
  }

  /** Dropping marked entries, when the marks are the old ones and those of the leader's group. */
  lemma {:induction false} UnmarkedIsUnlike(
      alike: Likeness, leader: Memory, memories: seq<Memory>, marked: set<string>, marked': set<string>)
    requires forall m <- memories :: m.id in marked' <==> m.id in marked || alike(leader.content, m.content)
    ensures Unmarked(memories, marked') == Unlike(alike, leader, Unmarked(memories, marked))
  {
    if memories != [] {
      var front, last := PopMemory(memories);
      UnmarkedIsUnlike(alike, leader, front, marked, marked');
      UnmarkedOneMore(front, last, marked);
      UnmarkedOneMore(front, last, marked');
      LikeOneMore(alike, leader, Unmarked(front, marked), last);
    }
  }

  lemma {:induction false} UnmarkedFront(first: Memory, rest: seq<Memory>, marked: set<string>)
    ensures Unmarked([first] + rest, marked)
            == if first.id in marked then Unmarked(rest, marked) else [first] + Unmarked(rest, marked)
  {
    if rest == [] {
      UnmarkedOneMore([], first, marked);
      assert [first] + rest == [] + [first];
    } else {
      var front, last := PopMemory(rest);
      UnmarkedFront(first, front, marked);
      UnmarkedOneMore([first] + front, last, marked);
      UnmarkedOneMore(front, last, marked);
      Regroup([first], front, [last]);
      Regroup([first], Unmarked(front, marked), [last]);
    }
  }

  lemma {:induction false} NothingLike(alike: Likeness, leader: Memory, memories: seq<Memory>)
    requires Like(alike, leader, memories) == []
    ensures Unlike(alike, leader, memories) == memories
  {
    if memories != [] {
      var front, last := PopMemory(memories);
      NothingLike(alike, leader, front);
    }
  }

  lemma GroupsFront(cluster: seq<Memory>, clusters: seq<seq<Memory>>)
    ensures |cluster| > 1 ==>
              Groups([cluster] + clusters) == [cluster] + Groups(clusters)
              && Singles([cluster] + clusters) == Singles(clusters)
    ensures |cluster| <= 1 ==>
              Groups([cluster] + clusters) == Groups(clusters)
              && Singles([cluster] + clusters) == cluster + Singles(clusters)
    ensures Flatten([cluster] + clusters) == cluster + Flatten(clusters)
  {
    assert ([cluster] + clusters)[1..] == clusters;
  }

  lemma IdSetAppend(a: seq<Memory>, b: seq<Memory>)
    ensures IdSet(a + b) == IdSet(a) + IdSet(b)
  {
  }

  /** What is left to cluster once a leader's group is marked. */
  lemma LeaderStep(alike: Likeness, leader: Memory, rest: seq<Memory>, marked: set<string>)
    requires DistinctIds([leader] + rest) && leader.id !in marked
    ensures var open := Unmarked(rest, marked);
            var like := Like(alike, leader, open);
            && Gather(alike, leader, rest, marked) == ([leader] + like, marked + IdSet(like))
            && Unmarked([leader] + rest, marked) == [leader] + open
            && Unmarked(rest, marked + IdSet(like) + {leader.id}) == Unlike(alike, leader, open)
            && (like == [] ==> Unlike(alike, leader, open) == open && marked + IdSet(like) == marked)
  {
    var open := Unmarked(rest, marked);
    var like := Like(alike, leader, open);
    var all := [leader] + rest;
    assert DistinctIds(rest) by {
      assert forall i :: 0 <= i < |rest| ==> rest[i] == all[i + 1];
    }
    forall m <- rest ensures m.id != leader.id {
      var i :| 0 <= i < |rest| && rest[i] == m;
      assert all[i + 1] == m && all[0] == leader;
    }
    GatherIsLike(alike, leader, rest, marked);
    UnmarkedFront(leader, rest, marked);
    LikeMembers(alike, leader, open);
    UnmarkedMembers(rest, marked);
    MarkedByGroup(alike, leader, rest, marked, like);
    UnmarkedIsUnlike(alike, leader, rest, marked, marked + IdSet(like) + {leader.id});
    if like == [] {
      NothingLike(alike, leader, open);
    }
  }

  lemma MarkedByGroup(alike: Likeness, leader: Memory, rest: seq<Memory>, marked: set<string>, like: seq<Memory>)
    requires DistinctIds(rest) && forall m <- rest :: m.id != leader.id
    requires forall m :: m in like <==> m in rest && m.id !in marked && alike(leader.content, m.content)
    ensures forall m <- rest ::
              m.id in marked + IdSet(like) + {leader.id} <==> m.id in marked || alike(leader.content, m.content)
  {
    forall m <- rest | m.id in IdSet(like) ensures alike(leader.content, m.content) {
      var x :| x in like && x.id == m.id;
      assert x in rest;
      var i :| 0 <= i < |rest| && rest[i] == m;
      var j :| 0 <= j < |rest| && rest[j] == x;
      assert i == j;
    }
  }

  lemma ClustersFront(alike: Likeness, leader: Memory, others: seq<Memory>)
    ensures Clusters(alike, [leader] + others)
            == [[leader] + Like(alike, leader, others)] + Clusters(alike, Unlike(alike, leader, others))
  {
    assert ([leader] + others)[1..] == others;
  }

  /** The clustering of a list, by whether its first memory finds company. */
  lemma ClustersStep(alike: Likeness, leader: Memory, others: seq<Memory>)
    ensures var like := Like(alike, leader, others);
            var later := Clusters(alike, Unlike(alike, leader, others));
            && (like == [] ==>
                  && Unlike(alike, leader, others) == others
                  && Groups(Clusters(alike, [leader] + others)) == Groups(later)
                  && Singles(Clusters(alike, [leader] + others)) == [leader] + Singles(later))
            && (like != [] ==>
                  && Groups(Clusters(alike, [leader] + others)) == [[leader] + like] + Groups(later)
                  && Singles(Clusters(alike, [leader] + others)) == Singles(later))
            && Flatten(Clusters(alike, [leader] + others)) == [leader] + like + Flatten(later)
  {
    var like, later := Like(alike, leader, others), Clusters(alike, Unlike(alike, leader, others));
    ClustersFront(alike, leader, others);
    GroupsFront([leader] + like, later);
    if like == [] {
      NothingLike(alike, leader, others);
      assert [leader] + like == [leader];
    }
  }

  lemma GreedyStep(alike: Likeness, leader: Memory, rest: seq<Memory>, marked: set<string>)
    requires DistinctIds([leader] + rest) && leader.id !in marked
    ensures var like := Like(alike, leader, Unmarked(rest, marked));
            && (like == [] ==> Greedy(alike, [leader] + rest, marked) == Greedy(alike, rest, marked))
            && (like != [] ==>
                  var (groups, final) := Greedy(alike, rest, marked + IdSet(like) + {leader.id});
                  Greedy(alike, [leader] + rest, marked) == ([[leader] + like] + groups, final))
  {
    LeaderStep(alike, leader, rest, marked);
    assert ([leader] + rest)[1..] == rest;
  }

  predicate ComputesClusters(alike: Likeness, memories: seq<Memory>, marked: set<string>) {
    var groups := Groups(Clusters(alike, Unmarked(memories, marked)));
    Greedy(alike, memories, marked) == (groups, marked + IdSet(Flatten(groups)))
  }

  /** With distinct ids, leaders and marks of the nested loops yield the reference clustering. */
  lemma {:induction false} GreedyIsClusters(alike: Likeness, memories: seq<Memory>, marked: set<string>)
    requires DistinctIds(memories)
    ensures ComputesClusters(alike, memories, marked)
    decreases |memories|
  {
    if memories == [] {
      assert marked + IdSet([]) == marked;
    } else {
      var leader, rest := memories[0], memories[1..];
      assert memories == [leader] + rest;
      GreedyIsClusters(alike, rest, marked);
      if leader.id in marked {
        UnmarkedFront(leader, rest, marked);
      } else {
        var like := Like(alike, leader, Unmarked(rest, marked));
        GreedyIsClusters(alike, rest, marked + IdSet(like) + {leader.id});
        LeaderStep(alike, leader, rest, marked);
        if like == [] {
          GreedyAtSingle(alike, leader, rest, marked);
        } else {
          GreedyAtGroup(alike, leader, rest, marked);
        }
      }
    }
  }

  lemma GreedyAtSingle(alike: Likeness, leader: Memory, rest: seq<Memory>, marked: set<string>)
    requires DistinctIds([leader] + rest) && leader.id !in marked
    requires Like(alike, leader, Unmarked(rest, marked)) == []
    requires ComputesClusters(alike, rest, marked)
    ensures ComputesClusters(alike, [leader] + rest, marked)
  {
    GreedyStep(alike, leader, rest, marked);
    UnmarkedFront(leader, rest, marked);
    ClustersStep(alike, leader, Unmarked(rest, marked));
  }

  lemma GreedyAtGroup(alike: Likeness, leader: Memory, rest: seq<Memory>, marked: set<string>)
    requires DistinctIds([leader] + rest) && leader.id !in marked
    requires Like(alike, leader, Unmarked(rest, marked)) != []
    requires ComputesClusters(alike, rest, marked + IdSet(Like(alike, leader, Unmarked(rest, marked))) + {leader.id})
    ensures ComputesClusters(alike, [leader] + rest, marked)
  {
    var open := Unmarked(rest, marked);
    var like := Like(alike, leader, open);
    var groups := Groups(Clusters(alike, Unlike(alike, leader, open)));
    LeaderStep(alike, leader, rest, marked);
    GreedyStep(alike, leader, rest, marked);
    ClustersStep(alike, leader, open);
    MarksOfGroups(marked, leader, like, groups);
  }

  lemma MarksOfGroups(marked: set<string>, leader: Memory, like: seq<Memory>, groups: seq<seq<Memory>>)
    ensures marked + IdSet(like) + {leader.id} + IdSet(Flatten(groups))
            == marked + IdSet(Flatten([[leader] + like] + groups))
  {
    GroupsFront([leader] + like, groups);
    IdSetAppend([leader] + like, Flatten(groups));
    IdSetAppend([leader], like);
    assert IdSet([leader]) == {leader.id};
  }

  // ---------- Partition ----------

  lemma {:induction false} ClusterMembers(alike: Likeness, memories: seq<Memory>)
    ensures forall m <- Flatten(Groups(Clusters(alike, memories))) :: m in memories
    decreases |memories|
  {
    if memories != [] {
      var leader, others := memories[0], memories[1..];
      assert memories == [leader] + others;
      var like := Like(alike, leader, others);
      ClustersStep(alike, leader, others);
      LikeMembers(alike, leader, others);
      ClusterMembers(alike, Unlike(alike, leader, others));
      GroupsFront([leader] + like, Groups(Clusters(alike, Unlike(alike, leader, others))));
    }
  }

  lemma {:induction false} UnmarkedOfUnlike(
      alike: Likeness, leader: Memory, memories: seq<Memory>, marked: set<string>, marked': set<string>)
    requires forall m <- memories :: m.id in marked <==> alike(leader.content, m.content) || m.id in marked'
    ensures Unmarked(memories, marked) == Unmarked(Unlike(alike, leader, memories), marked')
  {
    if memories != [] {
      var front, last := PopMemory(memories);
      UnmarkedOfUnlike(alike, leader, front, marked, marked');
      UnmarkedOneMore(front, last, marked);
      LikeOneMore(alike, leader, front, last);
      UnmarkedOneMore(Unlike(alike, leader, front), last, marked');
    }
  }

  lemma DistinctRest(first: Memory, rest: seq<Memory>)
    requires DistinctIds([first] + rest)
    ensures DistinctIds(rest) && forall m <- rest :: m.id != first.id
  {
    var all := [first] + rest;
    assert forall i :: 0 <= i < |rest| ==> rest[i] == all[i + 1];
    forall m <- rest ensures m.id != first.id {
      var i :| 0 <= i < |rest| && rest[i] == m;
      assert all[i + 1] == m && all[0] == first;
    }
  }

  /** The entries the plan keeps on their own are those no group took. */
  lemma {:induction false} SinglesAreUnmarked(alike: Likeness, memories: seq<Memory>)
    requires DistinctIds(memories)
    ensures var clusters := Clusters(alike, memories);
            Unmarked(memories, IdSet(Flatten(Groups(clusters)))) == Singles(clusters)
    decreases |memories|
  {
    if memories != [] {
      var leader, others := memories[0], memories[1..];
      assert memories == [leader] + others;
      var like, unlike := Like(alike, leader, others), Unlike(alike, leader, others);
      var marked' := IdSet(Flatten(Groups(Clusters(alike, unlike))));
      DistinctRest(leader, others);
      FiltersKeepDistinct(alike, leader, others, {});
      SinglesAreUnmarked(alike, unlike);
      ClustersStep(alike, leader, others);
      ClusterMembers(alike, unlike);
      LikeMembers(alike, leader, others);
      assert leader.id !in marked';
      if like == [] {
        UnmarkedFront(leader, others, marked');
      } else {
        var marked := IdSet(Flatten([[leader] + like] + Groups(Clusters(alike, unlike))));
        MarksOfGroups({}, leader, like, Groups(Clusters(alike, unlike)));
        MarkedByGroup(alike, leader, others, {}, like);
        UnmarkedFront(leader, others, marked);
        assert marked == {} + IdSet(like) + {leader.id} + marked';
        UnmarkedOfUnlike(alike, leader, others, marked, marked');
      }
    }
  }

  lemma IdBagAppend(a: seq<Memory>, b: seq<Memory>)
    ensures IdBag(a + b) == IdBag(a) + IdBag(b)
  {
    assert Ids(a + b) == Ids(a) + Ids(b);
  }

  lemma {:induction false} LikeSplitsIds(alike: Likeness, leader: Memory, memories: seq<Memory>)
    ensures IdBag(Like(alike, leader, memories)) + IdBag(Unlike(alike, leader, memories)) == IdBag(memories)
  {
    if memories != [] {
      var front, last := PopMemory(memories);
      LikeSplitsIds(alike, leader, front);
      LikeOneMore(alike, leader, front, last);
      IdBagAppend(front, [last]);
      IdBagAppend(Like(alike, leader, front), [last]);
      IdBagAppend(Unlike(alike, leader, front), [last]);
    }
  }

  /** Clustering neither loses nor repeats an entry. */
  lemma {:induction false} ClustersPartition(alike: Likeness, memories: seq<Memory>)
    ensures var clusters := Clusters(alike, memories);
            IdBag(Singles(clusters)) + IdBag(Flatten(Groups(clusters))) == IdBag(memories)
    decreases |memories|
  {
    if memories != [] {
      var leader, others := memories[0], memories[1..];
      assert memories == [leader] + others;
      var like, unlike := Like(alike, leader, others), Unlike(alike, leader, others);
      var later := Clusters(alike, unlike);
      ClustersPartition(alike, unlike);
      ClustersStep(alike, leader, others);
      LikeSplitsIds(alike, leader, others);
      IdBagAppend([leader], others);
      IdBagAppend([leader], Singles(later));
      GroupsFront([leader] + like, Groups(later));
      IdBagAppend([leader] + like, Flatten(Groups(later)));
      IdBagAppend([leader], like);
      assert Ids([]) == [];
    }
  }

  lemma RetentionOneMore(front: seq<Memory>, last: Memory, cutoff: int)
    ensures RetainedOf(front + [last], cutoff)
            == if Retained(last, cutoff) then RetainedOf(front, cutoff) + [last] else RetainedOf(front, cutoff)
    ensures PrunedIds(front + [last], cutoff)
            == if Retained(last, cutoff) then PrunedIds(front, cutoff) else PrunedIds(front, cutoff) + [last.id]
  {
    assert (front + [last])[..|front + [last]| - 1] == front;
  }

  lemma IdBagPush(front: seq<Memory>, last: Memory)
    ensures IdBag(front + [last]) == IdBag(front) + multiset{last.id}
  {
    IdBagAppend(front, [last]);
    assert Ids([last]) == [last.id];
  }

  lemma {:induction false} RetentionPartition(memories: seq<Memory>, cutoff: int)
    ensures IdBag(RetainedOf(memories, cutoff)) + multiset(PrunedIds(memories, cutoff)) == IdBag(memories)
  {
    if memories != [] {
      var front, last := PopMemory(memories);
      RetentionPartition(front, cutoff);
      RetentionOneMore(front, last, cutoff);
      IdBagPush(front, last);
      IdBagPush(RetainedOf(front, cutoff), last);
    }
  }

  lemma {:induction false} RetainedMembers(memories: seq<Memory>, cutoff: int)
    ensures forall m :: m in RetainedOf(memories, cutoff) <==> m in memories && Retained(m, cutoff)
  {
    if memories != [] {
      var front, last := PopMemory(memories);
      RetainedMembers(front, cutoff);
    }
  }

  lemma {:induction false} RetainedDistinct(memories: seq<Memory>, cutoff: int)
    requires DistinctIds(memories)
    ensures DistinctIds(RetainedOf(memories, cutoff))
  {
    if memories != [] {
      var front, last := PopMemory(memories);
      RetainedDistinct(front, cutoff);
      RetainedMembers(front, cutoff);
    }
  }

  /** A merge lists its group's ids, each once, the most salient entry's id first. */
  lemma MergeListsItsGroup(group: seq<Memory>)
    requires group != []
    ensures multiset(Merge(group).sourceIds) == IdBag(group)
    ensures |Merge(group).sourceIds| == |group|
    ensures exists k :: 0 <= k < |group| && Merge(group).sourceIds[0] == group[k].id
                        && forall i :: 0 <= i < |group| ==> group[i].salience <= group[k].salience
  {
    var k := MaxIndex(group);
    var ids := Ids(group);
    assert Ids(PrimaryFirst(group)) == ids[0 := ids[k]][k := ids[0]];
  }

  function AllSources(merges: seq<MergeGroup>): seq<string> {
    if merges == [] then [] else merges[0].sourceIds + AllSources(merges[1..])
  }

  lemma AllSourcesFront(merge: MergeGroup, merges: seq<MergeGroup>)
    ensures AllSources([merge] + merges) == merge.sourceIds + AllSources(merges)
  {
    assert ([merge] + merges)[1..] == merges;
  }

  lemma MergeAllFront(group: seq<Memory>, rest: seq<seq<Memory>>)
    ensures MergeAll([group] + rest) == [Merge(group)] + MergeAll(rest)
  {
    var all, later := MergeAll([group] + rest), MergeAll(rest);
    assert |all| == 1 + |later| && all[0] == Merge(group);
    forall i | 0 <= i < |later| ensures all[i + 1] == later[i] {
      assert ([group] + rest)[i + 1] == rest[i];
    }
  }

  lemma {:induction false} SourcesOfGroups(groups: seq<seq<Memory>>)
    requires forall group <- groups :: group != []
    ensures multiset(AllSources(MergeAll(groups))) == IdBag(Flatten(groups))
  {
    if groups != [] {
      var group, rest := groups[0], groups[1..];
      assert groups == [group] + rest && group in groups;
      assert forall g <- rest :: g in groups;
      SourcesOfGroups(rest);
      MergeListsItsGroup(group);
      IdBagAppend(group, Flatten(rest));
      MergeAllFront(group, rest);
      AllSourcesFront(Merge(group), MergeAll(rest));
    }
  }

  lemma {:induction false} GroupsAreLarge(clusters: seq<seq<Memory>>)
    ensures forall group <- Groups(clusters) :: |group| > 1 && group in clusters
  {
    if clusters != [] {
      GroupsAreLarge(clusters[1..]);
      assert forall c <- clusters[1..] :: c in clusters;
    }
  }

  // ---------- What the loops mark, whatever the ids ----------

  /** Gathering marks exactly the entries it adds behind the leader. */
  lemma {:induction false} GatherMarks(alike: Likeness, leader: Memory, others: seq<Memory>, marked: set<string>)
    ensures var (group, marked') := Gather(alike, leader, others, marked);
            group != [] && group[0] == leader && marked' == marked + IdSet(group[1..])
  {
    if others != [] {
      var front, last := PopMemory(others);
      GatherMarks(alike, leader, front, marked);
      GatherOneMore(alike, leader, front, last, marked);
      var (group, marked') := Gather(alike, leader, front, marked);
      assert (group + [last])[1..] == group[1..] + [last];
      IdSetPush(group[1..], last);
    }
  }

  /** The planner marks exactly the members of its groups. */
  lemma {:induction false} GreedyMarks(alike: Likeness, memories: seq<Memory>, marked: set<string>)
    ensures var (groups, final) := Greedy(alike, memories, marked);
            final == marked + IdSet(Flatten(groups)) && forall group <- groups :: |group| > 1
  {
    if memories != [] {
      var leader, others := memories[0], memories[1..];
      if leader.id in marked {
        GreedyMarks(alike, others, marked);
      } else {
        GatherMarks(alike, leader, others, marked);
        var (group, marked') := Gather(alike, leader, others, marked);
        if |group| > 1 {
          GreedyMarks(alike, others, marked' + {leader.id});
          GroupIsMarked(group, Greedy(alike, others, marked' + {leader.id}).0);
        } else {
          GreedyMarks(alike, others, marked');
        }
      }
    }
  }

  lemma GroupIsMarked(group: seq<Memory>, rest: seq<seq<Memory>>)
    requires group != []
    ensures IdSet(Flatten([group] + rest)) == IdSet(group[1..]) + {group[0].id} + IdSet(Flatten(rest))
  {
    assert group == [group[0]] + group[1..];
    assert ([group] + rest)[1..] == rest;
    IdSetAppend(group, Flatten(rest));
    IdSetAppend([group[0]], group[1..]);
  }

  /** The clusters behind a plan. */
  function ClustersFor(memories: seq<Memory>, cutoff: int): seq<seq<Memory>> {
    Clusters(Similarity.Similar, RetainedOf(memories, cutoff))
  }

  lemma PlanFollowsClusters(memories: seq<Memory>, cutoff: int)
    requires DistinctIds(memories)
    ensures var clusters := ClustersFor(memories, cutoff);
            PlanFor(memories, cutoff)
            == Plan(Ids(Singles(clusters)), PrunedIds(memories, cutoff), MergeAll(Groups(clusters)))
  {
    var retained := RetainedOf(memories, cutoff);
    RetainedDistinct(memories, cutoff);
    UnmarkedByNothing(retained);
    GreedyIsClusters(Similarity.Similar, retained, {});
    SinglesAreUnmarked(Similarity.Similar, retained);
    var clusters := ClustersFor(memories, cutoff);
    assert {} + IdSet(Flatten(Groups(clusters))) == IdSet(Flatten(Groups(clusters)));
  }

  lemma {:induction false} UnmarkedByNothing(memories: seq<Memory>)
    ensures Unmarked(memories, {}) == memories
  {
    if memories != [] {
      var front, last := PopMemory(memories);
      UnmarkedByNothing(front);
    }
  }

  lemma MergesAreLarge(groups: seq<seq<Memory>>)
    requires forall group <- groups :: |group| > 1
    ensures forall g <- MergeAll(groups) :: |g.sourceIds| >= 2
  {
    forall g <- MergeAll(groups) ensures |g.sourceIds| >= 2 {
      var i :| 0 <= i < |groups| && Merge(groups[i]) == g;
      MergeListsItsGroup(groups[i]);
    }
  }

  /** Kept, pruned and merged ids together are the input's ids, each exactly once; groups have two or more. */
  lemma PlanPartitionsInput(memories: seq<Memory>, cutoff: int)
    requires DistinctIds(memories)
    ensures var plan := PlanFor(memories, cutoff);
            && multiset(plan.keep) + multiset(plan.prune) + multiset(AllSources(plan.merge)) == IdBag(memories)
            && forall g <- plan.merge :: |g.sourceIds| >= 2
  {
    var clusters := ClustersFor(memories, cutoff);
    var groups, singles := Groups(clusters), Singles(clusters);
    PlanFollowsClusters(memories, cutoff);
    RetentionPartition(memories, cutoff);
    ClustersPartition(Similarity.Similar, RetainedOf(memories, cutoff));
    GroupsAreLarge(clusters);
    SourcesOfGroups(groups);
    MergesAreLarge(groups);
  }

  // ---------- Clustering ----------

  /** `a` comes before `b`. */
  ghost predicate Before(memories: seq<Memory>, a: Memory, b: Memory) {
    exists i, j :: 0 <= i < j < |memories| && memories[i] == a && memories[j] == b
  }

  /** Members are like their first entry and come after it. */
  ghost predicate Coheres(alike: Likeness, cluster: seq<Memory>, memories: seq<Memory>) {
    && cluster != []
    && forall i :: 0 < i < |cluster| ==>
         alike(cluster[0].content, cluster[i].content) && Before(memories, cluster[0], cluster[i])
  }

  predicate Apart(alike: Likeness, leader: Memory, cluster: seq<Memory>) {
    forall m <- cluster :: !alike(leader.content, m.content)
  }

  /** Clusters cohere, and no entry of a later cluster is like the first entry of an earlier one. */
  ghost predicate Separated(alike: Likeness, clusters: seq<seq<Memory>>, memories: seq<Memory>) {
    && (forall i :: 0 <= i < |clusters| ==> Coheres(alike, clusters[i], memories))
    && (forall i, j :: 0 <= i < j < |clusters| ==> Apart(alike, clusters[i][0], clusters[j]))
  }

  lemma BeforeInFront(front: seq<Memory>, last: Memory, a: Memory, b: Memory)
    requires Before(front, a, b) || (a in front && b == last)
    ensures Before(front + [last], a, b)
  {
    var all := front + [last];
    if Before(front, a, b) {
      var i, j :| 0 <= i < j < |front| && front[i] == a && front[j] == b;
      assert all[i] == a && all[j] == b;
    } else {
      var i :| 0 <= i < |front| && front[i] == a;
      assert all[i] == a && all[|front|] == b;
    }
  }

  lemma {:induction false} UnlikeKeepsOrder(alike: Likeness, leader: Memory, memories: seq<Memory>, a: Memory, b: Memory)
    requires Before(Unlike(alike, leader, memories), a, b)
    ensures Before(memories, a, b)
  {
    var front, last := PopMemory(memories);
    var fewer := Unlike(alike, leader, front);
    LikeOneMore(alike, leader, front, last);
    LikeMembers(alike, leader, front);
    if Before(fewer, a, b) {
      UnlikeKeepsOrder(alike, leader, front, a, b);
    }
    var i, j :| 0 <= i < j < |Unlike(alike, leader, memories)|
                && Unlike(alike, leader, memories)[i] == a && Unlike(alike, leader, memories)[j] == b;
    if j < |fewer| {
      assert fewer[i] == a && fewer[j] == b;
    } else {
      assert fewer[i] == a && b == last;
    }
    BeforeInFront(front, last, a, b);
  }

  lemma BeforeBehindFirst(first: Memory, rest: seq<Memory>, a: Memory, b: Memory)
    requires Before(rest, a, b) || (a == first && b in rest)
    ensures Before([first] + rest, a, b)
  {
    var all := [first] + rest;
    if Before(rest, a, b) {
      var i, j :| 0 <= i < j < |rest| && rest[i] == a && rest[j] == b;
      assert all[i + 1] == a && all[j + 1] == b;
    } else {
      var j :| 0 <= j < |rest| && rest[j] == b;
      assert all[0] == a && all[j + 1] == b;
    }
  }

  lemma {:induction false} AllClusterMembers(alike: Likeness, memories: seq<Memory>)
    ensures forall c <- Clusters(alike, memories) :: forall m <- c :: m in memories
    decreases |memories|
  {
    if memories != [] {
      var leader, others := memories[0], memories[1..];
      assert memories == [leader] + others;
      LikeMembers(alike, leader, others);
      AllClusterMembers(alike, Unlike(alike, leader, others));
    }
  }

  lemma {:induction false} ClustersAreSeparated(alike: Likeness, memories: seq<Memory>)
    ensures Separated(alike, Clusters(alike, memories), memories)
    decreases |memories|
  {
    if memories != [] {
      var leader, others := memories[0], memories[1..];
      assert memories == [leader] + others;
      var like, unlike := Like(alike, leader, others), Unlike(alike, leader, others);
      LikeMembers(alike, leader, others);
      ClustersAreSeparated(alike, unlike);
      AllClusterMembers(alike, unlike);
      LeaderSeparates(alike, leader, others, like, unlike, Clusters(alike, unlike));
    }
  }

  lemma LeaderSeparates(alike: Likeness, leader: Memory, others: seq<Memory>,
                        like: seq<Memory>, unlike: seq<Memory>, later: seq<seq<Memory>>)
    requires like == Like(alike, leader, others) && unlike == Unlike(alike, leader, others)
    requires Separated(alike, later, unlike) && forall c <- later :: forall m <- c :: m in unlike
    ensures Separated(alike, [[leader] + like] + later, [leader] + others)
  {
    var group := [leader] + like;
    var clusters, memories := [group] + later, [leader] + others;
    LikeMembers(alike, leader, others);
    forall i | 0 < i < |group| ensures alike(leader.content, group[i].content) && Before(memories, leader, group[i]) {
      assert group[i] in like;
      BeforeBehindFirst(leader, others, leader, group[i]);
    }
    forall k | 0 <= k < |later| ensures Coheres(alike, later[k], memories) && Apart(alike, leader, later[k]) {
      CoheresInRest(alike, leader, others, later[k]);
      assert later[k] in later;
    }
    forall i | 0 <= i < |clusters| ensures Coheres(alike, clusters[i], memories) {
      assert i > 0 ==> clusters[i] == later[i - 1];
    }
    forall i, j | 0 <= i < j < |clusters| ensures Apart(alike, clusters[i][0], clusters[j]) {
      assert clusters[j] == later[j - 1];
      assert i > 0 ==> clusters[i] == later[i - 1];
    }
  }

  lemma CoheresInRest(alike: Likeness, leader: Memory, others: seq<Memory>, cluster: seq<Memory>)
    requires Coheres(alike, cluster, Unlike(alike, leader, others))
    ensures Coheres(alike, cluster, [leader] + others)
  {
    forall i | 0 < i < |cluster| ensures Before([leader] + others, cluster[0], cluster[i]) {
      UnlikeKeepsOrder(alike, leader, others, cluster[0], cluster[i]);
      BeforeBehindFirst(leader, others, cluster[0], cluster[i]);
    }
  }

  /**
    * What the plan merges and what it leaves alone: within a group every member shares at least three in
    * five words with the group's earliest member, and no kept entry or later group's entry does.
    */
  lemma PlanIsAClustering(memories: seq<Memory>, cutoff: int)
    requires DistinctIds(memories)
    ensures var clusters := ClustersFor(memories, cutoff);
            var plan := PlanFor(memories, cutoff);
            && Separated(Similarity.Similar, clusters, RetainedOf(memories, cutoff))
            && plan.keep == Ids(Singles(clusters)) && plan.merge == MergeAll(Groups(clusters))
  {
    PlanFollowsClusters(memories, cutoff);
    ClustersAreSeparated(Similarity.Similar, RetainedOf(memories, cutoff));
  }
}
