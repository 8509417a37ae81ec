/** OneBot message deduplication: a hash set beside a fixed ring of the ids accepted last. */
module DedupRing {
  import opened Prelude

  /** Ids that carry no identity are never treated as duplicates and never stored. */
  predicate Ignored(id: string) {
    id == "" || id == "0"
  }

  /** Reference answer: a sliding window over the ids accepted so far, oldest first. */
  predicate Seen(accepted: seq<string>, window: nat, id: string) {
    !Ignored(id) && id in LastN(accepted, window)
  }

  function Accept(accepted: seq<string>, window: nat, id: string): seq<string> {
    if Ignored(id) || Seen(accepted, window, id) then accepted else accepted + [id]
  }

  /** Ids accepted over a whole stream of deliveries. */
  function Replay(ids: seq<string>, window: nat): seq<string> {
    if ids == [] then [] else Accept(Replay(ids[..|ids| - 1], window), window, ids[|ids| - 1])
  }

  function FreeSlots(n: nat): seq<string> {
    seq(n, _ => "")
  }

  /** A ring read from its write position. */
  function Unrolled(slots: seq<string>, idx: nat): seq<string>
    requires idx <= |slots|
  {
    slots[idx..] + slots[..idx]
  }

  /**
    * The ring read from its write position lists free slots, then the ids accepted last, oldest first; these
    * are pairwise distinct, and the set holds exactly them.
    */
  ghost predicate Tracks(slots: seq<string>, idx: nat, dedup: set<string>, accepted: seq<string>) {
    && idx < |slots|
    && var window := LastN(accepted, |slots|);
    && Unrolled(slots, idx) == FreeSlots(|slots| - |window|) + window
    && (forall id <- window :: !Ignored(id))
    && Distinct(window)
    && dedup == set id | id in window
  }

  class OneBotChannel {
    var dedup: set<string>
    const dedupRing: array<string>
    var dedupIdx: nat
    /** Every id accepted so far, oldest first. */
    ghost var accepted: seq<string>

    ghost predicate Valid()
      reads this, dedupRing
    {
      Tracks(dedupRing[..], dedupIdx, dedup, accepted)
    }

    constructor (dedupSize: nat)
      requires dedupSize > 0
      ensures Valid() && fresh(dedupRing) && dedupRing.Length == dedupSize && accepted == []
    {
      dedup := {};
      dedupRing := new string[dedupSize](_ => "");
      dedupIdx := 0;
      accepted := [];
      new;
      assert dedupRing[..] == FreeSlots(dedupSize);
    }

    method IsDuplicate(messageID: string) returns (duplicate: bool)
      requires Valid()
      modifies this, dedupRing
      ensures Valid()
      ensures duplicate == Seen(old(accepted), dedupRing.Length, messageID)
      ensures accepted == Accept(old(accepted), dedupRing.Length, messageID)
    {
      if Ignored(messageID) {
        return false;
      }
      SetAnswersSeen(dedupRing[..], dedupIdx, dedup, accepted, messageID);
      if messageID in dedup {
        return true;
      }
      ghost var slots, idx, ids, all := dedupRing[..], dedupIdx, dedup, accepted;
      if dedupRing[dedupIdx] != "" {
        dedup := dedup - {dedupRing[dedupIdx]};
      }
      dedupRing[dedupIdx] := messageID;
      dedup := dedup + {messageID};
      dedupIdx := (dedupIdx + 1) % dedupRing.Length;
      accepted := accepted + [messageID];
      AcceptingTracks(slots, idx, ids, all, messageID, dedupRing[..], dedupIdx, dedup, accepted);
      return false;
    }
  }

  /** The set answers what the window would. */
  lemma SetAnswersSeen(slots: seq<string>, idx: nat, dedup: set<string>, accepted: seq<string>, id: string)
    requires Tracks(slots, idx, dedup, accepted) && !Ignored(id)
    ensures id in dedup <==> Seen(accepted, |slots|, id)
  {
  }

  function Evicted(dedup: set<string>, slot: string): set<string> {
    if slot != "" then dedup - {slot} else dedup
  }

  /** Overwriting the slot at the write position, and its id in the set, makes room for one more accepted id. */
  lemma AcceptingTracks(slots: seq<string>, idx: nat, dedup: set<string>, accepted: seq<string>, id: string,
                        slots': seq<string>, idx': nat, dedup': set<string>, accepted': seq<string>)
    requires Tracks(slots, idx, dedup, accepted) && !Ignored(id) && id !in dedup
    requires slots' == slots[idx := id] && idx' == (idx + 1) % |slots|
    requires dedup' == Evicted(dedup, slots[idx]) + {id} && accepted' == accepted + [id]
    ensures Tracks(slots', idx', dedup', accepted')
  {
    var ring, window := Unrolled(slots, idx), LastN(accepted, |slots|);
    assert ring[0] == slots[idx];
    ShiftWindow(ring, window, id, |slots|);
    LastNAppend(accepted, [id], |slots|);
    ShiftSlots(slots, idx, id);
  }

  /** Writing one slot and stepping the index rotates the unrolled ring by one. */
  lemma ShiftSlots(slots: seq<string>, idx: nat, id: string)
    requires idx < |slots|
    ensures var next := (idx + 1) % |slots|;
            next < |slots| && Unrolled(slots[idx := id], next) == Unrolled(slots, idx)[1..] + [id]
  {
    var slots' := slots[idx := id];
    var n := |slots|;
    if idx + 1 == n {
      assert (idx + 1) % n == 0;
      assert slots'[0..] + slots'[..0] == slots[..idx] + [id];
      assert (slots[idx..] + slots[..idx])[1..] == slots[..idx];
    } else {
      assert (idx + 1) % n == idx + 1;
    }
  }

  /** The oldest id gives way exactly when the ring is full. */
  lemma ShiftWindow(ring: seq<string>, window: seq<string>, id: string, n: nat)
    requires 0 < n && |window| <= n && |ring| == n
    requires ring == FreeSlots(n - |window|) + window
    requires forall w <- window :: !Ignored(w)
    requires Distinct(window) && id !in window && !Ignored(id)
    ensures var window' := LastN(window + [id], n);
            && ring[1..] + [id] == FreeSlots(n - |window'|) + window'
            && Distinct(window')
            && (set w | w in window') == (set w | w in window) - {ring[0]} + {id}
  {
    var window' := LastN(window + [id], n);
    if |window| == n {
      assert window' == window[1..] + [id];
      assert window == [window[0]] + window[1..];
    } else {
      assert window' == window + [id];
      assert ring[0] == "";
    }
  }

  /** The channel never accepts the same id twice within `window` further acceptances. */
  lemma {:induction false} AcceptedIdsSpread(ids: seq<string>, window: nat, i: nat, j: nat)
    requires i < j < |Replay(ids, window)| && j - i <= window
    ensures Replay(ids, window)[i] != Replay(ids, window)[j]
  {
    var prefix := ids[..|ids| - 1];
    var accepted := Replay(prefix, window);
    if j < |accepted| {
      AcceptedIdsSpread(prefix, window, i, j);
    } else {
      var recent := LastN(accepted, window);
      assert accepted[i] == recent[i - (|accepted| - |recent|)];
    }
  }

  /** An id delivered twice in a row is a duplicate the second time if and only if it is neither empty nor "0". */
  lemma RepeatIsDuplicateIff(before: seq<string>, id: string, window: nat)
    requires window > 0
    ensures Seen(Replay(before + [id], window), window, id) <==> id != "" && id != "0"
  {
    assert (before + [id])[..|before|] == before;
    var accepted := Replay(before, window);
    if id != "" && id != "0" && !Seen(accepted, window, id) {
      assert LastN(accepted + [id], window)[|LastN(accepted + [id], window)| - 1] == id;
    }
  }

  lemma {:induction false} ReplayAppend(a: seq<string>, b: seq<string>, window: nat)
    ensures Replay(a, window) <= Replay(a + b, window)
    ensures forall k :: |Replay(a, window)| <= k < |Replay(a + b, window)| ==> Replay(a + b, window)[k] in b
    ensures b != [] ==> Replay(a + b, window) == Accept(Replay(a + b[..|b| - 1], window), window, b[|b| - 1])
  {
    if b == [] {
      assert a + b == a;
    } else {
      assert (a + b)[..|a + b| - 1] == a + b[..|b| - 1];
      ReplayAppend(a, b[..|b| - 1], window);
    }
  }

  /**
    * After an id is accepted its deliveries are duplicates exactly while at most `window` acceptances, its own
    * included, lie back to it. Duplicate deliveries in between change nothing about that; the bound only ends
    * the claim where the id may have been accepted anew.
    */
  lemma DeliveryIsDuplicateWhileInWindow(before: seq<string>, id: string, between: seq<string>, window: nat)
    requires !Ignored(id) && !Seen(Replay(before, window), window, id)
    requires id !in between || |Replay(before + [id] + between, window)| - |Replay(before, window)| <= window + 1
    ensures var first := |Replay(before, window)|;
            var now := Replay(before + [id] + between, window);
            Seen(now, window, id) <==> |now| - first <= window
  {
    var ids, k := before + [id] + between, |Replay(before, window)|;
    ReplayAppend(before, [id], window);
    assert before + [id][..0] == before;
    assert Replay(before + [id], window) == Replay(before, window) + [id];
    ReplayAppend(before + [id], between, window);
    var now := Replay(ids, window);
    assert now[k] == id;
    forall j | k < j < |now| ensures now[j] != now[k] {
      if id in between {
        AcceptedIdsSpread(ids, window, k, j);
      }
    }
    InWindowByPosition(now, k, window);
  }

  /** The last occurrence of an element is in the window exactly when at most `window` elements start at it. */
  lemma InWindowByPosition(now: seq<string>, k: nat, window: nat)
    requires k < |now| && forall j :: k < j < |now| ==> now[j] != now[k]
    ensures now[k] in LastN(now, window) <==> |now| - k <= window
  {
    var recent := LastN(now, window);
    if |now| - k <= window {
      assert recent[k - (|now| - |recent|)] == now[k];
    } else {
      assert forall i :: 0 <= i < |recent| ==> recent[i] == now[|now| - |recent| + i];
    }
  }

  /**
    * So a duplicate delivery does not renew an id: with two slots, "a" is answered "duplicate" at its
    * second delivery and forgotten by its third, although only one other id came in between.
    */
  lemma DuplicateDoesNotRefresh()
    ensures Seen(Replay(["a", "b"], 2), 2, "a")
    ensures !Seen(Replay(["a", "b", "a", "c"], 2), 2, "a")
  {
    assert ["a", "b", "a", "c"][..3] == ["a", "b", "a"];
    assert ["a", "b", "a"][..2] == ["a", "b"];
    assert ["a", "b"][..1] == ["a"];
    assert ["a"][..0] == [];
    assert Replay(["a"], 2) == ["a"];
    assert Replay(["a", "b"], 2) == ["a", "b"];
    assert Replay(["a", "b", "a"], 2) == ["a", "b"];
    assert Replay(["a", "b", "a", "c"], 2) == ["a", "b", "c"];
  }
}
