/** The record shared by the tiers of memory. */
module MemoryEntries {
  import opened Prelude

  /** An instant in nanoseconds, zero being the unset time, and the calendar month its own zone shows. */
  datatype Stamp = Stamp(ns: int, month: nat)

  datatype Entry = Entry(
    id: string, content: string, salience: real, timestamp: Stamp, source: string, tags: seq<string>, layer: string)

  predicate DistinctEntries(entries: seq<Entry>) {
    forall i, j :: 0 <= i < j < |entries| ==> entries[i].id != entries[j].id
  }

  lemma PopEntry(entries: seq<Entry>) returns (front: seq<Entry>, last: Entry)
    requires entries != []
    ensures front == entries[..|entries| - 1] && last == entries[|entries| - 1]
    ensures entries == front + [last] && |front| == |entries| - 1
    ensures multiset(entries) == multiset(front) + multiset{last}
    ensures DistinctEntries(entries) ==> DistinctEntries(front) && forall e <- front :: e.id != last.id
    ensures forall e :: e in entries <==> e in front || e == last
  {
    front, last := entries[..|entries| - 1], entries[|entries| - 1];
    assert entries == front + [last];
  }
}
