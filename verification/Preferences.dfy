/** Preferences: the current entries, numbered snapshots of them, rollback, and snapshot differences. */
module Preferences {
  import opened Prelude
  import opened MemoryEntries

  datatype DiffType = Added | Removed | Changed

  datatype DiffEntry = DiffEntry(kind: DiffType, entry: Entry)

  /** The layer's files and counters. */
  datatype Prefs = Prefs(current: seq<Entry>, snapshots: map<nat, seq<Entry>>, version: nat, totalEntries: nat)

  const NO_PREFS := Prefs([], map[], 0, 0)

  function Labelled(entry: Entry, newId: string): Entry {
    entry.(id := if entry.id == "" then newId else entry.id, layer := "preferences")
  }

  function Written(p: Prefs, entry: Entry, newId: string): Prefs {
    p.(current := p.current + [Labelled(entry, newId)], totalEntries := p.totalEntries + 1)
  }

  function Snapshotted(p: Prefs): Prefs {
    p.(snapshots := p.snapshots[p.version + 1 := p.current], version := p.version + 1)
  }

  function RolledBack(p: Prefs, version: nat): Prefs {
    if version !in p.snapshots then p
    else p.(current := p.snapshots[version], totalEntries := |p.snapshots[version]|)
  }

  /** A snapshot that was never taken reads as empty. */
  function SnapshotAt(p: Prefs, version: nat): seq<Entry> {
    if version in p.snapshots then p.snapshots[version] else []
  }

  /** The last entry under each id. */
  function ById(entries: seq<Entry>): map<string, Entry> {
    if entries == [] then map[]
    else ById(entries[..|entries| - 1])[entries[|entries| - 1].id := entries[|entries| - 1]]
  }

  predicate Differs(a: Entry, b: Entry) {
    a.content != b.content || a.salience != b.salience
  }

  /** A difference that holds between the two maps. */
  predicate Holds(d: DiffEntry, a: map<string, Entry>, b: map<string, Entry>) {
    var id := d.entry.id;
    match d.kind
    case Added => id in b && id !in a && d.entry == b[id]
    case Removed => id in a && id !in b && d.entry == a[id]
    case Changed => id in a && id in b && Differs(a[id], b[id]) && d.entry == b[id]
  }

  /** Every difference is true, none is missing, and no id is named twice. */
  ghost predicate IsDiff(diffs: seq<DiffEntry>, a: map<string, Entry>, b: map<string, Entry>) {
    && (forall d <- diffs :: Holds(d, a, b))
    && (forall id :: id in b && id !in a ==> DiffEntry(Added, b[id]) in diffs)
    && (forall id :: id in a && id !in b ==> DiffEntry(Removed, a[id]) in diffs)
    && (forall id :: id in a && id in b && Differs(a[id], b[id]) ==> DiffEntry(Changed, b[id]) in diffs)
    && (forall i, j :: 0 <= i < j < |diffs| ==> diffs[i].entry.id != diffs[j].entry.id)
  }

  predicate KeyedById(m: map<string, Entry>) {
    forall id <- m :: m[id].id == id
  }

  /** Later entries replace earlier ones of the same id. */
  method IndexEntries(entries: seq<Entry>) returns (index: map<string, Entry>)
    ensures index == ById(entries)
  {
    index := map[];
    var i := 0;
    while i < |entries|
      invariant 0 <= i <= |entries|
      invariant index == ById(entries[..i])
    {
      assert entries[..i + 1][..i] == entries[..i];
      index := index[entries[i].id := entries[i]];
      i := i + 1;
    }
    assert entries[..|entries|] == entries;
  }

  class PreferencesLayer {
    var current: seq<Entry>
    var snapshots: map<nat, seq<Entry>>
    var currentVersion: nat
    var totalEntries: nat
    var lastConsolidation: int

    ghost function Model(): Prefs
      reads this
    {
      Prefs(current, snapshots, currentVersion, totalEntries)
    }

    constructor ()
      ensures Model() == NO_PREFS
    {
      current := [];
      snapshots := map[];
      currentVersion := 0;
      totalEntries := 0;
      lastConsolidation := 0;
    }

    method Write(entry: Entry, newId: string)
      modifies this
      ensures Model() == Written(old(Model()), entry, newId)
      ensures lastConsolidation == old(lastConsolidation)
    {
      var e := entry;
      if e.id == "" {
        e := e.(id := newId);
      }
      e := e.(layer := "preferences");
      current := current + [e];
      totalEntries := totalEntries + 1;
    }

    method Snapshot() returns (version: nat)
      modifies this
      ensures Model() == Snapshotted(old(Model())) && version == currentVersion
      ensures lastConsolidation == old(lastConsolidation)
    {
      currentVersion := currentVersion + 1;
      version := currentVersion;
      snapshots := snapshots[version := current];
    }

    method Rollback(version: nat) returns (found: bool)
      modifies this
      ensures found == (version in old(snapshots))
      ensures Model() == RolledBack(old(Model()), version)
    {
      if version !in snapshots {
        return false;
      }
      current := snapshots[version];
      totalEntries := |current|;
      return true;
    }

    method Diff(vA: nat, vB: nat) returns (diffs: seq<DiffEntry>)
      ensures IsDiff(diffs, ById(SnapshotAt(Model(), vA)), ById(SnapshotAt(Model(), vB)))
    {
      var entriesA := if vA in snapshots then snapshots[vA] else [];
      var entriesB := if vB in snapshots then snapshots[vB] else [];
      var mapA := IndexEntries(entriesA);
      var mapB := IndexEntries(entriesB);
      ByIdIsKeyed(entriesA);
      ByIdIsKeyed(entriesB);
      var added := OnlyIn(mapB, mapA, Added);
      var removed := OnlyIn(mapA, mapB, Removed);
      var changed := ChangedIn(mapA, mapB);
      diffs := added + removed + changed;
      PartsAreDiff(added, removed, changed, mapA, mapB);
    }

    /** The ids of a map in whatever order it yields them. */
    method KeysInOrder(m: map<string, Entry>) returns (order: seq<string>)
      ensures Distinct(order) && forall id :: id in order <==> id in m
    {
      order := [];
      var rest := m.Keys;
      while rest != {}
        invariant rest <= m.Keys
        invariant Distinct(order) && forall id :: id in order <==> id in m && id !in rest
        decreases |rest|
      {
        var id :| id in rest;
        order := order + [id];
        rest := rest - {id};
      }
    }

    /** Entries of one map whose id the other lacks. */
    method OnlyIn(m: map<string, Entry>, other: map<string, Entry>, kind: DiffType) returns (diffs: seq<DiffEntry>)
      requires KeyedById(m)
      ensures Lists(diffs, m, OnlyIds(other, m.Keys), kind)
    {
      var order := KeysInOrder(m);
      diffs := [];
      var i := 0;
      while i < |order|
        invariant 0 <= i <= |order|
        invariant diffs == Pick(order[..i], m, OnlyIds(other, m.Keys), kind)
      {
        PickOneMore(order, i, m, OnlyIds(other, m.Keys), kind);
        if order[i] !in other {
          diffs := diffs + [DiffEntry(kind, m[order[i]])];
        }
        i := i + 1;
      }
      assert order[..|order|] == order;
      PickLists(order, m, OnlyIds(other, m.Keys), kind);
    }

    /** Entries under ids of both maps whose content or salience changed. */
    method ChangedIn(mapA: map<string, Entry>, mapB: map<string, Entry>) returns (diffs: seq<DiffEntry>)
      requires KeyedById(mapA) && KeyedById(mapB)
      ensures Lists(diffs, mapB, ChangedIds(mapA, mapB, mapA.Keys), Changed)
    {
      var order := KeysInOrder(mapA);
      diffs := [];
      var i := 0;
      while i < |order|
        invariant 0 <= i <= |order|
        invariant diffs == Pick(order[..i], mapB, ChangedIds(mapA, mapB, mapA.Keys), Changed)
      {
        PickOneMore(order, i, mapB, ChangedIds(mapA, mapB, mapA.Keys), Changed);
        var id := order[i];
        if id in mapB && (mapA[id].content != mapB[id].content || mapA[id].salience != mapB[id].salience) {
          diffs := diffs + [DiffEntry(Changed, mapB[id])];
        }
        i := i + 1;
      }
      assert order[..|order|] == order;
      PickLists(order, mapB, ChangedIds(mapA, mapB, mapA.Keys), Changed);
    }
  }

  /** One difference for each listed id that is wanted. */
  function Pick(order: seq<string>, m: map<string, Entry>, wanted: set<string>, kind: DiffType): seq<DiffEntry>
    requires wanted <= m.Keys
  {
    if order == [] then []
    else
      var before, id := Pick(order[..|order| - 1], m, wanted, kind), order[|order| - 1];
      if id in wanted then before + [DiffEntry(kind, m[id])] else before
  }

  lemma PickOneMore(order: seq<string>, i: nat, m: map<string, Entry>, wanted: set<string>, kind: DiffType)
    requires i < |order| && wanted <= m.Keys
    ensures Pick(order[..i + 1], m, wanted, kind)
            == if order[i] in wanted then Pick(order[..i], m, wanted, kind) + [DiffEntry(kind, m[order[i]])]
               else Pick(order[..i], m, wanted, kind)
  {
    assert order[..i + 1][..i] == order[..i];
  }

  lemma {:induction false} PickMembers(order: seq<string>, m: map<string, Entry>, wanted: set<string>, kind: DiffType)
    requires wanted <= m.Keys && Distinct(order)
    requires forall id <- wanted :: m[id].id == id
    ensures forall d :: d in Pick(order, m, wanted, kind)
                        <==> d.kind == kind && d.entry.id in order && d.entry.id in wanted && d.entry == m[d.entry.id]
    ensures forall i, j :: 0 <= i < j < |Pick(order, m, wanted, kind)| ==>
              Pick(order, m, wanted, kind)[i].entry.id != Pick(order, m, wanted, kind)[j].entry.id
  {
    if order != [] {
      var front, last := Pop(order);
      PickMembers(front, m, wanted, kind);
      var before := Pick(front, m, wanted, kind);
      assert last !in front;
      forall i | 0 <= i < |before| ensures before[i].entry.id != last {
        assert before[i] in before;
      }
    }
  }

  lemma PickLists(order: seq<string>, m: map<string, Entry>, wanted: set<string>, kind: DiffType)
    requires wanted <= m.Keys && Distinct(order)
    requires forall id <- wanted :: m[id].id == id && id in order
    ensures Lists(Pick(order, m, wanted, kind), m, wanted, kind)
  {
    PickMembers(order, m, wanted, kind);
  }

  function OnlyIds(other: map<string, Entry>, ids: set<string>): set<string> {
    set id | id in ids && id !in other
  }

  function ChangedIds(a: map<string, Entry>, b: map<string, Entry>, ids: set<string>): set<string> {
    set id | id in ids && id in a && id in b && Differs(a[id], b[id])
  }

  /** The differences name exactly these ids, each once, with the entries of `m`. */
  ghost predicate Lists(diffs: seq<DiffEntry>, m: map<string, Entry>, ids: set<string>, kind: DiffType) {
    && ids <= m.Keys
    && (forall d <- diffs :: d.kind == kind && d.entry.id in ids && d.entry == m[d.entry.id])
    && (forall id <- ids :: DiffEntry(kind, m[id]) in diffs)
    && (forall i, j :: 0 <= i < j < |diffs| ==> diffs[i].entry.id != diffs[j].entry.id)
  }

  lemma PartsAreDiff(added: seq<DiffEntry>, removed: seq<DiffEntry>, changed: seq<DiffEntry>,
                     a: map<string, Entry>, b: map<string, Entry>)
    requires KeyedById(a) && KeyedById(b)
    requires Lists(added, b, OnlyIds(a, b.Keys), Added) && Lists(removed, a, OnlyIds(b, a.Keys), Removed)
    requires Lists(changed, b, ChangedIds(a, b, a.Keys), Changed)
    ensures IsDiff(added + removed + changed, a, b)
  {
    var diffs := added + removed + changed;
    assert forall d :: d in diffs <==> d in added || d in removed || d in changed;
    IdsApart(added, OnlyIds(a, b.Keys), removed, OnlyIds(b, a.Keys));
    IdsApart(added + removed, OnlyIds(a, b.Keys) + OnlyIds(b, a.Keys), changed, ChangedIds(a, b, a.Keys));
  }

  lemma IdsApart(p: seq<DiffEntry>, ps: set<string>, q: seq<DiffEntry>, qs: set<string>)
    requires forall d <- p :: d.entry.id in ps
    requires forall d <- q :: d.entry.id in qs
    requires ps !! qs
    requires forall i, j :: 0 <= i < j < |p| ==> p[i].entry.id != p[j].entry.id
    requires forall i, j :: 0 <= i < j < |q| ==> q[i].entry.id != q[j].entry.id
    ensures forall i, j :: 0 <= i < j < |p + q| ==> (p + q)[i].entry.id != (p + q)[j].entry.id
  {
    forall i, j | 0 <= i < j < |p + q| ensures (p + q)[i].entry.id != (p + q)[j].entry.id {
      if i < |p| <= j {
        assert p[i] in p && q[j - |p|] in q;
      }
    }
  }

  lemma {:induction false} ByIdIsKeyed(entries: seq<Entry>)
    ensures KeyedById(ById(entries))
    ensures forall id :: id in ById(entries) ==> ById(entries)[id] in entries
    ensures forall e <- entries :: e.id in ById(entries)
    ensures DistinctEntries(entries) ==> forall e <- entries :: ById(entries)[e.id] == e
  {
    if entries != [] {
      var front, last := PopEntry(entries);
      ByIdIsKeyed(front);
    }
  }

  /** Under each id stands the last entry that has it, and there is nothing else. */
  lemma {:induction false} LastEntryStands(entries: seq<Entry>, k: nat)
    requires k < |entries| && forall i :: k < i < |entries| ==> entries[i].id != entries[k].id
    ensures entries[k].id in ById(entries) && ById(entries)[entries[k].id] == entries[k]
    ensures forall id <- ById(entries) :: exists e <- entries :: e.id == id
  {
    var front, last := Pop(entries);
    ByIdIsKeyed(entries);
    if k < |front| {
      LastEntryStands(front, k);
      assert entries[|front|].id != entries[k].id;
    }
  }

  // ---------- Differences as patches ----------

  function Patch(m: map<string, Entry>, diffs: seq<DiffEntry>): map<string, Entry> {
    if diffs == [] then m
    else
      var before, d := Patch(m, diffs[..|diffs| - 1]), diffs[|diffs| - 1];
      if d.kind == Removed then before - {d.entry.id} else before[d.entry.id := d.entry]
  }

  /** The two maps have the same ids, contents and saliences. */
  predicate SameMemories(a: map<string, Entry>, b: map<string, Entry>) {
    a.Keys == b.Keys && forall id <- a :: a[id].content == b[id].content && a[id].salience == b[id].salience
  }

  predicate Names(diffs: seq<DiffEntry>, id: string) {
    exists d <- diffs :: d.entry.id == id
  }

  lemma {:induction false} PatchAt(m: map<string, Entry>, diffs: seq<DiffEntry>, id: string)
    requires forall i, j :: 0 <= i < j < |diffs| ==> diffs[i].entry.id != diffs[j].entry.id
    ensures !Names(diffs, id) ==> (id in Patch(m, diffs) <==> id in m) && (id in m ==> Patch(m, diffs)[id] == m[id])
    ensures forall d <- diffs :: d.entry.id == id ==>
              if d.kind == Removed then id !in Patch(m, diffs) else id in Patch(m, diffs) && Patch(m, diffs)[id] == d.entry
  {
    if diffs != [] {
      var front, last := Pop(diffs);
      PatchAt(m, front, id);
      assert last in diffs && forall d <- front :: d in diffs;
      assert last.entry.id == id ==> !Names(front, id) by {
        assert forall i :: 0 <= i < |front| ==> front[i].entry.id != last.entry.id;
      }
      assert Names(diffs, id) <==> Names(front, id) || last.entry.id == id;
    }
  }

  lemma UnnamedIsUnchanged(diffs: seq<DiffEntry>, a: map<string, Entry>, b: map<string, Entry>, id: string)
    requires IsDiff(diffs, a, b) && !Names(diffs, id) && KeyedById(a) && KeyedById(b)
    ensures (id in a <==> id in b) && (id in a ==> !Differs(a[id], b[id]))
  {
  }

  /** Applying the difference of two snapshots to the first gives the second. */
  lemma DiffPatches(diffs: seq<DiffEntry>, a: map<string, Entry>, b: map<string, Entry>)
    requires KeyedById(a) && KeyedById(b) && IsDiff(diffs, a, b)
    ensures SameMemories(Patch(a, diffs), b)
  {
    forall id ensures (id in Patch(a, diffs) <==> id in b)
                      && (id in b ==> !Differs(Patch(a, diffs)[id], b[id]))
    {
      PatchAt(a, diffs, id);
      if Names(diffs, id) {
        var d :| d in diffs && d.entry.id == id;
        assert Holds(d, a, b);
      } else {
        UnnamedIsUnchanged(diffs, a, b, id);
      }
    }
  }

  // ---------- Runs ----------

  datatype Op = OpWrite(entry: Entry, newId: string) | OpSnapshot | OpRollback(version: nat)

  function Apply(p: Prefs, op: Op): Prefs {
    match op
    case OpWrite(entry, newId) => Written(p, entry, newId)
    case OpSnapshot => Snapshotted(p)
    case OpRollback(version) => RolledBack(p, version)
  }

  function ApplyAll(p: Prefs, ops: seq<Op>): Prefs
    decreases |ops|
  {
    if ops == [] then p else ApplyAll(Apply(p, ops[0]), ops[1..])
  }

  /** The counter is exact, and no snapshot is numbered beyond the version counter. */
  predicate Sound(p: Prefs) {
    p.totalEntries == |p.current| && forall v <- p.snapshots :: 0 < v <= p.version
  }

  /** Versions never go back, and a snapshot once taken never changes. */
  lemma {:induction false} SnapshotsAreKept(p: Prefs, ops: seq<Op>, v: nat)
    requires Sound(p)
    ensures var q := ApplyAll(p, ops);
            && Sound(q) && p.version <= q.version
            && (v in p.snapshots ==> v in q.snapshots && q.snapshots[v] == p.snapshots[v])
    decreases |ops|
  {
    if ops != [] {
      SnapshotsAreKept(Apply(p, ops[0]), ops[1..], v);
    }
  }

  /** Whatever happens after a snapshot, rolling back to it restores the entries of that moment. */
  lemma RollbackRestores(p: Prefs, ops: seq<Op>)
    requires Sound(p)
    ensures var taken := Snapshotted(p);
            var back := RolledBack(ApplyAll(taken, ops), taken.version);
            && p.version < taken.version
            && back.current == p.current && back.totalEntries == |p.current|
  {
    SnapshotsAreKept(Snapshotted(p), ops, p.version + 1);
  }
}
