/** Working memory: entries in one file for each calendar month. */
module WorkingMemory {
  import opened Prelude
  import opened MemoryEntries

  /** File contents by month; months sort as their file names do. */
  type Files = map<nat, seq<Entry>>

  function OfMonth(entries: seq<Entry>, month: nat): seq<Entry> {
    if entries == [] then []
    else
      var before, last := OfMonth(entries[..|entries| - 1], month), entries[|entries| - 1];
      if last.timestamp.month == month then before + [last] else before
  }

  function WithoutIds(entries: seq<Entry>, ids: set<string>): seq<Entry> {
    if entries == [] then []
    else
      var before, last := WithoutIds(entries[..|entries| - 1], ids), entries[|entries| - 1];
      if last.id in ids then before else before + [last]
  }

  function FileAt(files: Files, month: nat): seq<Entry> {
    if month in files then files[month] else []
  }

  /** The files of the first `n` months, one after the other. */
  function ReadUpTo(files: Files, n: nat): seq<Entry> {
    if n == 0 then [] else ReadUpTo(files, n - 1) + FileAt(files, n - 1)
  }

  function Months(entries: seq<Entry>): set<nat> {
    set e | e in entries :: e.timestamp.month
  }

  function Grouped(entries: seq<Entry>): Files {
    map month | month in Months(entries) :: OfMonth(entries, month)
  }

  /** Each file without the named entries; a file may end empty. */
  function PrunedFiles(files: Files, ids: set<string>): Files {
    map month | month in files :: WithoutIds(files[month], ids)
  }

  predicate OwnMonth(entries: seq<Entry>, month: nat) {
    forall e <- entries :: e.timestamp.month == month
  }

  predicate WithinMonths(entries: seq<Entry>, months: nat) {
    forall e <- entries :: e.timestamp.month < months
  }

  /** Every entry lies in the file of its own month, and file names stay in range. */
  predicate Filed(files: Files, months: nat) {
    forall month <- files :: month < months && OwnMonth(files[month], month)
  }

  function Prepared(entry: Entry, now: Stamp, newId: string): Entry {
    entry.(id := if entry.id == "" then newId else entry.id,
           timestamp := if entry.timestamp.ns == 0 then now else entry.timestamp,
           layer := "working")
  }

  class WorkingLayer {
    var files: Files
    /** Month numbers are below this bound, as four-digit years make them. */
    const months: nat

    ghost predicate Valid()
      reads this
    {
      Filed(files, months)
    }

    constructor (months: nat)
      ensures Valid() && files == map[] && this.months == months
    {
      files := map[];
      this.months := months;
    }

    method Write(entry: Entry, now: Stamp, newId: string)
      requires Valid() && entry.timestamp.month < months && now.month < months
      modifies this
      ensures Valid()
      ensures var e := Prepared(entry, now, newId);
              files == old(files)[e.timestamp.month := FileAt(old(files), e.timestamp.month) + [e]]
    {
      var e := entry;
      if e.id == "" {
        e := e.(id := newId);
      }
      if e.timestamp.ns == 0 {
        e := e.(timestamp := now);
      }
      e := e.(layer := "working");
      var month := e.timestamp.month;
      files := files[month := (if month in files then files[month] else []) + [e]];
    }

    method ReadAll() returns (all: seq<Entry>)
      ensures all == ReadUpTo(files, months)
    {
      all := [];
      var month := 0;
      while month < months
        invariant 0 <= month <= months
        invariant all == ReadUpTo(files, month)
      {
        if month in files {
          all := all + files[month];
        }
        month := month + 1;
      }
    }

    method Prune(ids: seq<string>)
      requires Valid()
      modifies this
      ensures Valid()
      ensures files == PrunedFiles(old(files), set id | id in ids)
    {
      var idSet := set id | id in ids;
      var rest := files.Keys;
      while rest != {}
        invariant rest <= files.Keys == old(files).Keys
        invariant forall month <- rest :: files[month] == old(files)[month]
        invariant forall month :: month in files && month !in rest ==> files[month] == WithoutIds(old(files)[month], idSet)
        decreases |rest|
      {
        var month :| month in rest;
        var kept, changed := FilterFile(files[month], idSet);
        if changed {
          files := files[month := kept];
        }
        rest := rest - {month};
      }
      forall month <- files ensures month < months && OwnMonth(files[month], month) {
        WithoutMembers(old(files)[month], idSet);
      }
    }

    method FilterFile(records: seq<Entry>, idSet: set<string>) returns (kept: seq<Entry>, changed: bool)
      ensures kept == WithoutIds(records, idSet)
      ensures !changed ==> kept == records
    {
      kept, changed := [], false;
      var i := 0;
      while i < |records|
        invariant 0 <= i <= |records|
        invariant kept == WithoutIds(records[..i], idSet)
        invariant !changed ==> kept == records[..i]
      {
        assert records[..i + 1][..i] == records[..i];
        if records[i].id in idSet {
          changed := true;
        } else {
          kept := kept + [records[i]];
        }
        i := i + 1;
      }
      assert records[..|records|] == records;
    }

    method Replace(entries: seq<Entry>)
      requires WithinMonths(entries, months)
      modifies this
      ensures Valid() && files == Grouped(entries)
    {
      files := map[];
      var byMonth: Files := map[];
      var i := 0;
      while i < |entries|
        invariant 0 <= i <= |entries|
        invariant files == map[]
        invariant byMonth == Grouped(entries[..i])
      {
        GroupedOneMore(entries, i);
        var month := entries[i].timestamp.month;
        byMonth := byMonth[month := (if month in byMonth then byMonth[month] else []) + [entries[i]]];
        i := i + 1;
      }
      assert entries[..|entries|] == entries;
      var rest := byMonth.Keys;
      while rest != {}
        invariant rest <= byMonth.Keys && files.Keys == byMonth.Keys - rest
        invariant forall month <- files :: files[month] == byMonth[month]
        decreases |rest|
      {
        var month :| month in rest;
        files := files[month := byMonth[month]];
        rest := rest - {month};
      }
      assert files == byMonth;
      GroupedIsFiled(entries, months);
    }
  }

  // ---------- What the files hold ----------

  lemma {:induction false} WithoutMembers(entries: seq<Entry>, ids: set<string>)
    ensures forall e :: e in WithoutIds(entries, ids) <==> e in entries && e.id !in ids
  {
    if entries != [] {
      var front, last := PopEntry(entries);
      WithoutMembers(front, ids);
    }
  }

  lemma {:induction false} OfMonthMembers(entries: seq<Entry>, month: nat)
    ensures forall e :: e in OfMonth(entries, month) <==> e in entries && e.timestamp.month == month
  {
    if entries != [] {
      var front, last := PopEntry(entries);
      OfMonthMembers(front, month);
    }
  }

  lemma {:induction false} NoneOfMonth(entries: seq<Entry>, month: nat)
    requires month !in Months(entries)
    ensures OfMonth(entries, month) == []
  {
    if entries != [] {
      var front, last := PopEntry(entries);
      assert month !in Months(front) && last in entries;
      NoneOfMonth(front, month);
    }
  }

  lemma OfMonthOneMore(front: seq<Entry>, last: Entry, month: nat)
    ensures OfMonth(front + [last], month)
            == if last.timestamp.month == month then OfMonth(front, month) + [last] else OfMonth(front, month)
  {
    assert (front + [last])[..|front + [last]| - 1] == front;
  }

  lemma MonthsOneMore(front: seq<Entry>, last: Entry)
    ensures Months(front + [last]) == Months(front) + {last.timestamp.month}
  {
  }

  lemma GroupedOneMore(entries: seq<Entry>, i: nat)
    requires i < |entries|
    ensures var month := entries[i].timestamp.month;
            var before := Grouped(entries[..i]);
            Grouped(entries[..i + 1]) == before[month := FileAt(before, month) + [entries[i]]]
  {
    var front, last := entries[..i], entries[i];
    assert entries[..i + 1] == front + [last];
    GroupedPush(front, last);
  }

  lemma GroupedPush(front: seq<Entry>, last: Entry)
    ensures var before := Grouped(front);
            Grouped(front + [last])
            == before[last.timestamp.month := FileAt(before, last.timestamp.month) + [last]]
  {
    var before, after := Grouped(front), Grouped(front + [last]);
    MonthsOneMore(front, last);
    GroupedFile(front, last.timestamp.month);
    forall month <- after ensures OfMonth(front + [last], month)
                                  == before[last.timestamp.month := FileAt(before, last.timestamp.month) + [last]][month] {
      OfMonthOneMore(front, last, month);
    }
  }

  lemma GroupedIsFiled(entries: seq<Entry>, months: nat)
    requires WithinMonths(entries, months)
    ensures Filed(Grouped(entries), months)
  {
    forall month <- Grouped(entries) ensures month < months && OwnMonth(Grouped(entries)[month], month) {
      OfMonthMembers(entries, month);
    }
  }

  lemma {:induction false} OfMonthAppend(a: seq<Entry>, b: seq<Entry>, month: nat)
    ensures OfMonth(a + b, month) == OfMonth(a, month) + OfMonth(b, month)
  {
    if b == [] {
      assert a + b == a;
    } else {
      var front, last := PopAppend(a, b);
      OfMonthAppend(a, front, month);
    }
  }

  lemma {:induction false} OfOwnMonth(entries: seq<Entry>, own: nat, month: nat)
    requires OwnMonth(entries, own)
    ensures OfMonth(entries, month) == if month == own then entries else []
  {
    if entries != [] {
      var front, last := PopEntry(entries);
      OfOwnMonth(front, own, month);
    }
  }

  lemma FileOfMonth(files: Files, months: nat, own: nat, month: nat)
    requires Filed(files, months)
    ensures OfMonth(FileAt(files, own), month) == if month == own then FileAt(files, month) else []
  {
    if own in files {
      OfOwnMonth(files[own], own, month);
    }
  }

  lemma OneMoreFileOfMonth(files: Files, months: nat, earlier: seq<Entry>, n: nat, month: nat)
    requires Filed(files, months)
    requires OfMonth(earlier, month) == if month < n then FileAt(files, month) else []
    ensures OfMonth(earlier + FileAt(files, n), month) == if month < n + 1 then FileAt(files, month) else []
  {
    OfMonthAppend(earlier, FileAt(files, n), month);
    FileOfMonth(files, months, n, month);
    EmptyIsUnit(OfMonth(earlier, month));
    EmptyIsUnit(FileAt(files, n));
  }

  lemma {:induction false} ReadOfMonth(files: Files, months: nat, n: nat, month: nat)
    requires Filed(files, months)
    ensures OfMonth(ReadUpTo(files, n), month) == if month < n then FileAt(files, month) else []
  {
    if n > 0 {
      ReadOfMonth(files, months, n - 1, month);
      OneMoreFileOfMonth(files, months, ReadUpTo(files, n - 1), n - 1, month);
    }
  }

  /** Pruning removes exactly the named entries from what a full read delivers, keeping the order. */
  lemma {:induction false} PruneFiltersRead(files: Files, ids: set<string>, n: nat)
    ensures ReadUpTo(PrunedFiles(files, ids), n) == WithoutIds(ReadUpTo(files, n), ids)
  {
    if n > 0 {
      PruneFiltersRead(files, ids, n - 1);
      WithoutAppend(ReadUpTo(files, n - 1), FileAt(files, n - 1), ids);
      assert FileAt(PrunedFiles(files, ids), n - 1) == WithoutIds(FileAt(files, n - 1), ids);
    }
  }

  lemma {:induction false} WithoutAppend(a: seq<Entry>, b: seq<Entry>, ids: set<string>)
    ensures WithoutIds(a + b, ids) == WithoutIds(a, ids) + WithoutIds(b, ids)
  {
    if b == [] {
      assert a + b == a;
    } else {
      var front, last := PopAppend(a, b);
      WithoutAppend(a, front, ids);
    }
  }

  lemma GroupedFile(entries: seq<Entry>, month: nat)
    ensures FileAt(Grouped(entries), month) == OfMonth(entries, month)
  {
    if month !in Months(entries) {
      NoneOfMonth(entries, month);
    }
  }

  /** What the files of the first `n` months hold, in whatever order. */
  function Held(files: Files, n: nat): multiset<Entry> {
    if n == 0 then multiset{} else Held(files, n - 1) + multiset(FileAt(files, n - 1))
  }

  lemma {:induction false} ReadIsHeld(files: Files, n: nat)
    ensures multiset(ReadUpTo(files, n)) == Held(files, n)
  {
    if n > 0 {
      ReadIsHeld(files, n - 1);
    }
  }

  lemma BagPush<T>(a: multiset<T>, b: multiset<T>, x: T)
    ensures a + multiset{x} + b == a + b + multiset{x} && a + (b + multiset{x}) == a + b + multiset{x}
  {
  }

  lemma {:induction false} SameFilesHoldSame(files: Files, files': Files, n: nat)
    requires forall month: nat :: month < n ==> FileAt(files', month) == FileAt(files, month)
    ensures Held(files', n) == Held(files, n)
  {
    if n > 0 {
      SameFilesHoldSame(files, files', n - 1);
    }
  }

  /** Appending an entry to one file adds it to what the files hold. */
  lemma {:induction false} PushIsHeld(files: Files, files': Files, last: Entry, own: nat, n: nat)
    requires own < n && FileAt(files', own) == FileAt(files, own) + [last]
    requires forall month: nat :: month != own ==> FileAt(files', month) == FileAt(files, month)
    ensures Held(files', n) == Held(files, n) + multiset{last}
  {
    BagPush(Held(files, n - 1), multiset(FileAt(files, n - 1)), last);
    if own == n - 1 {
      SameFilesHoldSame(files, files', n - 1);
    } else {
      PushIsHeld(files, files', last, own, n - 1);
    }
  }

  lemma {:induction false} NothingHeld(n: nat)
    ensures Held(map[], n) == multiset{}
  {
    if n > 0 {
      NothingHeld(n - 1);
    }
  }

  lemma {:induction false} GroupedHolds(entries: seq<Entry>, n: nat)
    requires WithinMonths(entries, n)
    ensures Held(Grouped(entries), n) == multiset(entries)
  {
    if entries == [] {
      NothingHeld(n);
    } else {
      var front, last := PopEntry(entries);
      GroupedHolds(front, n);
      GroupedPush(front, last);
      PushIsHeld(Grouped(front), Grouped(entries), last, last.timestamp.month, n);
    }
  }

  /** A write adds exactly its entry to what a full read delivers, and puts it last in its month. */
  lemma WriteThenRead(files: Files, months: nat, e: Entry)
    requires Filed(files, months) && e.timestamp.month < months
    ensures var own := e.timestamp.month;
            var files' := files[own := FileAt(files, own) + [e]];
            && multiset(ReadUpTo(files', months)) == multiset(ReadUpTo(files, months)) + multiset{e}
            && OfMonth(ReadUpTo(files', months), own) == OfMonth(ReadUpTo(files, months), own) + [e]
  {
    var own := e.timestamp.month;
    var files' := files[own := FileAt(files, own) + [e]];
    PushIsHeld(files, files', e, own, months);
    ReadIsHeld(files, months);
    ReadIsHeld(files', months);
    ReadOfMonth(files, months, months, own);
    ReadOfMonth(files', months, months, own);
  }

  /** What is written is the given entry, completed by an id and a time where it has none. */
  lemma WrittenEntryIsCompleted(entry: Entry, now: Stamp, newId: string)
    ensures var e := Prepared(entry, now, newId);
            && e.content == entry.content && e.salience == entry.salience && e.source == entry.source
            && e.tags == entry.tags && e.layer == "working"
            && (entry.id != "" ==> e.id == entry.id) && (entry.id == "" ==> e.id == newId)
            && (entry.timestamp.ns != 0 ==> e.timestamp == entry.timestamp)
            && (entry.timestamp.ns == 0 ==> e.timestamp == now)
  {
  }

  predicate InMonthOrder(entries: seq<Entry>) {
    forall i, j :: 0 <= i < j < |entries| ==> entries[i].timestamp.month <= entries[j].timestamp.month
  }

  lemma LaterMonthBehind(before: seq<Entry>, file: seq<Entry>, month: nat)
    requires InMonthOrder(before) && WithinMonths(before, month) && OwnMonth(file, month)
    ensures InMonthOrder(before + file) && WithinMonths(before + file, month + 1)
  {
    var all := before + file;
    forall i | 0 <= i < |all|
      ensures if i < |before| then all[i] == before[i] && all[i].timestamp.month < month else all[i].timestamp.month == month
    {
      if i < |before| {
        assert before[i] in before;
      } else {
        assert file[i - |before|] in file;
      }
    }
  }

  /** A full read delivers the months in order. */
  lemma {:induction false} ReadIsInMonthOrder(files: Files, months: nat, n: nat)
    requires Filed(files, months)
    ensures InMonthOrder(ReadUpTo(files, n)) && WithinMonths(ReadUpTo(files, n), n)
  {
    if n > 0 {
      ReadIsInMonthOrder(files, months, n - 1);
      LaterMonthBehind(ReadUpTo(files, n - 1), FileAt(files, n - 1), n - 1);
    }
  }

  /** Reading after Replace gives back the same entries, those of one month in their given order. */
  lemma ReplaceThenRead(entries: seq<Entry>, months: nat, month: nat)
    requires WithinMonths(entries, months)
    ensures multiset(ReadUpTo(Grouped(entries), months)) == multiset(entries)
    ensures OfMonth(ReadUpTo(Grouped(entries), months), month) == OfMonth(entries, month)
  {
    GroupedHolds(entries, months);
    ReadIsHeld(Grouped(entries), months);
    GroupedIsFiled(entries, months);
    ReadOfMonth(Grouped(entries), months, months, month);
    GroupedFile(entries, month);
    if month >= months {
      NoneOfMonth(entries, month);
    }
  }

  /** Replacing by what a full read delivers changes no file, once no file is empty. */
  lemma ReadThenReplace(files: Files, months: nat)
    requires Filed(files, months) && forall month <- files :: files[month] != []
    ensures Grouped(ReadUpTo(files, months)) == files
  {
    var all := ReadUpTo(files, months);
    forall month ensures OfMonth(all, month) == FileAt(files, month) && (month in Months(all) <==> month in files) {
      ReadOfMonth(files, months, months, month);
      OfMonthMembers(all, month);
      if month in files {
        assert files[month][0] in OfMonth(all, month);
      }
      if month in Months(all) {
        var e :| e in all && e.timestamp.month == month;
        assert e in OfMonth(all, month);
      }
    }
  }
}
