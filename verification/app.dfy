/**
 * The application's store: the list of readings (kept newest first), the list of saved
 * analyses (newest first), and which dialog is open. Each handler replaces the lists;
 * the browser's confirmation dialog is the boolean `confirmed`.
 */
module App {
  import opened Wrappers
  import opened Types

  // ---------------------------------------------------------------------------
  // Order and list operations
  // ---------------------------------------------------------------------------

  function Time(r: BPRecord): int {
    r.timestamp.millis
  }

  /** Non-increasing in time: the order the comparator `b - a` puts the list in. */
  predicate SortedNewestFirst(s: seq<BPRecord>) {
    forall i, j :: 0 <= i < j < |s| ==> Time(s[i]) >= Time(s[j])
  }

  /** Some reading in `s` carries the id. */
  predicate HasId(s: seq<BPRecord>, id: string) {
    exists i :: 0 <= i < |s| && s[i].id == id
  }

  /** Every reading carrying the new reading's id is replaced by it, in place; the others stay. */
  function ReplaceById(s: seq<BPRecord>, record: BPRecord): (t: seq<BPRecord>)
    ensures |t| == |s|
    ensures forall i :: 0 <= i < |s| ==> t[i] == if s[i].id == record.id then record else s[i]
  {
    if s == [] then []
    else [if s[0].id == record.id then record else s[0]] + ReplaceById(s[1..], record)
  }

  /**
   * The list `saveRecord` hands to the sort: with the id present, every record carrying it
   * becomes `record` and the length stays; otherwise `record` goes in front. Either way
   * `record` is in the list, it is the only record with its id, every record with another id
   * stays (in place, when the id is present), and nothing else comes in.
   */
  function Upsert(prev: seq<BPRecord>, record: BPRecord): (next: seq<BPRecord>)
    ensures HasId(prev, record.id) ==> next == ReplaceById(prev, record)
    ensures HasId(prev, record.id) ==> |next| == |prev|
    ensures !HasId(prev, record.id) ==> |next| == |prev| + 1 && next[0] == record && next[1..] == prev
    ensures record in next
    ensures forall x :: x in next && x.id == record.id ==> x == record
    ensures forall x :: x in prev && x.id != record.id ==> x in next
    ensures forall x :: x in next ==> x == record || x in prev
  {
    if HasId(prev, record.id) then
      ReplaceFacts(prev, record);
      ReplaceById(prev, record)
    else
      PrependFacts(prev, record);
      [record] + prev
  }

  lemma ReplaceFacts(prev: seq<BPRecord>, record: BPRecord)
    requires HasId(prev, record.id)
    ensures record in ReplaceById(prev, record)
    ensures forall x :: x in ReplaceById(prev, record) && x.id == record.id ==> x == record
    ensures forall x :: x in prev && x.id != record.id ==> x in ReplaceById(prev, record)
    ensures forall x :: x in ReplaceById(prev, record) ==> x == record || x in prev
  {
    var next := ReplaceById(prev, record);
    var i :| 0 <= i < |prev| && prev[i].id == record.id;
    assert next[i] == record;
    forall x | x in prev && x.id != record.id ensures x in next {
      var k :| 0 <= k < |prev| && prev[k] == x;
      assert next[k] == x;
    }
  }

  /** Upserting leaves the number of occurrences of every record with another id unchanged. */
  lemma UpsertKeepsCounts(prev: seq<BPRecord>, record: BPRecord, x: BPRecord)
    requires x.id != record.id
    ensures multiset(Upsert(prev, record))[x] == multiset(prev)[x]
  {
    if HasId(prev, record.id) {
      ReplaceKeepsOthers(prev, record, x);
    } else {
      assert multiset([record] + prev) == multiset{record} + multiset(prev);
    }
  }

  /** Replacing by id leaves the count of every record with another id unchanged. */
  lemma {:induction false} ReplaceKeepsOthers(s: seq<BPRecord>, record: BPRecord, x: BPRecord)
    requires x.id != record.id
    ensures multiset(ReplaceById(s, record))[x] == multiset(s)[x]
    decreases |s|
  {
    if s != [] {
      ReplaceKeepsOthers(s[1..], record, x);
      var h := if s[0].id == record.id then record else s[0];
      assert s == [s[0]] + s[1..];
      assert multiset(s) == multiset{s[0]} + multiset(s[1..]);
      assert ReplaceById(s, record) == [h] + ReplaceById(s[1..], record);
      assert multiset(ReplaceById(s, record)) == multiset{h} + multiset(ReplaceById(s[1..], record));
      assert multiset{h}[x] == multiset{s[0]}[x];
    }
  }

  lemma PrependFacts(prev: seq<BPRecord>, record: BPRecord)
    requires !HasId(prev, record.id)
    ensures forall x :: x in [record] + prev && x.id == record.id ==> x == record
  {
    forall x | x in [record] + prev && x.id == record.id ensures x == record {
      assert x == record || x in prev;
    }
  }

  /** The entries whose key differs from `id`, in their order. */
  function RemoveById<T>(s: seq<T>, key: T -> string, id: string): (out: seq<T>)
    ensures |out| <= |s|
    ensures forall x :: x in out ==> x in s && key(x) != id
    ensures forall x :: x in s && key(x) != id ==> x in out
    ensures (forall i :: 0 <= i < |s| ==> key(s[i]) != id) ==> out == s
  {
    if s == [] then []
    else if key(s[0]) == id then RemoveById(s[1..], key, id)
    else [s[0]] + RemoveById(s[1..], key, id)
  }

  /** Filtering works piece by piece, so what is kept stays in its order. */
  lemma {:induction false} RemoveByIdConcat<T>(a: seq<T>, b: seq<T>, key: T -> string, id: string)
    ensures RemoveById(a + b, key, id) == RemoveById(a, key, id) + RemoveById(b, key, id)
    decreases |a|
  {
    if a == [] {
      assert a + b == b;
    } else {
      assert (a + b)[1..] == a[1..] + b;
      RemoveByIdConcat(a[1..], b, key, id);
    }
  }

  /** Putting a record in front of a newest-first list that holds nothing newer keeps it newest first. */
  lemma ConsNewestFirst(x: BPRecord, t: seq<BPRecord>)
    requires SortedNewestFirst(t)
    requires forall y :: y in t ==> Time(x) >= Time(y)
    ensures SortedNewestFirst([x] + t)
  {
    var out := [x] + t;
    forall i, j | 0 <= i < j < |out| ensures Time(out[i]) >= Time(out[j]) {
      if i == 0 {
        assert out[j] == t[j - 1];
      } else {
        assert out[i] == t[i - 1] && out[j] == t[j - 1];
      }
    }
  }

  /** Removing records from a list that is newest first leaves it newest first. */
  lemma {:induction false} RemovePreservesOrder(s: seq<BPRecord>, id: string)
    requires SortedNewestFirst(s)
    ensures SortedNewestFirst(RemoveById(s, RecordKey, id))
    decreases |s|
  {
    if s != [] {
      RemovePreservesOrder(s[1..], id);
      var rest := RemoveById(s[1..], RecordKey, id);
      if s[0].id != id {
        forall y | y in rest ensures Time(s[0]) >= Time(y) {
          assert y in s[1..];
          var k :| 0 <= k < |s[1..]| && s[1..][k] == y;
          assert s[k + 1] == y;
        }
        ConsNewestFirst(s[0], rest);
      }
    }
  }

  function RecordKey(r: BPRecord): string {
    r.id
  }

  function ReportKey(r: AIReport): string {
    r.id
  }

  // ---------------------------------------------------------------------------
  // The in-place sort
  // ---------------------------------------------------------------------------

  /** The first `n` entries are newest first. */
  predicate SortedPrefix(s: seq<BPRecord>, n: int)
    requires 0 <= n <= |s|
  {
    forall p, q :: 0 <= p < q < n ==> Time(s[p]) >= Time(s[q])
  }

  /**
   * The descending sort by time that `saveRecord` and `addBulkRecords` apply, modelled by an
   * insertion sort on a fresh array; the sort is stable, so any stable sort gives the same list.
   */
  method SortNewestFirst(a: array<BPRecord>)
    modifies a
    ensures SortedNewestFirst(a[..])
    ensures multiset(a[..]) == multiset(old(a[..]))
  {
    var i := 0;
    while i < a.Length
      invariant 0 <= i <= a.Length
      invariant SortedPrefix(a[..], i)
      invariant multiset(a[..]) == multiset(old(a[..]))
    {
      InsertNext(a, i);
      i := i + 1;
    }
  }

  /**
   * While entry `j` moves down: the first `i + 1` entries are newest first except where entry
   * `j` is the later one of a pair.
   */
  predicate Sinking(s: seq<BPRecord>, i: int, j: int)
    requires 0 <= j <= i < |s|
  {
    forall p, q :: 0 <= p < q <= i && q != j ==> Time(s[p]) >= Time(s[q])
  }

  lemma SinkStart(s: seq<BPRecord>, i: int)
    requires 0 <= i < |s| && SortedPrefix(s, i)
    ensures Sinking(s, i, i)
  {
  }

  /** Swapping the moving entry with an older one before it keeps the shape, one place lower. */
  lemma SinkSwap(s: seq<BPRecord>, i: int, j: int)
    requires 0 < j <= i < |s| && Sinking(s, i, j) && Time(s[j - 1]) < Time(s[j])
    ensures Sinking(s[j - 1 := s[j]][j := s[j - 1]], i, j - 1)
    ensures multiset(s[j - 1 := s[j]][j := s[j - 1]]) == multiset(s)
  {
    var t := s[j - 1 := s[j]][j := s[j - 1]];
    forall p, q | 0 <= p < q <= i && q != j - 1 ensures Time(t[p]) >= Time(t[q]) {
      if q == j {
        assert t[q] == s[j - 1];
        if p < j - 1 {
          assert t[p] == s[p];
        }
      } else if p == j - 1 {
        assert t[p] == s[j] && t[q] == s[q];
      } else if p == j {
        assert t[p] == s[j - 1] && t[q] == s[q];
      }
    }
  }

  lemma SinkStop(s: seq<BPRecord>, i: int, j: int)
    requires 0 <= j <= i < |s| && Sinking(s, i, j)
    requires j == 0 || Time(s[j - 1]) >= Time(s[j])
    ensures SortedPrefix(s, i + 1)
  {
    forall p, q | 0 <= p < q <= i ensures Time(s[p]) >= Time(s[q]) {
      if q == j && p < j - 1 {
        assert Time(s[p]) >= Time(s[j - 1]);
      }
    }
  }

  /**
   * One step of the sort: the entry at `i` moves down past every older entry before it (never
   * past one of equal time), so the first `i + 1` entries are newest first.
   */
  method InsertNext(a: array<BPRecord>, i: int)
    requires 0 <= i < a.Length
    requires SortedPrefix(a[..], i)
    modifies a
    ensures SortedPrefix(a[..], i + 1)
    ensures multiset(a[..]) == multiset(old(a[..]))
  {
    SinkStart(a[..], i);
    var j := i;
    while j > 0 && Time(a[j - 1]) < Time(a[j])
      invariant 0 <= j <= i
      invariant Sinking(a[..], i, j)
      invariant multiset(a[..]) == multiset(old(a[..]))
    {
      ghost var before := a[..];
      a[j - 1], a[j] := a[j], a[j - 1];
      assert a[..] == before[j - 1 := before[j]][j := before[j - 1]];
      SinkSwap(before, i, j);
      j := j - 1;
    }
    SinkStop(a[..], i, j);
  }

  // ---------------------------------------------------------------------------
  // The store
  // ---------------------------------------------------------------------------

  class Store {
    var records: seq<BPRecord>
    var reports: seq<AIReport>
    var isFormOpen: bool
    var editingRecord: Option<BPRecord>
    var isBulkImportOpen: bool

    /** The readings are always newest first. */
    ghost predicate Valid()
      reads this
    {
      SortedNewestFirst(records)
    }

    constructor ()
      ensures Valid()
      ensures records == [] && reports == []
      ensures !isFormOpen && editingRecord == None && !isBulkImportOpen
    {
      records := [];
      reports := [];
      isFormOpen := false;
      editingRecord := None;
      isBulkImportOpen := false;
    }

    /** Sorts a fresh copy of `next` and makes it the reading list. */
    method SetSorted(next: seq<BPRecord>)
      modifies this`records
      ensures SortedNewestFirst(records)
      ensures multiset(records) == multiset(next)
    {
      var a := new BPRecord[|next|](i requires 0 <= i < |next| => next[i]);
      assert a[..] == next;
      SortNewestFirst(a);
      records := a[..];
    }

    /**
     * `saveRecord`: upsert by id, sort newest first, close the form. The readings are a
     * permutation of `Upsert(old(records), record)`; the reports do not change.
     */
    method SaveRecord(record: BPRecord)
      requires Valid()
      modifies this
      ensures Valid()
      ensures multiset(records) == multiset(Upsert(old(records), record))
      ensures reports == old(reports) && isBulkImportOpen == old(isBulkImportOpen)
      ensures !isFormOpen && editingRecord == None
    {
      var next := Upsert(records, record);
      SetSorted(next);
      isFormOpen := false;
      editingRecord := None;
    }

    /** `handleEditRequest`: open the form on the record. */
    method HandleEditRequest(record: BPRecord)
      requires Valid()
      modifies this
      ensures Valid()
      ensures editingRecord == Some(record) && isFormOpen
      ensures records == old(records) && reports == old(reports) && isBulkImportOpen == old(isBulkImportOpen)
    {
      editingRecord := Some(record);
      isFormOpen := true;
    }

    /** The "manual entry" button: open an empty form. */
    method OpenNewEntry()
      requires Valid()
      modifies this
      ensures Valid()
      ensures editingRecord == None && isFormOpen
      ensures records == old(records) && reports == old(reports) && isBulkImportOpen == old(isBulkImportOpen)
    {
      editingRecord := None;
      isFormOpen := true;
    }

    /** The form's close button. */
    method CloseForm()
      requires Valid()
      modifies this
      ensures Valid()
      ensures editingRecord == None && !isFormOpen
      ensures records == old(records) && reports == old(reports) && isBulkImportOpen == old(isBulkImportOpen)
    {
      isFormOpen := false;
      editingRecord := None;
    }

    /** The "bulk import" buttons (`open` true) and the import dialog's close button (`open` false). */
    method SetBulkImportOpen(open: bool)
      requires Valid()
      modifies this
      ensures Valid()
      ensures isBulkImportOpen == open
      ensures records == old(records) && reports == old(reports)
      ensures isFormOpen == old(isFormOpen) && editingRecord == old(editingRecord)
    {
      isBulkImportOpen := open;
    }

    /**
     * `addBulkRecords`: the batch goes in front of the list, with no check of ids, and the
     * whole is sorted newest first; the import dialog closes.
     */
    method AddBulkRecords(batch: seq<BPRecord>)
      requires Valid()
      modifies this
      ensures Valid()
      ensures multiset(records) == multiset(batch + old(records))
      ensures |records| == |batch| + |old(records)|
      ensures reports == old(reports) && isFormOpen == old(isFormOpen) && editingRecord == old(editingRecord)
      ensures !isBulkImportOpen
    {
      SetSorted(batch + records);
      assert |records| == |multiset(records)|;
      isBulkImportOpen := false;
    }

    /** `deleteRecord`: when confirmed, every reading with the id goes and the rest keep their order. */
    method DeleteRecord(id: string, confirmed: bool)
      requires Valid()
      modifies this
      ensures Valid()
      ensures records == if confirmed then RemoveById(old(records), RecordKey, id) else old(records)
      ensures reports == old(reports) && isBulkImportOpen == old(isBulkImportOpen)
      ensures isFormOpen == old(isFormOpen) && editingRecord == old(editingRecord)
    {
      if confirmed {
        RemovePreservesOrder(records, id);
        records := RemoveById(records, RecordKey, id);
      }
    }

    /** `saveAIReport`: the report goes in front; nothing else changes. */
    method SaveAIReport(report: AIReport)
      requires Valid()
      modifies this
      ensures Valid()
      ensures reports == [report] + old(reports)
      ensures records == old(records) && isBulkImportOpen == old(isBulkImportOpen)
      ensures isFormOpen == old(isFormOpen) && editingRecord == old(editingRecord)
    {
      reports := [report] + reports;
    }

    /** `deleteAIReport`: when confirmed, every report with the id goes. */
    method DeleteAIReport(id: string, confirmed: bool)
      requires Valid()
      modifies this
      ensures Valid()
      ensures reports == if confirmed then RemoveById(old(reports), ReportKey, id) else old(reports)
      ensures records == old(records) && isBulkImportOpen == old(isBulkImportOpen)
      ensures isFormOpen == old(isFormOpen) && editingRecord == old(editingRecord)
    {
      if confirmed {
        reports := RemoveById(reports, ReportKey, id);
      }
    }
  }

  /**
   * Editing replaces rather than merges: after saving `r` and then `r2` with the same id,
   * `r2` is stored and `r` is gone.
   */
  method SaveTwiceKeepsLatest(store: Store, r: BPRecord, r2: BPRecord)
    requires store.Valid() && r2.id == r.id && r2 != r
    modifies store
    ensures store.Valid()
    ensures r2 in store.records && r !in store.records
  {
    store.SaveRecord(r);
    store.SaveRecord(r2);
    assert r2 in multiset(store.records);
    assert r !in multiset(store.records);
  }
}
