/**
 * The trend chart's data: the records whose calendar date lies in the chosen range,
 * oldest first. The date range is two `YYYY-MM-DD` strings compared as strings.
 */
module BPChart {
  import opened Types
  import opened Strings

  /** The date part of a timestamp text: the text before the first 'T', or all of it when there is none. */
  function DatePrefix(text: string): (d: string)
    ensures |d| <= |text| && d == text[..|d|]
    ensures forall i :: 0 <= i < |d| ==> d[i] != 'T'
    ensures |d| < |text| ==> text[|d|] == 'T'
  {
    if text == [] || text[0] == 'T' then [] else [text[0]] + DatePrefix(text[1..])
  }

  function RecordDate(r: BPRecord): string {
    DatePrefix(r.timestamp.text)
  }

  /** The record's date is at least the start date and at most the end date, both compared as strings. */
  predicate InRange(r: BPRecord, start: string, end: string) {
    LexLe(start, RecordDate(r)) && LexLe(RecordDate(r), end)
  }

  /** A range of one day holds exactly the records of that day. */
  lemma OneDayRange(r: BPRecord, day: string)
    ensures InRange(r, day, day) <==> RecordDate(r) == day
  {
    if InRange(r, day, day) {
      LexLeAntisymmetric(day, RecordDate(r));
    } else {
      LexLeReflexive(day);
    }
  }

  /** The records in range, in their given order. */
  function FilterRange(records: seq<BPRecord>, start: string, end: string): (out: seq<BPRecord>)
    ensures |out| <= |records|
    ensures forall r :: r in out <==> r in records && InRange(r, start, end)
    ensures forall i :: 0 <= i < |out| ==> InRange(out[i], start, end)
    ensures forall r :: multiset(out)[r] == if InRange(r, start, end) then multiset(records)[r] else 0
  {
    if records == [] then []
    else
      assert records == [records[0]] + records[1..];
      if InRange(records[0], start, end) then [records[0]] + FilterRange(records[1..], start, end)
      else FilterRange(records[1..], start, end)
  }

  predicate SortedOldestFirst(s: seq<BPRecord>) {
    forall i, j :: 0 <= i < j < |s| ==> s[i].timestamp.millis <= s[j].timestamp.millis
  }

  /** A record no newer than the head of an oldest-first list can go in front of it. */
  lemma ConsOldestFirst(x: BPRecord, t: seq<BPRecord>)
    requires SortedOldestFirst(t)
    requires t == [] || x.timestamp.millis <= t[0].timestamp.millis
    ensures SortedOldestFirst([x] + t)
  {
    var out := [x] + t;
    forall i, j | 0 <= i < j < |out| ensures out[i].timestamp.millis <= out[j].timestamp.millis {
      assert out[j] == t[j - 1];
      if i > 0 {
        assert out[i] == t[i - 1];
      } else {
        assert t[0].timestamp.millis <= t[j - 1].timestamp.millis;
      }
    }
  }

  /** Puts `r` before the first record that is not older than it, so equal times keep their order. */
  function InsertByTime(r: BPRecord, s: seq<BPRecord>): (t: seq<BPRecord>)
    requires SortedOldestFirst(s)
    ensures SortedOldestFirst(t)
    ensures multiset(t) == multiset(s) + multiset{r}
    ensures |t| == |s| + 1 && (t[0] == r || (s != [] && t[0] == s[0]))
  {
    if s == [] || r.timestamp.millis <= s[0].timestamp.millis then
      ConsOldestFirst(r, s);
      [r] + s
    else
      var rest := InsertByTime(r, s[1..]);
      assert s == [s[0]] + s[1..];
      ConsOldestFirst(s[0], rest);
      [s[0]] + rest
  }

  /**
   * The ascending sort by time, modelled by an insertion sort; the sort is stable, so any
   * stable sort gives the same list.
   */
  function SortOldestFirst(s: seq<BPRecord>): (t: seq<BPRecord>)
    ensures SortedOldestFirst(t)
    ensures multiset(t) == multiset(s)
  {
    if s == [] then []
    else
      assert s == [s[0]] + s[1..];
      InsertByTime(s[0], SortOldestFirst(s[1..]))
  }

  /**
   * The chart's points: exactly the in-range records (each as often as it occurs in the
   * list), never more than the list holds, ordered oldest first.
   */
  function FilteredData(records: seq<BPRecord>, start: string, end: string): (out: seq<BPRecord>)
    ensures multiset(out) == multiset(FilterRange(records, start, end))
    ensures forall r :: r in out <==> r in records && InRange(r, start, end)
    ensures |out| <= |records|
    ensures SortedOldestFirst(out)
  {
    var kept := FilterRange(records, start, end);
    var out := SortOldestFirst(kept);
    assert |out| == |multiset(out)| == |kept|;
    assert forall r :: r in out <==> r in kept by {
      forall r ensures r in out <==> r in kept {
        assert r in out <==> r in multiset(out);
        assert r in kept <==> r in multiset(kept);
      }
    }
    out
  }

  /** When the start date is after the end date no record can be in range. */
  lemma EmptyWhenStartAfterEnd(records: seq<BPRecord>, start: string, end: string)
    requires !LexLe(start, end)
    ensures FilteredData(records, start, end) == []
  {
    var out := FilteredData(records, start, end);
    if out != [] {
      assert out[0] in out;
      LexLeTransitive(start, RecordDate(out[0]), end);
      assert false;
    }
  }

  /** What the chart area shows: a "no data" panel, or a plot of the given points (possibly none). */
  datatype ChartView = NoData | Plot(points: seq<BPRecord>)

  /**
   * An empty record list shows the "no data" panel; any other list shows a plot, even when
   * the range leaves no point in it, so the two situations look different.
   */
  function Render(records: seq<BPRecord>, start: string, end: string): (v: ChartView)
    ensures v.NoData? <==> records == []
    ensures v.Plot? ==> v.points == FilteredData(records, start, end)
  {
    if records == [] then NoData else Plot(FilteredData(records, start, end))
  }

  // ---------------------------------------------------------------------------
  // The chart against the store's order
  // ---------------------------------------------------------------------------

  function Reverse(s: seq<BPRecord>): (r: seq<BPRecord>)
    ensures |r| == |s|
    ensures forall i :: 0 <= i < |s| ==> r[i] == s[|s| - 1 - i]
    ensures multiset(r) == multiset(s)
  {
    if s == [] then []
    else
      assert s == [s[0]] + s[1..];
      Reverse(s[1..]) + [s[0]]
  }

  predicate StrictlyNewestFirst(s: seq<BPRecord>) {
    forall i, j :: 0 <= i < j < |s| ==> s[i].timestamp.millis > s[j].timestamp.millis
  }

  predicate StrictlyOldestFirst(s: seq<BPRecord>) {
    forall i, j :: 0 <= i < j < |s| ==> s[i].timestamp.millis < s[j].timestamp.millis
  }

  lemma SameHead(a: seq<BPRecord>, b: seq<BPRecord>)
    requires SortedOldestFirst(a) && StrictlyOldestFirst(b)
    requires multiset(a) == multiset(b) && a != []
    ensures b != [] && a[0] == b[0]
  {
    assert a[0] in multiset(b);
    var k :| 0 <= k < |b| && b[k] == a[0];
    assert b[0] in multiset(a);
    var m :| 0 <= m < |a| && a[m] == b[0];
    assert a[0].timestamp.millis <= a[m].timestamp.millis;
  }

  lemma SameTail(a: seq<BPRecord>, b: seq<BPRecord>)
    requires a != [] && b != [] && a[0] == b[0] && multiset(a) == multiset(b)
    ensures multiset(a[1..]) == multiset(b[1..])
  {
    assert a == [a[0]] + a[1..] && b == [b[0]] + b[1..];
    assert multiset(a) == multiset{a[0]} + multiset(a[1..]);
    assert multiset(b) == multiset{b[0]} + multiset(b[1..]);
    assert multiset(a[1..]) == multiset(a) - multiset{a[0]};
    assert multiset(b[1..]) == multiset(b) - multiset{b[0]};
  }

  /** A list ordered by time and a list strictly ordered by time that hold the same records are the same list. */
  lemma {:induction false} StrictOrderUnique(a: seq<BPRecord>, b: seq<BPRecord>)
    requires SortedOldestFirst(a) && StrictlyOldestFirst(b)
    requires multiset(a) == multiset(b)
    ensures a == b
    decreases |a|
  {
    if a == [] {
      assert |b| == |multiset(b)| == 0;
    } else {
      SameHead(a, b);
      SameTail(a, b);
      StrictOrderUnique(a[1..], b[1..]);
      assert a == [a[0]] + a[1..] && b == [b[0]] + b[1..];
    }
  }

  /** Putting a record in front of a strictly newest-first list of older records keeps it strictly newest first. */
  lemma ConsStrict(x: BPRecord, t: seq<BPRecord>)
    requires StrictlyNewestFirst(t)
    requires forall y :: y in t ==> x.timestamp.millis > y.timestamp.millis
    ensures StrictlyNewestFirst([x] + t)
  {
    var out := [x] + t;
    forall i, j | 0 <= i < j < |out| ensures out[i].timestamp.millis > out[j].timestamp.millis {
      assert out[j] == t[j - 1];
      if i > 0 {
        assert out[i] == t[i - 1];
      }
    }
  }

  lemma {:induction false} FilterKeepsStrictOrder(records: seq<BPRecord>, start: string, end: string)
    requires StrictlyNewestFirst(records)
    ensures StrictlyNewestFirst(FilterRange(records, start, end))
    decreases |records|
  {
    if records != [] {
      var tail := records[1..];
      assert StrictlyNewestFirst(tail);
      FilterKeepsStrictOrder(tail, start, end);
      var rest := FilterRange(tail, start, end);
      if InRange(records[0], start, end) {
        forall y | y in rest ensures records[0].timestamp.millis > y.timestamp.millis {
          var k :| 0 <= k < |tail| && tail[k] == y;
          assert records[k + 1] == y;
        }
        ConsStrict(records[0], rest);
      }
    }
  }

  /**
   * When the store's readings have distinct times, the chart shows the in-range readings in
   * exactly the reverse of the store's newest-first order.
   */
  lemma ChartReversesStore(records: seq<BPRecord>, start: string, end: string)
    requires StrictlyNewestFirst(records)
    ensures FilteredData(records, start, end) == Reverse(FilterRange(records, start, end))
  {
    var kept := FilterRange(records, start, end);
    FilterKeepsStrictOrder(records, start, end);
    var rev := Reverse(kept);
    assert StrictlyOldestFirst(rev);
    StrictOrderUnique(FilteredData(records, start, end), rev);
  }
}
