/** The month bookkeeping of the histogram timeline (frontend/src/histTimeline.js):
    the distinct `"<year>-<month>"` keys of the records' discovery dates, with a
    zero-based month, and the number of bins, a quarter of that count rounded up.
    The binning itself is d3's `bin` and is not part of this model. */
module HistTimeline {
  import opened PrepareFiresData
  import opened MonthKeys
  import opened Wrappers

  /** `${year}-${month}` of a record's discovery date; the month is `getMonth()`, 0 for January. */
  function DateKey(r: Record): (key: string)
    requires HasDiscoveryDate(r)
    ensures ParseMonthKey(key) == Some((Get(r, DiscoveryDate).date.fullYear, Get(r, DiscoveryDate).date.month))
  {
    var d := Get(r, DiscoveryDate).date;
    MonthKeyRoundTrip(d.fullYear, d.month);
    MonthKey(d.fullYear, d.month)
  }

  /** `data.map(...)` producing one key per record. */
  function Keys(data: seq<Record>): (keys: seq<string>)
    requires forall i :: 0 <= i < |data| ==> HasDiscoveryDate(data[i])
    ensures |keys| == |data|
    ensures forall i :: 0 <= i < |data| ==> keys[i] == DateKey(data[i])
  {
    seq(|data|, i requires 0 <= i < |data| => DateKey(data[i]))
  }

  predicate NoDuplicates<T(==)>(s: seq<T>)
  {
    forall i, j :: 0 <= i < j < |s| ==> s[i] != s[j]
  }

  /** `Array.from(new Set(s))`: a `Set` keeps its elements in insertion order and
      ignores an element it already holds. */
  function Distinct<T(==)>(s: seq<T>): (r: seq<T>)
    ensures NoDuplicates(r)
    ensures forall i :: 0 <= i < |r| ==> r[i] in s
    ensures forall i :: 0 <= i < |s| ==> s[i] in r
  {
    if s == [] then []
    else
      var d := Distinct(s[..|s| - 1]);
      if s[|s| - 1] in d then d else d + [s[|s| - 1]]
  }

  /** Position of the first occurrence of `x` in `s`. */
  function FirstIndex<T(==)>(s: seq<T>, x: T): (k: nat)
    requires x in s
    ensures k < |s| && s[k] == x
    ensures forall i :: 0 <= i < k ==> s[i] != x
  {
    if s[0] == x then 0 else 1 + FirstIndex(s[1..], x)
  }

  /** The entries of `Distinct(s)` are ordered by where each first occurs in `s`. */
  lemma {:induction false} DistinctFirstOccurrenceOrder<T>(s: seq<T>)
    ensures forall i, j :: 0 <= i < j < |Distinct(s)| ==>
      FirstIndex(s, Distinct(s)[i]) < FirstIndex(s, Distinct(s)[j])
  {
    if s != [] {
      var s' := s[..|s| - 1];
      var x := s[|s| - 1];
      var d := Distinct(s');
      var r := Distinct(s);
      DistinctFirstOccurrenceOrder(s');
      forall i, j | 0 <= i < j < |r|
        ensures FirstIndex(s, r[i]) < FirstIndex(s, r[j])
      {
        FirstIndexInPrefix(s, r[i]);
        if j < |d| {
          FirstIndexInPrefix(s, r[j]);
        } else {
          assert r[j] == x && x !in s';
          assert FirstIndex(s, x) == |s| - 1;
        }
      }
    }
  }

  /** An element of all but the last entry is first found there. */
  lemma {:induction false} FirstIndexInPrefix<T>(s: seq<T>, y: T)
    requires s != [] && y in s[..|s| - 1]
    ensures FirstIndex(s, y) == FirstIndex(s[..|s| - 1], y) < |s| - 1
  {
    var s' := s[..|s| - 1];
    var a, b := FirstIndex(s, y), FirstIndex(s', y);
    assert s[b] == s'[b] == y;
  }

  /** The histogram's `distinctDates`. */
  function DistinctDates(data: seq<Record>): seq<string>
    requires forall i :: 0 <= i < |data| ==> HasDiscoveryDate(data[i])
  {
    Distinct(Keys(data))
  }

  /** Every record's key is listed once, and every listed key is some record's key. */
  lemma DistinctDatesComplete(data: seq<Record>)
    requires forall i :: 0 <= i < |data| ==> HasDiscoveryDate(data[i])
    ensures NoDuplicates(DistinctDates(data))
    ensures forall i :: 0 <= i < |data| ==> DateKey(data[i]) in DistinctDates(data)
    ensures forall k :: k in DistinctDates(data) ==> exists i :: 0 <= i < |data| && DateKey(data[i]) == k
  {
    var keys := Keys(data);
    forall i | 0 <= i < |data| ensures DateKey(data[i]) in DistinctDates(data) {
      assert keys[i] == DateKey(data[i]);
    }
    forall k | k in DistinctDates(data) ensures exists i :: 0 <= i < |data| && DateKey(data[i]) == k {
      var i :| 0 <= i < |keys| && keys[i] == k;
    }
  }

  /** Two records share a key exactly when they were discovered in the same month
      of the same year, so `distinctDates` has one entry per month that has fires. */
  lemma SameKeyIffSameMonth(a: Record, b: Record)
    requires HasDiscoveryDate(a) && HasDiscoveryDate(b)
    ensures var da, db := Get(a, DiscoveryDate).date, Get(b, DiscoveryDate).date;
      DateKey(a) == DateKey(b) <==> (da.fullYear == db.fullYear && da.month == db.month)
  {
    var da, db := Get(a, DiscoveryDate).date, Get(b, DiscoveryDate).date;
    if DateKey(a) == DateKey(b) {
      MonthKeyInjective(da.fullYear, da.month, db.fullYear, db.month);
    }
  }

  /** `Math.ceil(distinct / 4)` for a count `distinct`. */
  function NumBins(distinct: nat): (bins: nat)
    ensures 4 * bins >= distinct
    ensures 4 * (bins - 1) < distinct
  {
    (distinct + 3) / 4
  }

  /** There are no bins exactly when there are no records. */
  lemma NumBinsZeroIffNoData(data: seq<Record>)
    requires forall i :: 0 <= i < |data| ==> HasDiscoveryDate(data[i])
    ensures NumBins(|DistinctDates(data)|) == 0 <==> data == []
  {
    if data != [] {
      assert Keys(data)[0] in DistinctDates(data);
    }
  }
}
