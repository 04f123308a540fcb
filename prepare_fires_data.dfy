/** Cleaning and per-year filtering of the raw wildfire records
    (frontend/src/prepareFiresData.js). A record is a JavaScript object decoded
    from JSON, modelled as a map from field names to values; a field that is
    absent reads as `undefined`. Date parsing (d3's `timeParse`) is a library
    call and enters as a parameter. */
module PrepareFiresData {
  import opened Seqs

  /** A month as `Date.prototype.getMonth` returns it: 0 for January. */
  type Month = m: int | 0 <= m < 12

  /** The parts of a JavaScript `Date` that the dashboard reads. */
  datatype Date = Date(fullYear: int, month: Month, day: int, secondOfDay: int)

  /** The values a record field can hold. */
  datatype JsValue = Undefined | Null | Number(n: real) | Text(s: string) | DateValue(date: Date)

  type Record = map<string, JsValue>

  /** `timeParse("%Y-%m-%d %H:%M:%S")`: a library function, left abstract. */
  type DateParser = JsValue -> JsValue

  const Longitude := "LONGITUDE"
  const Latitude := "LATITUDE"
  const DiscoveryDate := "DISCOVERY_DATE"
  const ContDate := "CONT_DATE"

  /** Property access `r.field`. */
  function Get(r: Record, field: string): JsValue
  {
    if field in r then r[field] else Undefined
  }

  /** The filter of cleanFiresData: both coordinates are `!== undefined`
      (so `null` coordinates pass). */
  predicate HasCoordinates(r: Record)
  {
    Get(r, Longitude) != Undefined && Get(r, Latitude) != Undefined
  }

  /** The two assignments of cleanFiresData's `forEach` applied to one record. */
  function ParseDates(r: Record, parse: DateParser): (d: Record)
    ensures Get(d, DiscoveryDate) == parse(Get(r, DiscoveryDate))
    ensures Get(d, ContDate) == parse(Get(r, ContDate))
    ensures forall f :: f != DiscoveryDate && f != ContDate ==> Get(d, f) == Get(r, f)
    ensures d.Keys == r.Keys + {DiscoveryDate, ContDate}
    ensures HasCoordinates(d) == HasCoordinates(r)
  {
    r[DiscoveryDate := parse(Get(r, DiscoveryDate))][ContDate := parse(Get(r, ContDate))]
  }

  /** cleanFiresData: keep the records that have both coordinates, then rewrite the
      two date fields of each kept record. The kept records are
      `Filter(data, HasCoordinates)`; by Seqs.FilterIsSubsequence and
      Seqs.FilterMultiplicity they are exactly the records with coordinates, in
      their original order. */
  method CleanFiresData(data: seq<Record>, parse: DateParser) returns (fires: seq<Record>)
    ensures |fires| == |Filter(data, HasCoordinates)| == Count(data, HasCoordinates)
    ensures forall i :: 0 <= i < |fires| ==>
      fires[i] == ParseDates(Filter(data, HasCoordinates)[i], parse)
    ensures forall i :: 0 <= i < |fires| ==> HasCoordinates(fires[i])
  {
    var validProjectedFires := Filter(data, HasCoordinates);
    FilterLength(data, HasCoordinates);
    fires := validProjectedFires;
    var i := 0;
    while i < |fires|
      invariant 0 <= i <= |fires| == |validProjectedFires|
      invariant forall k :: 0 <= k < i ==> fires[k] == ParseDates(validProjectedFires[k], parse)
      invariant forall k :: i <= k < |fires| ==> fires[k] == validProjectedFires[k]
    {
      fires := fires[i := ParseDates(fires[i], parse)];
      i := i + 1;
    }
  }

  predicate HasDiscoveryDate(r: Record)
  {
    Get(r, DiscoveryDate).DateValue?
  }

  /** `d.DISCOVERY_DATE.getFullYear()`. */
  function DiscoveryYear(r: Record): int
    requires HasDiscoveryDate(r)
  {
    Get(r, DiscoveryDate).date.fullYear
  }

  predicate DiscoveredIn(r: Record, year: int)
  {
    HasDiscoveryDate(r) && DiscoveryYear(r) == year
  }

  /** filterPerYear: the records discovered in `year`, in their original order.
      The source calls `getFullYear` on every record's discovery date. The model
      requires every record to carry a parsed date; the source throws a TypeError
      otherwise (a cleaned record whose date failed to parse is such a record). */
  function FilterPerYear(data: seq<Record>, year: int): (r: seq<Record>)
    requires forall i :: 0 <= i < |data| ==> HasDiscoveryDate(data[i])
    ensures IsSubsequence(r, data)
    ensures forall i :: 0 <= i < |r| ==> HasDiscoveryDate(r[i]) && DiscoveryYear(r[i]) == year
    ensures forall i :: 0 <= i < |data| && DiscoveryYear(data[i]) == year ==> data[i] in r
    ensures forall x :: multiset(r)[x] == if DiscoveredIn(x, year) then multiset(data)[x] else 0
  {
    var p := (d: Record) => DiscoveredIn(d, year);
    FilterIsSubsequence(data, p);
    forall x ensures multiset(Filter(data, p))[x] == if DiscoveredIn(x, year) then multiset(data)[x] else 0 {
      FilterMultiplicity(data, p, x);
    }
    Filter(data, p)
  }

  /** Filtering an already filtered list by the same year changes nothing. */
  lemma FilterPerYearIdempotent(data: seq<Record>, year: int)
    requires forall i :: 0 <= i < |data| ==> HasDiscoveryDate(data[i])
    ensures FilterPerYear(FilterPerYear(data, year), year) == FilterPerYear(data, year)
  {
    FilterIdempotent(data, (d: Record) => DiscoveredIn(d, year));
  }
}
