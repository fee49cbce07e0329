/**
 * The activity chart's normalisation of the per-source hourly counts into
 * 24 buckets, one per hour of the day, and the chart's fetch state.
 */
module ActivityOverview {
  import opened Optional
  import opened Strings
  import opened Json

  /** One `{hour, count}` item of a source's series, as received. */
  datatype HourItem = HourItem(hour: Json, count: Json)

  /** The payload: each source's series, None when the key is absent or null. */
  datatype ActivityData = ActivityData(
    snort: Option<seq<HourItem>>,
    wazuh: Option<seq<HourItem>>,
    correlated: Option<seq<HourItem>>)

  /** One point of the chart. */
  datatype Bucket = Bucket(hour: int, time: string, nids: Json, hids: Json, correlated: Json)

  const Hours := 24

  /** `items.find(item => item.hour === h)`: the first item whose hour is the number `h`. */
  function FindHour(items: seq<HourItem>, h: int): Option<HourItem>
    decreases |items|
  {
    if items == [] then None
    else if items[0].hour == JNum(h) then Some(items[0])
    else FindHour(items[1..], h)
  }

  /**
   * The search finds an item exactly when some item has hour `h`, and then
   * it is the first such item.
   */
  lemma {:induction false} FindHourSpec(items: seq<HourItem>, h: int)
    ensures FindHour(items, h).None? <==> forall i :: 0 <= i < |items| ==> items[i].hour != JNum(h)
    ensures FindHour(items, h).Some? ==>
              exists i :: 0 <= i < |items| && items[i] == FindHour(items, h).value
                          && items[i].hour == JNum(h)
                          && forall j :: 0 <= j < i ==> items[j].hour != JNum(h)
    decreases |items|
  {
    if items != [] && items[0].hour != JNum(h) {
      var tail := items[1..];
      FindHourSpec(tail, h);
      assert forall i :: 0 < i < |items| ==> items[i] == tail[i - 1];
      if FindHour(tail, h).Some? {
        var i :| 0 <= i < |tail| && tail[i] == FindHour(tail, h).value && tail[i].hour == JNum(h)
                 && forall j :: 0 <= j < i ==> tail[j].hour != JNum(h);
        assert items[i + 1] == tail[i];
      }
    } else if items != [] {
      assert items[0] == FindHour(items, h).value;
    }
  }

  /** An item whose hour is not `h` does not change the search for `h`, wherever it sits. */
  lemma {:induction false} FindHourSkips(xs: seq<HourItem>, item: HourItem, ys: seq<HourItem>, h: int)
    requires item.hour != JNum(h)
    ensures FindHour(xs + [item] + ys, h) == FindHour(xs + ys, h)
    decreases |xs|
  {
    if xs == [] {
      assert xs + [item] + ys == [item] + ys && xs + ys == ys;
      assert ([item] + ys)[1..] == ys;
    } else {
      assert (xs + [item] + ys)[1..] == xs[1..] + [item] + ys;
      assert (xs + ys)[1..] == xs[1..] + ys;
      FindHourSkips(xs[1..], item, ys, h);
    }
  }

  /** `series?.find(...)?.count || 0`: the count of the hour's first item, or 0. */
  function SeriesValue(series: Option<seq<HourItem>>, h: int): (v: Json)
    ensures series.None? ==> v == JNum(0)
    ensures v == JNum(0) || JsTruthy(v)
  {
    match series
    case None => JNum(0)
    case Some(items) =>
      match FindHour(items, h)
      case None => JNum(0)
      case Some(item) => if JsTruthy(item.count) then item.count else JNum(0)
  }

  /**
   * The value is the truthy count of the first item for hour `h`, and 0
   * when there is no such item or its count is falsy.
   */
  lemma SeriesValueSpec(items: seq<HourItem>, h: int)
    ensures (forall i :: 0 <= i < |items| ==> items[i].hour != JNum(h)) ==> SeriesValue(Some(items), h) == JNum(0)
    ensures forall i :: 0 <= i < |items| && items[i].hour == JNum(h)
                        && (forall j :: 0 <= j < i ==> items[j].hour != JNum(h)) ==>
              SeriesValue(Some(items), h) == if JsTruthy(items[i].count) then items[i].count else JNum(0)
  {
    FindHourSpec(items, h);
    forall i | 0 <= i < |items| && items[i].hour == JNum(h) && (forall j :: 0 <= j < i ==> items[j].hour != JNum(h))
      ensures FindHour(items, h) == Some(items[i])
    {
      var k :| 0 <= k < |items| && items[k] == FindHour(items, h).value && items[k].hour == JNum(h)
               && forall j :: 0 <= j < k ==> items[j].hour != JNum(h);
      assert !(k < i) && !(i < k);
    }
  }

  /** `` `${h.toString().padStart(2, '0')}:00` `` */
  function HourLabel(h: nat): string {
    PadStart(NatDecimal(h), 2, '0') + ":00"
  }

  /**
   * The label of an hour below 100 is two digits and ":00"; the digits are
   * the hour's own, with a zero in front of a single one.
   */
  lemma HourLabelShape(h: nat)
    requires h < 100
    ensures |HourLabel(h)| == 5 && HourLabel(h)[2..] == ":00"
    ensures forall i :: 0 <= i < 2 ==> IsDigit(HourLabel(h)[i])
    ensures HourLabel(h)[..2] == if h < 10 then "0" + NatDecimal(h) else NatDecimal(h)
  {
    var d := NatDecimal(h);
    if h >= 10 {
      assert d == NatDecimal(h / 10) + [DigitChar(h % 10)];
    }
    assert |d| <= 2;
    assert HourLabel(h) == PadStart(d, 2, '0') + ":00";
  }

  /** The first two characters of an hour's label read back as the hour. */
  lemma HourLabelRoundTrip(h: nat)
    requires h < 100
    ensures DigitsValue(HourLabel(h)[..2]) == h
  {
    HourLabelShape(h);
    NatDecimalRoundTrip(h);
    if h < 10 {
      LeadingZero(NatDecimal(h));
    }
  }

  /** Different hours get different labels. */
  lemma HourLabelInjective(g: nat, h: nat)
    requires g < 100 && h < 100 && HourLabel(g) == HourLabel(h)
    ensures g == h
  {
    HourLabelRoundTrip(g);
    HourLabelRoundTrip(h);
  }

  lemma HourLabelExamples()
    ensures HourLabel(3) == "03:00"
    ensures HourLabel(17) == "17:00"
  {
    assert NatDecimal(17) == "17";
  }

  /** The chart point for hour `h`. */
  function BucketAt(data: ActivityData, h: nat): (b: Bucket)
    ensures b.hour == h && b.time == HourLabel(h)
    ensures b.nids == SeriesValue(data.snort, h)
    ensures b.hids == SeriesValue(data.wazuh, h)
    ensures b.correlated == SeriesValue(data.correlated, h)
  {
    Bucket(h, HourLabel(h), SeriesValue(data.snort, h), SeriesValue(data.wazuh, h), SeriesValue(data.correlated, h))
  }

  /** The loop `for (hour = 0; hour < 24; hour++)` that pushes one point per hour. */
  method Normalize(data: ActivityData) returns (buckets: seq<Bucket>)
    ensures |buckets| == Hours
    ensures forall h :: 0 <= h < Hours ==> buckets[h] == BucketAt(data, h)
  {
    buckets := [];
    var hour := 0;
    while hour < Hours
      invariant 0 <= hour <= Hours
      invariant |buckets| == hour
      invariant forall h :: 0 <= h < hour ==> buckets[h] == BucketAt(data, h)
    {
      var snortCount := SeriesValue(data.snort, hour);
      var wazuhCount := SeriesValue(data.wazuh, hour);
      var correlatedCount := SeriesValue(data.correlated, hour);
      buckets := buckets + [Bucket(hour, HourLabel(hour), snortCount, wazuhCount, correlatedCount)];
      hour := hour + 1;
    }
  }

  /** The points are the hours 0 to 23, ascending, each with distinct label. */
  lemma HoursAscending(data: ActivityData, g: nat, h: nat)
    requires g < h < Hours
    ensures BucketAt(data, g).hour < BucketAt(data, h).hour
    ensures BucketAt(data, g).time != BucketAt(data, h).time
  {
    if HourLabel(g) == HourLabel(h) {
      HourLabelInjective(g, h);
    }
  }

  /** A missing series draws a flat line at zero. */
  lemma MissingSeriesIsZero(data: ActivityData, h: nat)
    ensures data.snort.None? ==> BucketAt(data, h).nids == JNum(0)
    ensures data.wazuh.None? ==> BucketAt(data, h).hids == JNum(0)
    ensures data.correlated.None? ==> BucketAt(data, h).correlated == JNum(0)
  {
  }

  /**
   * An item whose hour is not one of 0..23 (another number, a string, null)
   * changes no point of the chart.
   */
  lemma OutOfRangeHoursIgnored(xs: seq<HourItem>, item: HourItem, ys: seq<HourItem>, h: nat)
    requires !(item.hour.JNum? && 0 <= item.hour.n < Hours)
    requires h < Hours
    ensures SeriesValue(Some(xs + [item] + ys), h) == SeriesValue(Some(xs + ys), h)
  {
    FindHourSkips(xs, item, ys, h);
  }

  // ---------------------------------------------------------------------
  // The chart's fetch state
  // ---------------------------------------------------------------------

  /** What a fetch ends with: a response (status and decoded payload), or a thrown error's message. */
  datatype FetchOutcome = Received(status: int, payload: ActivityData) | Thrown(message: string)

  /** `response.ok`: a status in 200..299. */
  predicate Ok(status: int) {
    200 <= status < 300
  }

  class ActivityChart {
    var data: seq<Bucket>
    var loading: bool
    var error: Option<string>

    /** The initial state: no points, loading, no error. */
    constructor ()
      ensures data == [] && loading && error == None
    {
      data := [];
      loading := true;
      error := None;
    }

    /** `setLoading(true); setError(null)` at the start of `fetchData`. */
    method BeginFetch()
      modifies this
      ensures data == old(data) && loading && error == None
    {
      loading := true;
      error := None;
    }

    /**
     * The rest of `fetchData`: a good response replaces the points; a bad
     * status or a thrown error keeps them and records the message; loading
     * ends either way.
     */
    method FinishFetch(outcome: FetchOutcome)
      modifies this
      ensures !loading
      ensures outcome.Received? && Ok(outcome.status) ==>
                error == old(error) && |data| == Hours
                && forall h :: 0 <= h < Hours ==> data[h] == BucketAt(outcome.payload, h)
      ensures outcome.Received? && !Ok(outcome.status) ==>
                data == old(data) && error == Some("HTTP error! status: " + Decimal(outcome.status))
      ensures outcome.Thrown? ==> data == old(data) && error == Some(outcome.message)
    {
      match outcome {
        case Received(status, payload) =>
          if !Ok(status) {
            error := Some("HTTP error! status: " + Decimal(status));
          } else {
            data := Normalize(payload);
          }
        case Thrown(message) =>
          error := Some(message);
      }
      loading := false;
    }
  }
}
