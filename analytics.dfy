/** The summary the dashboard derives from one successful load: the server's
    aggregate figures with their fallbacks, a six-month rent-trend series of
    which only the last month is live, and the property-type distribution. */
module Analytics {
  import opened Records
  import opened Distribution

  /** The body of the analytics endpoint. Every field may be missing. */
  datatype ServerAggregates = ServerAggregates(
    totalRevenue: Option<int>,
    averageOccupancy: Option<real>,
    averageScore: Option<real>,
    totalProperties: Option<int>,
    averageRent: Option<real>)

  /** A statistic shown as text: `value.toFixed(1)` of a present number, or the literal "0".
      The one-decimal rendering itself is not modelled; it is never the empty text. */
  datatype Shown = OneDecimal(value: real) | ZeroText

  /** One point of the rent-trend line chart. */
  datatype TrendPoint = TrendPoint(month: string, avgRent: real)

  /** The analytics state the dashboard renders. */
  datatype Summary = Summary(
    totalRevenue: int,
    avgOccupancy: Shown,
    avgScore: Shown,
    totalProperties: int,
    rentTrends: seq<TrendPoint>,
    propertyTypes: seq<TypeCount>)

  const Months: seq<string> := ["Jan", "Feb", "Mar", "Apr", "May", "Jun"]

  /** The fixed rents of January to May. */
  const FixedRents: seq<real> := [2400.0, 2450.0, 2500.0, 2600.0, 2700.0]

  /** The June rent when the server gives no usable average. */
  const DefaultJuneRent: real := 2750.0

  /** `v?.toFixed(1) || '0'`: the optional chain yields `undefined` only for a
      missing value, and the text of a present number is never empty, so a
      present zero is shown as "0.0" and only a missing value as "0". */
  function FixedOrZero(v: Option<real>): (r: Shown)
    ensures r == ZeroText <==> v == None
    ensures v.Some? ==> r == OneDecimal(v.value)
  {
    match v
    case None => ZeroText
    case Some(x) => OneDecimal(x)
  }

  /** The rent-trend series: five fixed months and a live June. */
  function RentTrends(averageRent: Option<real>): (trend: seq<TrendPoint>)
    ensures |trend| == |Months| == 6
    ensures forall i | 0 <= i < 6 :: trend[i].month == Months[i]
    ensures forall i | 0 <= i < 5 :: trend[i].avgRent == FixedRents[i]
    ensures trend[5].avgRent == DefaultJuneRent || Some(trend[5].avgRent) == averageRent
  {
    [ TrendPoint(Months[0], FixedRents[0]),
      TrendPoint(Months[1], FixedRents[1]),
      TrendPoint(Months[2], FixedRents[2]),
      TrendPoint(Months[3], FixedRents[3]),
      TrendPoint(Months[4], FixedRents[4]),
      TrendPoint(Months[5], OrElse(averageRent, 0.0, DefaultJuneRent)) ]
  }

  /** The analytics object built from the server's aggregates and the
      distribution computed from the freshly loaded records. */
  function Transform(data: ServerAggregates, propertyTypes: seq<TypeCount>): (r: Summary)
    ensures r.totalRevenue == 0 || Some(r.totalRevenue) == data.totalRevenue
    ensures r.totalProperties == 0 || Some(r.totalProperties) == data.totalProperties
    ensures r.avgOccupancy == ZeroText <==> data.averageOccupancy == None
    ensures r.avgScore == ZeroText <==> data.averageScore == None
    ensures r.propertyTypes == propertyTypes
  {
    Summary(
      OrElse(data.totalRevenue, 0, 0),
      FixedOrZero(data.averageOccupancy),
      FixedOrZero(data.averageScore),
      OrElse(data.totalProperties, 0, 0),
      RentTrends(data.averageRent),
      propertyTypes)
  }

  // ---------------------------------------------------------------------------
  // What the summary promises

  /** June is the server's average rent when it is present and not zero, and 2750 otherwise. */
  lemma JuneRent(data: ServerAggregates, propertyTypes: seq<TypeCount>)
    ensures data.averageRent.Some? && data.averageRent.value != 0.0 ==>
      Transform(data, propertyTypes).rentTrends[5].avgRent == data.averageRent.value
    ensures data.averageRent == None || data.averageRent == Some(0.0) ==>
      Transform(data, propertyTypes).rentTrends[5].avgRent == DefaultJuneRent
  {
  }

  /** The two totals are the server's values when present and not zero, and 0 otherwise. */
  lemma TotalsFallBackToZero(data: ServerAggregates, propertyTypes: seq<TypeCount>)
    ensures Transform(data, propertyTypes).totalRevenue ==
      (if data.totalRevenue.Some? then data.totalRevenue.value else 0)
    ensures Transform(data, propertyTypes).totalProperties ==
      (if data.totalProperties.Some? then data.totalProperties.value else 0)
  {
  }

  /** An empty aggregates body gives zero totals, "0" averages and a June rent of 2750. */
  lemma EmptyAggregates(propertyTypes: seq<TypeCount>)
    ensures var r := Transform(ServerAggregates(None, None, None, None, None), propertyTypes);
      r.totalRevenue == 0 && r.totalProperties == 0 &&
      r.avgOccupancy == ZeroText && r.avgScore == ZeroText &&
      r.rentTrends[5].avgRent == DefaultJuneRent
  {
  }

  /** The distribution in a loaded summary accounts for every record: its values
      add up to the number of records, and a type has a slice exactly when some
      record has that type. */
  lemma DistributionFromRecords(data: ServerAggregates, records: seq<PropertyRecord>, t: string)
    ensures var slices := Transform(data, PropertyTypes(records)).propertyTypes;
      && Total(slices) == |records|
      && (Occurs(records, t) <==> t in Names(slices))
  {
    TotalIsRecordCount(records);
    var slices := PropertyTypes(records);
    if Occurs(records, t) {
      EntriesAreTypeCounts(records, t);
      var i :| 0 <= i < |slices| && slices[i].name == t;
      assert Names(slices)[i] == t;
    }
  }
}
