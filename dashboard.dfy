/** The dashboard component's state and its load cycle. The two HTTP requests and
    the parsing of their bodies are abstracted as the way a cycle ends. */
module Dashboard {
  import opened Records
  import opened Distribution
  import opened Analytics

  /** How one load cycle ends once its requests have been awaited. */
  datatype FetchOutcome =
      /** A request or the parsing of a body failed before anything was stored. */
    | RequestFailed
      /** Both bodies were parsed and the records stored, but building the summary
          threw (an analytics body of `null`, for one). */
    | SummaryFailed(records: seq<PropertyRecord>)
      /** Both bodies were parsed and the summary built. */
    | Fetched(records: seq<PropertyRecord>, aggregates: ServerAggregates)

  /** What the component renders. */
  datatype Screen =
    | Spinner
    | Blank
    | Page(summary: Summary, rows: seq<PropertyRecord>)

  class App {
    var properties: seq<PropertyRecord>
    var analytics: Option<Summary>
    var loading: bool

    /** The component as first rendered: no records, no analytics, loading. */
    constructor ()
      ensures properties == [] && analytics == None && loading
    {
      properties := [];
      analytics := None;
      loading := true;
    }

    /** The spinner while loading; nothing at all while there are no analytics;
        otherwise the dashboard over the stored analytics and records. */
    function View(): (v: Screen)
      reads this
      ensures v == Spinner <==> loading
      ensures v == Blank <==> !loading && analytics == None
      ensures v.Page? ==> analytics == Some(v.summary) && v.rows == properties
    {
      if loading then Spinner
      else if analytics == None then Blank
      else Page(analytics.value, properties)
    }

    /** The start of a cycle: the loading flag is raised and nothing else changes. */
    method BeginFetch()
      modifies this
      ensures loading
      ensures properties == old(properties) && analytics == old(analytics)
    {
      loading := true;
    }

    /** The end of a cycle. The records are stored before the summary is built, so
        a summary that fails to build leaves the new records beside the old
        analytics; a request that fails stores nothing. The flag is lowered on
        every path. */
    method FinishFetch(outcome: FetchOutcome)
      modifies this
      ensures !loading
      ensures properties == if outcome.RequestFailed? then old(properties) else outcome.records
      ensures analytics ==
        if outcome.Fetched? then Some(Transform(outcome.aggregates, PropertyTypes(outcome.records)))
        else old(analytics)
    {
      match outcome {
        case RequestFailed =>
        case SummaryFailed(records) =>
          properties := records;
        case Fetched(records, aggregates) =>
          properties := records;
          var types := CalculatePropertyTypes(records);
          analytics := Some(Transform(aggregates, types));
      }
      loading := false;
    }

    /** One whole load cycle, as run on mount and by the Refresh button. */
    method FetchData(outcome: FetchOutcome)
      modifies this
      ensures !loading
      ensures properties == if outcome.RequestFailed? then old(properties) else outcome.records
      ensures analytics ==
        if outcome.Fetched? then Some(Transform(outcome.aggregates, PropertyTypes(outcome.records)))
        else old(analytics)
    {
      BeginFetch();
      FinishFetch(outcome);
    }
  }

  /** The component mounts and runs its first cycle. It shows the spinner first;
      the dashboard appears only when that cycle succeeds, and otherwise the
      screen stays blank, with no Refresh button to try again. */
  method Mount(outcome: FetchOutcome) returns (first: Screen, screen: Screen)
    ensures first == Spinner
    ensures outcome.Fetched? ==>
      screen == Page(Transform(outcome.aggregates, PropertyTypes(outcome.records)), outcome.records)
    ensures !outcome.Fetched? ==> screen == Blank
  {
    var app := new App();
    first := app.View();
    app.FetchData(outcome);
    screen := app.View();
  }

  /** A successful first load followed by a press of Refresh, the only way to
      start another cycle. A failed request leaves the earlier page on screen
      unmarked; a summary that fails to build puts the new records beside the
      earlier analytics. */
  method MountThenRefresh(load: FetchOutcome, refresh: FetchOutcome) returns (screen: Screen)
    requires load.Fetched?
    ensures var before := Transform(load.aggregates, PropertyTypes(load.records));
      match refresh
      case RequestFailed => screen == Page(before, load.records)
      case SummaryFailed(records) => screen == Page(before, records)
      case Fetched(records, aggregates) => screen == Page(Transform(aggregates, PropertyTypes(records)), records)
  {
    var app := new App();
    app.FetchData(load);
    app.FetchData(refresh);
    screen := app.View();
  }
}
