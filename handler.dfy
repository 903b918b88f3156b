/**
 * The request side of Redirect/airq.go: `getData` (fetch, then reshape),
 * `getAQHIReportAndForecast` and the dispatch of `handleRequest` on the
 * `data_type` query parameter.
 */
module Handler {

  import opened Encoding
  import opened Results
  import opened Json
  import opened TtlCache
  import opened Extraction
  import opened FetchExtract
  import Stations
  import opened Reshape

  /** An upstream page and the variable whose array literal is extracted from it. */
  datatype Page = Page(url: string, variable: string)

  /**
   * The fixed inputs of the handlers: the three extracted variables and the
   * coordinate table. The proofs hold for any of them; `Live` holds the
   * values of Redirect/airq.go.
   */
  datatype Config = Config(pollutant: Page, report: Page, forecast: Page, table: CoordinateTable)

  const Live: Config := Config(
    Page("https://www.aqhi.gov.hk/js/data/past_24_pollutant.js", "station_24_data"),
    Page("https://www.aqhi.gov.hk/js/data/forecast_aqhi.js", "aqhi_report"),
    Page("https://www.aqhi.gov.hk/js/data/forecast_aqhi.js", "aqhi_forecast"),
    Stations.Table)

  /** The "repo" error for a variable: `{"error": "No match found for <name>."}`. */
  function NoMatch(p: Page): string {
    "No match found for " + p.variable + "."
  }

  /** `strconv.ParseBool`: its six true and six false spellings, anything else an error. */
  function ParseBool(s: string): Option<bool> {
    if s in {"1", "t", "T", "TRUE", "true", "True"} then Some(true)
    else if s in {"0", "f", "F", "FALSE", "false", "False"} then Some(false)
    else None
  }

  /** `r.URL.Query().Get(k)`: the parameter's value, or "" when it is absent. */
  function QueryGet(query: map<string, string>, k: string): string {
    if k in query then query[k] else ""
  }

  /** A query flag: `v, _ := strconv.ParseBool(...)` keeps false on an error. */
  function Flag(query: map<string, string>, k: string): bool {
    ParseBool(QueryGet(query, k)).GetOr(false)
  }

  /** `err.Error()` for each failure of the fetch. */
  function ErrorText(e: FetchError): string {
    match e
    case Transport(m) => m
    case VariableNotFound => "variable not found"
    case BadJson(m) => m
  }

  /** What `getData` ends in: a collection, the fetch's error, or a failed type assertion (a panic). */
  datatype DataResult = Built(fc: FeatureCollection) | FetchFailed(error: FetchError) | Panicked

  /** One entry of the "repo" reply: the parsed array, or its own error object. */
  datatype Field = Items(items: seq<Json>) | FieldError(error: string)

  /**
   * The JSON body a request is answered with. `Aborted` stands for the panic
   * of a failed type assertion, after which net/http drops the connection.
   */
  datatype Reply =
    | Collection(fc: FeatureCollection)
    | Report(aqhiReport: Field, aqhiForecast: Field)
    | ErrorReply(error: string)
    | Aborted

  /** The result of `getData` and the cache files after it. */
  function DataOf(config: Config, files: map<string, File>, last: bool, recent: bool, env: Env, parse: Parser): (DataResult, map<string, File>) {
    var (r, files') := Fetched(files, config.pollutant.url, config.pollutant.variable, env, parse);
    match r
    case Failure(e) => (FetchFailed(e), files')
    case Success(data) =>
      if WellShaped(data) then (Built(Reshaped(config.table, data, last, recent)), files') else (Panicked, files')
  }

  /** One "repo" entry from its fetch result; any failure becomes the entry's fixed message. */
  function FieldOf(r: Result<seq<Json>, FetchError>, message: string): Field {
    match r
    case Success(items) => Items(items)
    case Failure(_) => FieldError(message)
  }

  /** The two "repo" entries, fetched one after the other, and the cache files after both. */
  function ReportOf(config: Config, files: map<string, File>, first: Env, second: Env, parse: Parser): (Field, Field, map<string, File>) {
    var (r1, files1) := Fetched(files, config.report.url, config.report.variable, first, parse);
    var (r2, files2) := Fetched(files1, config.forecast.url, config.forecast.variable, second, parse);
    (FieldOf(r1, NoMatch(config.report)), FieldOf(r2, NoMatch(config.forecast)), files2)
  }

  /** The reply to a request and the cache files after it. */
  function Dispatch(config: Config, files: map<string, File>, query: map<string, string>, first: Env, second: Env, parse: Parser)
    : (Reply, map<string, File>)
  {
    var dataType := QueryGet(query, "data_type");
    if dataType == "data" then
      var (d, files') := DataOf(config, files, Flag(query, "last"), Flag(query, "recent"), first, parse);
      match d
      case Built(fc) => (Collection(fc), files')
      case FetchFailed(e) => (ErrorReply(ErrorText(e)), files')
      case Panicked => (Aborted, files')
    else if dataType == "repo" then
      var (a, b, files') := ReportOf(config, files, first, second, parse);
      (Report(a, b), files')
    else (ErrorReply("Invalid data_type."), files)
  }

  /** `getData`. */
  method GetData(config: Config, cache: Cache, last: bool, recent: bool, env: Env, parse: Parser) returns (r: DataResult)
    modifies cache
    ensures (r, cache.files) == DataOf(config, old(cache.files), last, recent, env, parse)
  {
    var fetched := FetchAndExtract(cache, config.pollutant.url, config.pollutant.variable, env, parse);
    if fetched.Failure? {
      return FetchFailed(fetched.error);
    }
    var data := fetched.value;
    if !WellShaped(data) {
      return Panicked;
    }
    var fc := BuildCollection(config.table, data, last, recent);
    return Built(fc);
  }

  /** `getAQHIReportAndForecast`: two fetches whose failures are caught separately. */
  method GetReportAndForecast(config: Config, cache: Cache, first: Env, second: Env, parse: Parser) returns (report: Field, forecast: Field)
    modifies cache
    ensures (report, forecast, cache.files) == ReportOf(config, old(cache.files), first, second, parse)
  {
    var aqhiReport := FetchAndExtract(cache, config.report.url, config.report.variable, first, parse);
    if aqhiReport.Failure? {
      report := FieldError("No match found for " + config.report.variable + ".");
    } else {
      report := Items(aqhiReport.value);
    }
    var aqhiForecast := FetchAndExtract(cache, config.forecast.url, config.forecast.variable, second, parse);
    if aqhiForecast.Failure? {
      forecast := FieldError("No match found for " + config.forecast.variable + ".");
    } else {
      forecast := Items(aqhiForecast.value);
    }
  }

  /** `handleRequest`: `first` is the world of the first fetch, `second` that of the second ("repo" only). */
  method HandleRequest(config: Config, cache: Cache, query: map<string, string>, first: Env, second: Env, parse: Parser) returns (reply: Reply)
    modifies cache
    ensures (reply, cache.files) == Dispatch(config, old(cache.files), query, first, second, parse)
  {
    var dataType := QueryGet(query, "data_type");
    var last := ParseBool(QueryGet(query, "last")).GetOr(false);
    var recent := ParseBool(QueryGet(query, "recent")).GetOr(false);
    if dataType == "data" {
      var result := GetData(config, cache, last, recent, first, parse);
      match result
      case Built(fc) => reply := Collection(fc);
      case FetchFailed(e) => reply := ErrorReply(ErrorText(e));
      case Panicked => reply := Aborted;
    } else if dataType == "repo" {
      var report, forecast := GetReportAndForecast(config, cache, first, second, parse);
      reply := Report(report, forecast);
    } else {
      reply := ErrorReply("Invalid data_type.");
    }
  }

  /** Any `data_type` but "data" and "repo" gets the fixed error and touches nothing. */
  lemma InvalidDataType(config: Config, files: map<string, File>, query: map<string, string>, first: Env, second: Env, parse: Parser)
    requires QueryGet(query, "data_type") != "data" && QueryGet(query, "data_type") != "repo"
    ensures Dispatch(config, files, query, first, second, parse) == (ErrorReply("Invalid data_type."), files)
  {
  }

  /** An unparsable flag reads as false and never fails the request. */
  lemma BadFlagIsFalse(query: map<string, string>, k: string)
    requires ParseBool(QueryGet(query, k)).None?
    ensures !Flag(query, k)
  {
  }

  /** "data": a collection of the known stations, the fetch's error text, or the panic of a bad shape. */
  lemma DataReplies(config: Config, files: map<string, File>, query: map<string, string>, first: Env, second: Env, parse: Parser)
    requires QueryGet(query, "data_type") == "data"
    ensures var reply := Dispatch(config, files, query, first, second, parse).0;
      var fetched := Fetched(files, config.pollutant.url, config.pollutant.variable, first, parse).0;
      match fetched
      case Failure(e) => reply == ErrorReply(ErrorText(e))
      case Success(data) =>
        if WellShaped(data) then
          && reply == Collection(Reshaped(config.table, data, Flag(query, "last"), Flag(query, "recent")))
          && reply.fc.features.Keys <= config.table.Keys
        else reply == Aborted
  {
    var last, recent := Flag(query, "last"), Flag(query, "recent");
    var fetched := Fetched(files, config.pollutant.url, config.pollutant.variable, first, parse).0;
    var d := DataOf(config, files, last, recent, first, parse).0;
    assert Dispatch(config, files, query, first, second, parse).0 ==
      match d
      case Built(fc) => Collection(fc)
      case FetchFailed(e) => ErrorReply(ErrorText(e))
      case Panicked => Aborted;
    if fetched.Success? && WellShaped(fetched.value) {
      assert d == Built(Reshaped(config.table, fetched.value, last, recent));
      ReshapedShape(config.table, fetched.value, last, recent);
    }
  }

  /** The report and the forecast are cached under different keys. */
  predicate DistinctKeys(config: Config) {
    CacheKey(config.report.url, config.report.variable) != CacheKey(config.forecast.url, config.forecast.variable)
  }

  /** For the deployed pages they are: the keys differ in length. */
  lemma LiveKeysDistinct()
    ensures DistinctKeys(Live)
  {
    assert |Live.report.variable| == 11 && |Live.forecast.variable| == 13;
  }

  /**
   * The forecast entry does not depend on how the report's fetch went: the
   * two keys name different cache files, so the first call cannot change
   * what the second one reads.
   */
  lemma ForecastIndependentOfReport(config: Config, files: map<string, File>, a: Env, b: Env, second: Env, parse: Parser)
    requires DistinctKeys(config)
    ensures ReportOf(config, files, a, second, parse).1 == ReportOf(config, files, b, second, parse).1
  {
    var reportKey := CacheKey(config.report.url, config.report.variable);
    var forecastKey := CacheKey(config.forecast.url, config.forecast.variable);
    if FileName(reportKey) == FileName(forecastKey) {
      FileNameInjective(reportKey, forecastKey);
    }
    var n := FileName(forecastKey);
    var fa := Fetched(files, config.report.url, config.report.variable, a, parse).1;
    var fb := Fetched(files, config.report.url, config.report.variable, b, parse).1;
    FetchedTouchesOwnFile(files, config.report.url, config.report.variable, a, parse, n);
    FetchedTouchesOwnFile(files, config.report.url, config.report.variable, b, parse, n);
    FetchedIsLocal(fa, fb, config.forecast.url, config.forecast.variable, second, parse);
  }

  /**
   * Partial failure: with nothing cached, a report fetch that fails and a
   * forecast page that assigns a parsable array give the report's error
   * object beside the forecast's array.
   */
  lemma PartialFailure(config: Config, first: Env, second: Env, parse: Parser, literal: seq<byte>, items: seq<Json>)
    requires first.response.TransportError?
    requires SingleLineArray(literal)
    requires second.response == Body(Prefix(config.forecast.variable) + literal + [Semicolon])
    requires parse(literal) == Success(items)
    ensures ReportOf(config, map[], first, second, parse).0 == FieldError(NoMatch(config.report))
    ensures ReportOf(config, map[], first, second, parse).1 == Items(items)
  {
    UncachedTransportError(map[], config.report.url, config.report.variable, first, parse);
    ExtractAssignment(config.forecast.variable, literal, []);
    assert second.response.bytes == Prefix(config.forecast.variable) + literal + [Semicolon] + [];
    UncachedCapture(map[], config.forecast.url, config.forecast.variable, second, parse, literal, items);
  }
}
