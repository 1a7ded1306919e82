/**
 * The shared configuration (types/config.go): the required-settings check, run in a fixed
 * order and reporting the first setting that is missing, and the endpoint URL and port
 * helpers.
 */
module Config {
  import opened Wrappers

  datatype ExecutorConfig = ExecutorConfig(basePath: string, tickLength: int, powerUnitHost: string, sensorUnitHost: string)
  datatype PowerUnit = PowerUnit(shellyAddress: string, cycleLength: int, powerMapping: map<string, int>, maxIdleTime: int)
  datatype SensorUnitConfig = SensorUnitConfig(serialDevice: string, baudRate: int)
  datatype StorageConfig = StorageConfig(basePath: string)

  /** An endpoint's base URL and status path, with the paths of its kind of service. */
  datatype Endpoint = Endpoint(url: string, status: string)
  datatype ExecutorEndpoints = ExecutorEndpoints(endpoint: Endpoint, programs: string, running: string)
  datatype SensorUnitEndpoints = SensorUnitEndpoints(endpoint: Endpoint, temperatures: string, display: string)
  datatype PowerUnitEndpoints = PowerUnitEndpoints(endpoint: Endpoint, power: string)
  datatype StorageEndpoints = StorageEndpoints(endpoint: Endpoint, programs: string, executionLog: string)
  datatype APIEndpoints = APIEndpoints(executor: ExecutorEndpoints, sensorUnit: SensorUnitEndpoints,
                                       powerUnit: PowerUnitEndpoints, storage: StorageEndpoints)

  /** `HalkoConfig`: each section may be absent (a nil pointer). */
  datatype HalkoConfig = HalkoConfig(executor: Option<ExecutorConfig>, powerUnit: Option<PowerUnit>,
                                     sensorUnit: Option<SensorUnitConfig>, storage: Option<StorageConfig>,
                                     apiEndpoints: Option<APIEndpoints>)

  /** Every section present, every listed string non-empty, every listed count positive, the power mapping non-empty. */
  predicate ExecutorComplete(e: Option<ExecutorConfig>) {
    e.Some? && e.value.sensorUnitHost != "" && e.value.powerUnitHost != "" && e.value.basePath != "" && e.value.tickLength > 0
  }

  predicate SensorUnitComplete(s: Option<SensorUnitConfig>) {
    s.Some? && s.value.serialDevice != "" && s.value.baudRate > 0
  }

  predicate PowerUnitComplete(p: Option<PowerUnit>) {
    p.Some? && p.value.shellyAddress != "" && p.value.cycleLength > 0 && p.value.maxIdleTime > 0 && |p.value.powerMapping| > 0
  }

  predicate StorageComplete(st: Option<StorageConfig>) {
    st.Some? && st.value.basePath != ""
  }

  predicate ExecutorEndpointsComplete(x: ExecutorEndpoints) {
    x.endpoint.url != "" && x.programs != "" && x.running != "" && x.endpoint.status != ""
  }

  predicate SensorUnitEndpointsComplete(x: SensorUnitEndpoints) {
    x.endpoint.url != "" && x.temperatures != "" && x.display != "" && x.endpoint.status != ""
  }

  predicate PowerUnitEndpointsComplete(x: PowerUnitEndpoints) {
    x.endpoint.url != "" && x.endpoint.status != "" && x.power != ""
  }

  predicate StorageEndpointsComplete(x: StorageEndpoints) {
    x.endpoint.url != "" && x.programs != "" && x.executionLog != "" && x.endpoint.status != ""
  }

  predicate EndpointsComplete(a: Option<APIEndpoints>) {
    a.Some? && ExecutorEndpointsComplete(a.value.executor) && SensorUnitEndpointsComplete(a.value.sensorUnit) &&
    PowerUnitEndpointsComplete(a.value.powerUnit) && StorageEndpointsComplete(a.value.storage)
  }

  predicate Complete(c: HalkoConfig) {
    ExecutorComplete(c.executor) && SensorUnitComplete(c.sensorUnit) && PowerUnitComplete(c.powerUnit) &&
    StorageComplete(c.storage) && EndpointsComplete(c.apiEndpoints)
  }

  /** The executor section's checks, in order: the first failing one's message, or None. */
  function ExecutorError(e: Option<ExecutorConfig>): (r: Option<string>)
    ensures r.None? <==> ExecutorComplete(e)
    ensures e.None? ==> r == Some("executor configuration is required")
  {
    if e.None? then Some("executor configuration is required")
    else if e.value.sensorUnitHost == "" then Some("sensor unit host is required")
    else if e.value.powerUnitHost == "" then Some("power unit host is required")
    else if e.value.basePath == "" then Some("executor base path is required")
    else if e.value.tickLength <= 0 then Some("executor tick length is required and must be positive")
    else None
  }

  function SensorUnitError(s: Option<SensorUnitConfig>): (r: Option<string>)
    ensures r.None? <==> SensorUnitComplete(s)
    ensures s.None? ==> r == Some("sensor unit configuration is required")
  {
    if s.None? then Some("sensor unit configuration is required")
    else if s.value.serialDevice == "" then Some("sensor unit serial device is required")
    else if s.value.baudRate <= 0 then Some("sensor unit baud rate is required and must be positive")
    else None
  }

  function PowerUnitError(p: Option<PowerUnit>): (r: Option<string>)
    ensures r.None? <==> PowerUnitComplete(p)
    ensures p.None? ==> r == Some("power unit configuration is required")
  {
    if p.None? then Some("power unit configuration is required")
    else if p.value.shellyAddress == "" then Some("power unit shelly address is required")
    else if p.value.cycleLength <= 0 then Some("power unit cycle length is required and must be positive")
    else if p.value.maxIdleTime <= 0 then Some("power unit max idle time is required and must be positive")
    else if |p.value.powerMapping| == 0 then Some("power unit power mapping is required")
    else None
  }

  function StorageError(st: Option<StorageConfig>): (r: Option<string>)
    ensures r.None? <==> StorageComplete(st)
    ensures st.None? ==> r == Some("storage configuration is required")
  {
    if st.None? then Some("storage configuration is required")
    else if st.value.basePath == "" then Some("storage base path is required")
    else None
  }

  function ExecutorEndpointsError(x: ExecutorEndpoints): (r: Option<string>)
    ensures r.None? <==> ExecutorEndpointsComplete(x)
  {
    if x.endpoint.url == "" then Some("executor endpoints URL is required")
    else if x.programs == "" then Some("executor endpoints programs path is required")
    else if x.running == "" then Some("executor endpoints running path is required")
    else if x.endpoint.status == "" then Some("executor endpoints status path is required")
    else None
  }

  function SensorUnitEndpointsError(x: SensorUnitEndpoints): (r: Option<string>)
    ensures r.None? <==> SensorUnitEndpointsComplete(x)
  {
    if x.endpoint.url == "" then Some("sensorunit endpoints URL is required")
    else if x.temperatures == "" then Some("sensorunit endpoints temperatures path is required")
    else if x.display == "" then Some("sensorunit endpoints display path is required")
    else if x.endpoint.status == "" then Some("sensorunit endpoints status path is required")
    else None
  }

  function PowerUnitEndpointsError(x: PowerUnitEndpoints): (r: Option<string>)
    ensures r.None? <==> PowerUnitEndpointsComplete(x)
  {
    if x.endpoint.url == "" then Some("powerunit endpoints URL is required")
    else if x.endpoint.status == "" then Some("powerunit endpoints status path is required")
    else if x.power == "" then Some("powerunit endpoints power path is required")
    else None
  }

  function StorageEndpointsError(x: StorageEndpoints): (r: Option<string>)
    ensures r.None? <==> StorageEndpointsComplete(x)
  {
    if x.endpoint.url == "" then Some("storage endpoints URL is required")
    else if x.programs == "" then Some("storage endpoints programs path is required")
    else if x.executionLog == "" then Some("storage endpoints execution log path is required")
    else if x.endpoint.status == "" then Some("storage endpoints status path is required")
    else None
  }

  /** The endpoints section: present, then each service's endpoints in the order executor, sensor unit, power unit, storage. */
  function EndpointsError(a: Option<APIEndpoints>): (r: Option<string>)
    ensures r.None? <==> EndpointsComplete(a)
    ensures a.None? ==> r == Some("API endpoints configuration is required")
  {
    if a.None? then Some("API endpoints configuration is required")
    else
      var x := a.value;
      var e := ExecutorEndpointsError(x.executor);
      if e.Some? then e
      else
        var s := SensorUnitEndpointsError(x.sensorUnit);
        if s.Some? then s
        else
          var p := PowerUnitEndpointsError(x.powerUnit);
          if p.Some? then p
          else StorageEndpointsError(x.storage)
  }

  /** The first error of a list of checks run in order. */
  function FirstError(errors: seq<Option<string>>): (r: Option<string>)
    ensures r.None? <==> forall i :: 0 <= i < |errors| ==> errors[i].None?
    ensures r.Some? ==> exists i :: 0 <= i < |errors| && errors[i] == r && forall j :: 0 <= j < i ==> errors[j].None?
  {
    if errors == [] then None
    else if errors[0].Some? then errors[0]
    else
      var rest := FirstError(errors[1..]);
      assert forall i :: 1 <= i < |errors| ==> errors[i] == errors[1..][i - 1];
      if rest.Some? then
        var i :| 0 <= i < |errors[1..]| && errors[1..][i] == rest && forall j :: 0 <= j < i ==> errors[1..][j].None?;
        assert errors[i + 1] == rest && forall j :: 0 <= j < i + 1 ==> errors[j].None?;
        rest
      else rest
  }

  /** The sections' results in the order `ValidateRequired` checks them. */
  function SectionErrors(c: HalkoConfig): seq<Option<string>> {
    [ExecutorError(c.executor), SensorUnitError(c.sensorUnit), PowerUnitError(c.powerUnit),
     StorageError(c.storage), EndpointsError(c.apiEndpoints)]
  }

  /**
   * `ValidateRequired`: nil exactly when the configuration is complete; otherwise the error of
   * the first section, in the order executor, sensor unit, power unit, storage, endpoints,
   * that is incomplete, which is its first failing check.
   */
  function ValidateRequired(c: HalkoConfig): (r: Option<string>)
    ensures r.None? <==> Complete(c)
    ensures r.Some? ==> exists i :: 0 <= i < 5 && SectionErrors(c)[i] == r && forall j :: 0 <= j < i ==> SectionErrors(c)[j].None?
  {
    var errors := SectionErrors(c);
    assert (forall i :: 0 <= i < 5 ==> errors[i].None?) <==>
      errors[0].None? && errors[1].None? && errors[2].None? && errors[3].None? && errors[4].None?;
    FirstError(errors)
  }

  /** A configuration without its executor section is reported for that, whatever else is missing. */
  lemma MissingExecutorFirst(c: HalkoConfig)
    requires c.executor.None?
    ensures ValidateRequired(c) == Some("executor configuration is required")
  {
    assert SectionErrors(c)[0] == Some("executor configuration is required");
  }

  /** Only when every earlier section is complete is the endpoints section's error reported. */
  lemma EndpointsReportedLast(c: HalkoConfig)
    requires ExecutorComplete(c.executor) && SensorUnitComplete(c.sensorUnit) && PowerUnitComplete(c.powerUnit) && StorageComplete(c.storage)
    ensures ValidateRequired(c) == EndpointsError(c.apiEndpoints)
  {
    var errors := SectionErrors(c);
    assert errors[1..][1..][1..][1..][1..] == [];
  }

  /** The getters' URL: the base URL immediately followed by the path, with no separator added. */
  function ServiceURL(base: string, path: string): (r: string)
    ensures |r| == |base| + |path| && r[..|base|] == base && r[|base|..] == path
  {
    base + path
  }

  function StatusURL(e: Endpoint): string { ServiceURL(e.url, e.status) }
  function ExecutorProgramsURL(e: ExecutorEndpoints): string { ServiceURL(e.endpoint.url, e.programs) }
  function ExecutorRunningURL(e: ExecutorEndpoints): string { ServiceURL(e.endpoint.url, e.running) }
  function TemperaturesURL(e: SensorUnitEndpoints): string { ServiceURL(e.endpoint.url, e.temperatures) }
  function DisplayURL(e: SensorUnitEndpoints): string { ServiceURL(e.endpoint.url, e.display) }
  function PowerURL(e: PowerUnitEndpoints): string { ServiceURL(e.endpoint.url, e.power) }
  function StorageProgramsURL(e: StorageEndpoints): string { ServiceURL(e.endpoint.url, e.programs) }
  function ExecutionLogURL(e: StorageEndpoints): string { ServiceURL(e.endpoint.url, e.executionLog) }

  /** What `url.Parse` yields that `GetPort` uses: the scheme and the explicit port ("" when none). */
  datatype ParsedURL = ParsedURL(scheme: string, port: string)

  /**
   * `GetPort`: the port of the given URL, or of the endpoint's own when none (or "") is given.
   * An explicit port is returned as written; otherwise http means "80" and https "443". An
   * empty URL, one `parse` rejects and any other scheme are errors.
   */
  function GetPort(e: Endpoint, urlStr: seq<string>, parse: string -> Result<ParsedURL>): (r: Result<string>)
    ensures var target := if |urlStr| > 0 && urlStr[0] != "" then urlStr[0] else e.url;
      && (target == "" ==> r == Err("empty URL"))
      && (target != "" && parse(target).Err? ==> r.Err?)
      && (target != "" && parse(target).Ok? && parse(target).value.port != "" ==> r == Ok(parse(target).value.port))
      && (r.Ok? ==> target != "" && parse(target).Ok? && (r.value == parse(target).value.port || r.value in {"80", "443"}))
      && (target != "" && parse(target).Ok? && parse(target).value.port == "" ==>
            (r == Ok("80") <==> parse(target).value.scheme == "http") &&
            (r == Ok("443") <==> parse(target).value.scheme == "https") &&
            (r.Err? <==> parse(target).value.scheme !in {"http", "https"}))
  {
    var target := if |urlStr| > 0 && urlStr[0] != "" then urlStr[0] else e.url;
    if target == "" then Err("empty URL")
    else
      match parse(target)
      case Err(msg) => Err("failed to parse URL: " + msg)
      case Ok(u) =>
        if u.port != "" then Ok(u.port)
        else if u.scheme == "http" then Ok("80")
        else if u.scheme == "https" then Ok("443")
        else Err("unsupported scheme: " + u.scheme)
  }

  /** A non-empty argument decides the port whatever the endpoint's own URL is. */
  lemma ArgumentOverrides(e1: Endpoint, e2: Endpoint, u: string, parse: string -> Result<ParsedURL>)
    requires u != ""
    ensures GetPort(e1, [u], parse) == GetPort(e2, [u], parse)
  {
  }
}
