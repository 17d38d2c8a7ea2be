/** The endpoint settings the plugin reads when it is enabled, and how it
    classifies the outcome of an HTTP request. The configuration store is a
    map from dotted keys to strings; a missing key yields the default the
    plugin passes to getString. */
module Config {
  import opened Common

  const UNCONFIGURED_API_URL: string := "UNCONFIGURED_BASE_API_URL"

  const KEY_API_URL: string := "apiUrl"
  const KEY_REPORT_ENDPOINT: string := "reportEndpoint"
  const KEY_MONITOR_METHOD: string := "monitoredBlocks.method"
  const KEY_MONITOR_ENDPOINT: string := "monitoredBlocks.endpoint"
  const KEY_UPDATE_METHOD: string := "monitoredBlocks.update.method"
  const KEY_UPDATE_ENDPOINT: string := "monitoredBlocks.update.endpoint"
  const KEY_BATCH_METHOD: string := "monitoredBlocks.batch.method"
  const KEY_BATCH_ENDPOINT: string := "monitoredBlocks.batch.endpoint"

  /** getString(key, def) */
  function GetString(cfg: map<string, string>, key: string, def: string): (v: string)
    ensures key in cfg ==> v == cfg[key]
    ensures key !in cfg ==> v == def
  {
    if key in cfg then cfg[key] else def
  }

  /** The three report channels: where each one sends and with which method. */
  datatype Endpoints = Endpoints(
    apiUrl: string,
    commandReportUrl: string, commandReportMethod: string,
    monitorBatchUrl: string, monitorBatchMethod: string,
    monitorUpdateUrl: string, monitorUpdateMethod: string)

  /** The monitored-blocks default method: monitoredBlocks.method, else PUT, upper-cased. */
  function MonitorDefaultMethod(cfg: map<string, string>): string {
    ToUpper(GetString(cfg, KEY_MONITOR_METHOD, "PUT"))
  }

  function MonitorDefaultPath(cfg: map<string, string>): string {
    GetString(cfg, KEY_MONITOR_ENDPOINT, "/monitor")
  }

  /** The default chain of onEnable: each monitor channel takes its own
      method and path if configured, else the monitored-blocks defaults;
      the command channel always uses POST; every URL is the base URL
      followed by the channel's path. */
  function ResolveEndpoints(cfg: map<string, string>): Endpoints {
    var api := GetString(cfg, KEY_API_URL, UNCONFIGURED_API_URL);
    var defaultMethod := MonitorDefaultMethod(cfg);
    var defaultPath := MonitorDefaultPath(cfg);
    Endpoints(
      api,
      api + GetString(cfg, KEY_REPORT_ENDPOINT, "/report"), "POST",
      api + GetString(cfg, KEY_BATCH_ENDPOINT, defaultPath), ToUpper(GetString(cfg, KEY_BATCH_METHOD, defaultMethod)),
      api + GetString(cfg, KEY_UPDATE_ENDPOINT, defaultPath), ToUpper(GetString(cfg, KEY_UPDATE_METHOD, defaultMethod)))
  }

  /** The command channel always uses POST on apiUrl + reportEndpoint
      (default /report); each monitor URL starts with apiUrl (default
      UNCONFIGURED_BASE_API_URL) and ends with its own path. */
  lemma CommandChannelAndUrls(cfg: map<string, string>)
    ensures var e := ResolveEndpoints(cfg);
      && e.commandReportMethod == "POST"
      && e.apiUrl == (if KEY_API_URL in cfg then cfg[KEY_API_URL] else UNCONFIGURED_API_URL)
      && e.commandReportUrl == e.apiUrl + (if KEY_REPORT_ENDPOINT in cfg then cfg[KEY_REPORT_ENDPOINT] else "/report")
      && e.monitorUpdateUrl[..|e.apiUrl|] == e.apiUrl
      && e.monitorBatchUrl[..|e.apiUrl|] == e.apiUrl
      && e.monitorUpdateUrl[|e.apiUrl|..] == GetString(cfg, KEY_UPDATE_ENDPOINT, GetString(cfg, KEY_MONITOR_ENDPOINT, "/monitor"))
      && e.monitorBatchUrl[|e.apiUrl|..] == GetString(cfg, KEY_BATCH_ENDPOINT, GetString(cfg, KEY_MONITOR_ENDPOINT, "/monitor"))
  {
    var e := ResolveEndpoints(cfg);
    assert e.monitorUpdateUrl == e.apiUrl + e.monitorUpdateUrl[|e.apiUrl|..];
  }

  /** With no method configured anywhere, both monitor channels use PUT. */
  lemma MonitorMethodsDefaultToPut(cfg: map<string, string>)
    requires KEY_MONITOR_METHOD !in cfg && KEY_UPDATE_METHOD !in cfg && KEY_BATCH_METHOD !in cfg
    ensures ResolveEndpoints(cfg).monitorUpdateMethod == "PUT"
    ensures ResolveEndpoints(cfg).monitorBatchMethod == "PUT"
  {
    assert ToUpper("PUT") == "PUT";
    ToUpperIdempotent("PUT");
  }

  /** A channel without its own method falls back to the upper-cased
      monitored-blocks method; a channel with one uses it upper-cased.
      Either way the method has no lower-case letter. */
  lemma MonitorMethodsFollowDefault(cfg: map<string, string>)
    ensures var e := ResolveEndpoints(cfg);
      && (KEY_UPDATE_METHOD !in cfg ==> e.monitorUpdateMethod == MonitorDefaultMethod(cfg))
      && (KEY_BATCH_METHOD !in cfg ==> e.monitorBatchMethod == MonitorDefaultMethod(cfg))
      && (KEY_UPDATE_METHOD in cfg ==> e.monitorUpdateMethod == ToUpper(cfg[KEY_UPDATE_METHOD]))
      && (KEY_BATCH_METHOD in cfg ==> e.monitorBatchMethod == ToUpper(cfg[KEY_BATCH_METHOD]))
      && (forall i :: 0 <= i < |e.monitorUpdateMethod| ==> !IsLowerAscii(e.monitorUpdateMethod[i]))
      && (forall i :: 0 <= i < |e.monitorBatchMethod| ==> !IsLowerAscii(e.monitorBatchMethod[i]))
  {
    ToUpperIdempotent(GetString(cfg, KEY_MONITOR_METHOD, "PUT"));
  }

  /** The plugin warns at start-up when apiUrl is missing, is the
      placeholder, or is empty. */
  predicate ApiUrlUnconfigured(cfg: map<string, string>) {
    var api := GetString(cfg, KEY_API_URL, UNCONFIGURED_API_URL);
    api == UNCONFIGURED_API_URL || api == ""
  }

  lemma ApiUrlWarning(cfg: map<string, string>)
    ensures ApiUrlUnconfigured(cfg) <==>
      (KEY_API_URL !in cfg || cfg[KEY_API_URL] == UNCONFIGURED_API_URL || cfg[KEY_API_URL] == "")
  {
  }

  /** The outcome of an asynchronous request: a status code, or a transport
      failure (refused connection, timeout, name resolution). */
  datatype Response = Status(code: int) | TransportFailure

  datatype LogLevel = Info | Warning | Severe

  /** How the send callback logs a response: success for 2xx, a warning for
      any other status, an error for a transport failure. */
  function Classify(r: Response): (level: LogLevel)
    ensures level == Info <==> r.Status? && 200 <= r.code < 300
    ensures level == Warning <==> r.Status? && !(200 <= r.code < 300)
    ensures level == Severe <==> r.TransportFailure?
  {
    match r
    case Status(code) => if code >= 200 && code < 300 then Info else Warning
    case TransportFailure => Severe
  }
}
