/** ibkr_client.py: IBKRClient fetches broker data over HTTP from the service
    selected by the persisted mode, and turns one HTTP outcome into a fixed
    record {ok, mode, url, data, error}. The client holds no state. */
module IbkrClient {
  import opened Wrappers
  import opened JsonValues
  import opened AdminMode

  const LOCAL_URL: string := "http://127.0.0.1:6001"
  const VPS_URL: string := "http://127.0.0.1:6002"
  const STATUS_PATH: string := "/api/ibkr/status"
  const POSITIONS_PATH: string := "/api/ibkr/positions"

  /** The body of an HTTP answer: JSON, or text that `resp.json()` cannot parse. */
  datatype Body = JsonBody(value: Json) | RawBody(text: string)

  /** What `requests.get` produced: a transport failure (refused, timed out),
      or an answer with a status code and a body. */
  datatype HttpOutcome = TransportError(reason: string) | Answered(status: int, body: Body)

  /** The exception caught by `_request_json`, standing for its `str(e)`. */
  datatype ClientError = TransportFailed(reason: string) | HttpStatusError(status: int) | InvalidJson(text: string)

  datatype RequestResult = RequestResult(ok: bool, mode: string, url: string, data: Json, error: Option<ClientError>)

  /** `raise_for_status` raises for client (4xx) and server (5xx) errors only. */
  predicate IsErrorStatus(status: int) {
    400 <= status < 600
  }

  /** The request neither raised nor returned an error status nor an unparseable body. */
  predicate Succeeded(o: HttpOutcome) {
    o.Answered? && !IsErrorStatus(o.status) && o.body.JsonBody?
  }

  /** get_base_url as a table: VPS goes to port 6002, LOCAL and anything else to 6001. */
  function BaseUrl(mode: string): (u: string)
    ensures u == VPS_URL <==> mode == "VPS"
    ensures u == LOCAL_URL <==> mode != "VPS"
  {
    if mode == "LOCAL" then LOCAL_URL
    else if mode == "VPS" then VPS_URL
    else LOCAL_URL
  }

  /** get_base_url: the base address for the mode read from the file. */
  function GetBaseUrl(f: ModeFile): (u: string)
    ensures u == VPS_URL <==> GetAdminMode(f) == "VPS"
    ensures u == LOCAL_URL <==> GetAdminMode(f) == "LOCAL"
    ensures u == VPS_URL || u == LOCAL_URL
    ensures f.Missing? || f.Unreadable? ==> u == LOCAL_URL
  {
    BaseUrl(GetAdminMode(f))
  }

  /** _request_json: `ok` and `data` on success, `error` on any failure, with the
      mode and the requested URL echoed either way. Both reads of the mode see
      the same file. */
  function RequestJson(f: ModeFile, path: string, outcome: HttpOutcome): (r: RequestResult)
    ensures r.url == GetBaseUrl(f) + path
    ensures r.mode == GetAdminMode(f)
    ensures r.ok <==> Succeeded(outcome)
    ensures r.ok <==> r.error.None?
    ensures r.ok ==> r.data == outcome.body.value
    ensures !r.ok ==> r.data == JNull
    ensures outcome.TransportError? ==> r.error == Some(TransportFailed(outcome.reason))
    ensures outcome.Answered? && IsErrorStatus(outcome.status) ==> r.error == Some(HttpStatusError(outcome.status))
  {
    var url := GetBaseUrl(f) + path;
    var mode := GetAdminMode(f);
    match outcome
    case TransportError(reason) =>
      RequestResult(false, mode, url, JNull, Some(TransportFailed(reason)))
    case Answered(status, body) =>
      if IsErrorStatus(status) then
        RequestResult(false, mode, url, JNull, Some(HttpStatusError(status)))
      else
        match body
        case JsonBody(value) => RequestResult(true, mode, url, value, None)
        case RawBody(text) => RequestResult(false, mode, url, JNull, Some(InvalidJson(text)))
  }

  /** get_status: the remote status endpoint. */
  function GetStatus(f: ModeFile, outcome: HttpOutcome): (r: RequestResult)
    ensures r.url == GetBaseUrl(f) + STATUS_PATH
    ensures r.ok <==> Succeeded(outcome)
  {
    RequestJson(f, STATUS_PATH, outcome)
  }

  /** get_positions: the remote positions endpoint. */
  function GetPositions(f: ModeFile, outcome: HttpOutcome): (r: RequestResult)
    ensures r.url == GetBaseUrl(f) + POSITIONS_PATH
    ensures r.ok <==> Succeeded(outcome)
  {
    RequestJson(f, POSITIONS_PATH, outcome)
  }

  /** A client created after a successful write of VPS talks to port 6002, and
      one created after a write of LOCAL to port 6001. */
  lemma RequestAfterModeWrite(m: string, path: string, outcome: HttpOutcome)
    requires IsValidMode(m)
    ensures RequestJson(ModeRecord(m), path, outcome).url
            == (if m == "VPS" then VPS_URL else LOCAL_URL) + path
    ensures RequestJson(ModeRecord(m), path, outcome).mode == m
  {
  }
}
