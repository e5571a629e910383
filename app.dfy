/** app.py: the proxy API. Each broker route maps the client's result record to
    a response: 200 with the remote JSON when the client succeeded, 502 with the
    client's error otherwise. */
module ProxyApp {
  import opened Wrappers
  import opened JsonValues
  import opened AdminMode
  import opened IbkrClient

  const SERVICE: string := "esentrader-boru-api"

  /** The JSON body of a broker route: {mode, ok: true, url, remote} or
      {mode, ok: false, url, error}. */
  datatype ProxyReply =
    | Forwarded(mode: string, url: string, remote: Json)
    | UpstreamFailed(mode: string, url: string, error: Option<ClientError>)
  {
    function Ok(): bool { Forwarded? }
    function Code(): int { if Forwarded? then 200 else 502 }
  }

  datatype HealthReply = HealthReply(service: string, mode: string, status: string)

  /** The shaping shared by both broker routes. */
  function ShapeReply(result: RequestResult): (r: ProxyReply)
    ensures r.Ok() == result.ok
    ensures r.Code() == (if result.ok then 200 else 502)
    ensures r.mode == result.mode && r.url == result.url
    ensures r.Forwarded? ==> r.remote == result.data
    ensures r.UpstreamFailed? ==> r.error == result.error
  {
    if result.ok then Forwarded(result.mode, result.url, result.data)
    else UpstreamFailed(result.mode, result.url, result.error)
  }

  /** /api/ibkr/status */
  function ApiIbkrStatus(f: ModeFile, outcome: HttpOutcome): (r: ProxyReply)
    ensures r.Code() == 200 <==> Succeeded(outcome)
    ensures r.Code() == 502 <==> !Succeeded(outcome)
    ensures r.url == GetBaseUrl(f) + STATUS_PATH && r.mode == GetAdminMode(f)
    ensures r.Forwarded? ==> r.remote == outcome.body.value
    ensures r.UpstreamFailed? ==> r.error.Some?
  {
    ShapeReply(GetStatus(f, outcome))
  }

  /** /api/ibkr/positions */
  function ApiIbkrPositions(f: ModeFile, outcome: HttpOutcome): (r: ProxyReply)
    ensures r.Code() == 200 <==> Succeeded(outcome)
    ensures r.Code() == 502 <==> !Succeeded(outcome)
    ensures r.url == GetBaseUrl(f) + POSITIONS_PATH && r.mode == GetAdminMode(f)
    ensures r.Forwarded? ==> r.remote == outcome.body.value
    ensures r.UpstreamFailed? ==> r.error.Some?
  {
    ShapeReply(GetPositions(f, outcome))
  }

  /** /api/health: always "ok", reporting the mode currently in force. */
  function Health(f: ModeFile): (r: HealthReply)
    ensures r.status == "ok" && r.service == SERVICE
    ensures IsValidMode(r.mode) && r.mode == GetAdminMode(f)
  {
    HealthReply(SERVICE, GetAdminMode(f), "ok")
  }

  /** A failure of any kind never reaches the caller as a 200: a transport
      error, a 4xx/5xx answer and an unparseable body all give 502 and carry
      the error that caused them. */
  lemma FailuresAreBadGateway(f: ModeFile, outcome: HttpOutcome)
    requires outcome.TransportError? || IsErrorStatus(outcome.status) || outcome.body.RawBody?
    ensures ApiIbkrStatus(f, outcome).Code() == 502
    ensures ApiIbkrStatus(f, outcome).error == RequestJson(f, STATUS_PATH, outcome).error
    ensures ApiIbkrPositions(f, outcome).Code() == 502
  {
  }
}
