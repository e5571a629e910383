/** app_bozuk_2025-11-21.py: a draft of the API whose status routes never fail
    when the broker adapter raises, and whose POST /api/admin/mode validates
    the body before writing the mode through set_admin_mode.
    `get_ib_target` is imported from admin_mode.py but not defined there; the
    model takes its answer as an input (a lookup on the mode file). */
module AppBozuk {
  import opened Wrappers
  import opened JsonValues
  import opened Text
  import opened AdminMode

  const SERVICE: string := "esentrader-boru-api"
  const MODE_ERROR: string := "mode must be LOCAL or VPS"

  /** The record get_ib_target returns. */
  datatype IbTarget = IbTarget(mode: string, host: string, port: int, labelText: string)

  /** The body of /api/status. */
  datatype StatusSummary = StatusSummary(
    service: string, timeUtc: string, adminMode: string,
    host: string, port: int, labelText: string, ibkr: Json)

  /** The reply of POST /api/admin/mode: {"ok": true, **target}, a 400 with
      {"ok": false, "error"}, or a 500 from an exception nothing catches. */
  datatype SetModeReply = ModeSet(target: IbTarget) | ModeRejected(error: string) | InternalError {
    function Code(): int {
      match this
      case ModeSet(_) => 200
      case ModeRejected(_) => 400
      case InternalError => 500
    }
  }

  /** The fallback both status routes use when the adapter raises. */
  function Disconnected(message: string): (j: Json)
    ensures j.JObj?
    ensures Get(j.fields, "connected") == Some(JBool(false))
    ensures Get(j.fields, "error") == Some(JStr(message))
  {
    JObj([("connected", JBool(false)), ("error", JStr(message))])
  }

  /** The broker status, or the fallback when the call raised. */
  function GuardedStatus(call: Call<Json>): (j: Json)
    ensures call.Returned? ==> j == call.value
    ensures call.Raised? ==> j == Disconnected(call.message)
  {
    match call
    case Returned(status) => status
    case Raised(message) => Disconnected(message)
  }

  /** /api/status: always answers, carrying the target and the broker status
      (or its fallback). `now` is the clock reading. */
  function Status(call: Call<Json>, target: IbTarget, now: string): (r: StatusSummary)
    ensures r.service == SERVICE && r.timeUtc == now + "Z"
    ensures r.adminMode == target.mode
    ensures r.host == target.host && r.port == target.port && r.labelText == target.labelText
    ensures r.ibkr == GuardedStatus(call)
  {
    StatusSummary(SERVICE, now + "Z", target.mode, target.host, target.port, target.labelText,
                  GuardedStatus(call))
  }

  /** /api/ibkr/status: the broker's status as it is, or the fallback. */
  function IbkrStatus(call: Call<Json>): (j: Json)
    ensures call.Raised? ==> j == Disconnected(call.message)
    ensures call.Raised? ==> j.JObj? && Get(j.fields, "connected") == Some(JBool(false))
                             && Get(j.fields, "error") == Some(JStr(call.message))
    ensures call.Returned? ==> j == call.value
  {
    GuardedStatus(call)
  }

  /** Python's `str(v)` where it matters: the text of a string. The texts of the
      other values ("None", "True", digits, brackets) are represented by fixed
      texts that, like the real ones, never upper-case to LOCAL or VPS. */
  function ModeText(v: Json): (t: string)
    ensures v.JStr? ==> t == v.s
    ensures !v.JStr? ==> !IsValidMode(Upper(t))
  {
    match v
    case JStr(s) => s
    case JNull => "None"
    case JBool(b) => if b then "True" else "False"
    case JNum(_) => "0"
    case JArr(_) => "[]"
    case JObj(_) => "{}"
  }

  /** The mode a POST body asks for: `str(data.get("mode", "")).upper()`, where
      `data` is the parsed body or {} when there is none or it is falsy. None
      when the body is a truthy non-object, on which `.get` raises. */
  function RequestedMode(body: Option<Json>): (m: Option<string>)
    ensures body.None? ==> m == Some("")
    ensures body.Some? && !Truthy(body.value) ==> m == Some("")
    ensures body.Some? && body.value.JObj? && !HasKey(body.value.fields, "mode") ==> m == Some("")
    ensures body.Some? && body.value.JObj? && HasKey(body.value.fields, "mode")
            ==> m == Some(Upper(ModeText(GetOr(body.value.fields, "mode", JNull))))
    ensures m.None? <==> body.Some? && Truthy(body.value) && !body.value.JObj?
  {
    var data := if body.Some? && Truthy(body.value) then body.value else JObj([]);
    if !data.JObj? then None
    else Some(Upper(ModeText(GetOr(data.fields, "mode", JStr("")))))
  }

  /** api_set_mode_endpoint: 400 and no write unless the requested mode is LOCAL
      or VPS; otherwise set_admin_mode writes it and the reply merges ok:true
      into the target read afterwards. */
  method ApiSetMode(store: ModeStore, body: Option<Json>, writeOk: bool, targetOf: ModeFile -> IbTarget)
    returns (r: SetModeReply)
    modifies store
    ensures RequestedMode(body).None? ==> r == InternalError && store.file == old(store.file)
    ensures RequestedMode(body).Some? && !IsValidMode(RequestedMode(body).value)
            ==> r == ModeRejected(MODE_ERROR) && store.file == old(store.file)
    ensures RequestedMode(body).Some? && IsValidMode(RequestedMode(body).value) ==>
              && (writeOk ==> store.file == ModeRecord(RequestedMode(body).value)
                              && r == ModeSet(targetOf(store.file)))
              && (!writeOk ==> store.file == old(store.file) && r == InternalError)
    ensures r.ModeSet? ==> GetAdminMode(store.file) == RequestedMode(body).value
  {
    var mode := RequestedMode(body);
    if mode.None? {
      return InternalError;
    }
    if !IsValidMode(mode.value) {
      return ModeRejected(MODE_ERROR);
    }
    UpperIdempotent(ModeText(GetOr(if body.Some? && Truthy(body.value) then body.value.fields else [], "mode", JStr(""))));
    var written := SetAdminMode(store, Some(mode.value), writeOk);
    if written.Failure? {
      return InternalError;
    }
    r := ModeSet(targetOf(store.file));
  }

  /** A body without a "mode" entry, or with one that is not a string, is
      never accepted. */
  lemma MissingOrNonStringModeRejected(fields: seq<(string, Json)>)
    requires !HasKey(fields, "mode") || !GetOr(fields, "mode", JNull).JStr?
    ensures RequestedMode(Some(JObj(fields))).Some?
    ensures !IsValidMode(RequestedMode(Some(JObj(fields))).value)
  {
  }
}
