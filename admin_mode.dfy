/** admin_mode.py: the LOCAL/VPS selector persisted in admin_mode.json.
    Reading never fails (anything unexpected reads as LOCAL); writing accepts
    only LOCAL or VPS, after upper-casing. */
module AdminMode {
  import opened Wrappers
  import opened JsonValues
  import opened Text

  const DEFAULT_MODE: string := "LOCAL"

  predicate IsValidMode(m: string) {
    m == "LOCAL" || m == "VPS"
  }

  /** What the backing file holds: no file, a file that cannot be read or is
      not JSON, or a parsed JSON document (which need not be an object). */
  datatype ModeFile = Missing | Unreadable | Stored(doc: Json)

  /** The value under "mode", when the file holds a JSON object with that key. */
  function StoredModeField(f: ModeFile): Option<Json> {
    if f.Stored? && f.doc.JObj? then Get(f.doc.fields, "mode") else None
  }

  /** The document every writer of the file produces: {"mode": m}. */
  function ModeRecord(m: string): (f: ModeFile)
    ensures StoredModeField(f) == Some(JStr(m))
  {
    Stored(JObj([("mode", JStr(m))]))
  }

  /** The mode file on disk. admin_mode.py and admin_app.py name it by
      different paths; the model takes them to be the same file, as they are
      when the service is installed under /opt/esentrader-boru-api. */
  class ModeStore {
    var file: ModeFile

    constructor (initial: ModeFile)
      ensures file == initial
    {
      file := initial;
    }
  }

  datatype ModeError = InvalidMode(mode: string) | WriteFailed

  /** get_admin_mode: the stored mode when it is exactly LOCAL or VPS, and LOCAL
      in every other case (no file, unreadable file, a document that is not an
      object, no "mode" key, any other value). */
  function GetAdminMode(f: ModeFile): (m: string)
    ensures IsValidMode(m)
    ensures f.Missing? || f.Unreadable? ==> m == DEFAULT_MODE
    ensures m == "VPS" <==> StoredModeField(f) == Some(JStr("VPS"))
    ensures forall s :: StoredModeField(f) == Some(JStr(s)) && IsValidMode(s) ==> m == s
  {
    match f
    case Missing => DEFAULT_MODE
    case Unreadable => DEFAULT_MODE
    case Stored(doc) =>
      if !doc.JObj? then DEFAULT_MODE  // `data.get` raises, the handler falls back
      else
        var mode := GetOr(doc.fields, "mode", JStr(DEFAULT_MODE));
        if mode == JStr("LOCAL") || mode == JStr("VPS") then mode.s else DEFAULT_MODE
  }

  /** `(mode or "").upper()`: a missing or empty argument becomes "". */
  function NormalizeModeArg(mode: Option<string>): (m: string)
    ensures mode.None? ==> m == ""
    ensures mode.Some? ==> m == Upper(mode.value)
  {
    Upper(mode.GetOr(""))
  }

  /** set_admin_mode: validate the upper-cased argument, then overwrite the file.
      The ValueError is raised before the write, so a rejected mode leaves the
      file as it was; a failed write (an OSError) propagates as WriteFailed. */
  method SetAdminMode(store: ModeStore, mode: Option<string>, writeOk: bool)
    returns (r: Result<string, ModeError>)
    modifies store
    ensures var m := NormalizeModeArg(mode);
      && (!IsValidMode(m) ==> r == Failure(InvalidMode(m)) && store.file == old(store.file))
      && (IsValidMode(m) && !writeOk ==> r == Failure(WriteFailed) && store.file == old(store.file))
      && (IsValidMode(m) && writeOk ==> r == Success(m) && store.file == ModeRecord(m))
    ensures r.Success? ==> GetAdminMode(store.file) == r.value
  {
    var m := NormalizeModeArg(mode);
    if !IsValidMode(m) {
      return Failure(InvalidMode(m));
    }
    if !writeOk {
      return Failure(WriteFailed);
    }
    store.file := ModeRecord(m);
    r := Success(m);
  }

  /** get_ibkr_mode: the older name of get_admin_mode. */
  function GetIbkrMode(f: ModeFile): (m: string)
    ensures m == GetAdminMode(f)
  {
    GetAdminMode(f)
  }

  /** set_ibkr_mode: the older name of set_admin_mode; it discards the returned
      mode but still raises. */
  method SetIbkrMode(store: ModeStore, mode: Option<string>, writeOk: bool)
    returns (o: Outcome<ModeError>)
    modifies store
    ensures var m := NormalizeModeArg(mode);
      && (!IsValidMode(m) ==> o == Fail(InvalidMode(m)) && store.file == old(store.file))
      && (IsValidMode(m) && !writeOk ==> o == Fail(WriteFailed) && store.file == old(store.file))
      && (IsValidMode(m) && writeOk ==> o == Pass && store.file == ModeRecord(m))
  {
    var r := SetAdminMode(store, mode, writeOk);
    o := if r.Success? then Pass else Fail(r.error);
  }

  /** Reading back what a successful write stored gives the written mode,
      whatever the file held before. */
  lemma ModeRecordRoundTrip(m: string)
    requires IsValidMode(m)
    ensures GetAdminMode(ModeRecord(m)) == m
  {
  }

  /** LOCAL and VPS are their own upper-case forms, so upper-casing an accepted
      mode a second time (as set_admin_mode does after a caller did) changes nothing. */
  lemma ValidModesAreUpperCase(m: string)
    requires IsValidMode(m)
    ensures Upper(m) == m
  {
  }
}
