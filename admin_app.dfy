/** admin_app.py: a second reader and writer of the same mode file. Unlike
    admin_mode.py it does not validate what it reads back, and it swallows
    write errors. */
module AdminApp {
  import opened Wrappers
  import opened JsonValues
  import opened Text
  import opened AdminMode

  /** The reply of POST /admin/set-mode/<mode>. */
  datatype SetModeReply = Saved(mode: string) | InvalidModeReply {
    function Code(): int { if Saved? then 200 else 400 }
    /** The "status" field of the JSON body. */
    function Status(): string { if Saved? then "ok" else "error" }
  }

  /** load_mode: LOCAL when the file is missing, unreadable or holds no "mode"
      key; otherwise whatever the "mode" key holds, unchecked. */
  function LoadMode(f: ModeFile): (m: Json)
    ensures f.Missing? || f.Unreadable? ==> m == JStr(DEFAULT_MODE)
    ensures StoredModeField(f).None? ==> m == JStr(DEFAULT_MODE)
    ensures StoredModeField(f).Some? ==> m == StoredModeField(f).value
  {
    match f
    case Missing => JStr(DEFAULT_MODE)
    case Unreadable => JStr(DEFAULT_MODE)
    case Stored(doc) =>
      if doc.JObj? then GetOr(doc.fields, "mode", JStr(DEFAULT_MODE))
      else JStr(DEFAULT_MODE)  // `data.get` raises, the handler falls back
  }

  /** save_mode: write {"mode": mode}; a failed write is swallowed. */
  method SaveMode(store: ModeStore, mode: string, writeOk: bool)
    modifies store
    ensures store.file == if writeOk then ModeRecord(mode) else old(store.file)
  {
    if writeOk {
      store.file := ModeRecord(mode);
    }
  }

  /** set_mode: upper-case the path argument, answer 400 without writing when it
      is not LOCAL or VPS, otherwise save it and echo it, even if the write
      silently failed. */
  method SetMode(store: ModeStore, mode: string, writeOk: bool) returns (r: SetModeReply)
    modifies store
    ensures IsValidMode(Upper(mode)) <==> r == Saved(Upper(mode))
    ensures !IsValidMode(Upper(mode)) <==> r == InvalidModeReply
    ensures r.InvalidModeReply? ==> store.file == old(store.file)
    ensures r.Saved? ==> store.file == if writeOk then ModeRecord(r.mode) else old(store.file)
    ensures r.Saved? && writeOk ==> LoadMode(store.file) == JStr(r.mode)
  {
    var m := Upper(mode);
    if !IsValidMode(m) {
      return InvalidModeReply;
    }
    SaveMode(store, m, writeOk);
    r := Saved(m);
  }

  /** Where the two readers agree: on every file whose "mode" entry is absent
      or is LOCAL or VPS, and so on every file either writer produced from an
      accepted mode. */
  lemma LoadModeAgreesOnValidFiles(f: ModeFile)
    requires StoredModeField(f).None?
             || StoredModeField(f) == Some(JStr("LOCAL"))
             || StoredModeField(f) == Some(JStr("VPS"))
    ensures LoadMode(f) == JStr(GetAdminMode(f))
  {
  }

  /** Where they part: a stored value that is not LOCAL or VPS is handed back
      by load_mode as it is, while get_admin_mode reads it as LOCAL. */
  lemma LoadModeDoesNotValidate(v: Json)
    requires v != JStr("LOCAL") && v != JStr("VPS")
    ensures var f := Stored(JObj([("mode", v)]));
      LoadMode(f) == v && GetAdminMode(f) == DEFAULT_MODE
  {
  }
}
