/** admin_app_OLD_20251127.py: the older admin panel. It finds the first
    "positions" list anywhere in the broker's JSON, flattens its entries into
    table rows (skipping those that do not convert), and toggles the mode on POST. */
module AdminPanel {
  import opened Wrappers
  import opened JsonValues
  import opened AdminMode

  /** One row of the positions table. */
  datatype PositionRow = PositionRow(symbol: Json, position: real, avgCost: real, currency: Json, account: Json)

  /** The reply to POST /admin: a redirect back to the panel, or a 500 when
      set_ibkr_mode raised. */
  datatype PanelReply = Redirect | InternalError

  /** What the GET branch hands to the template (page rendering is not modelled). */
  datatype PanelContext = PanelContext(currentMode: string, positions: seq<PositionRow>)

  /** The number of children the search visits: dict values or list items. */
  function Width(j: Json): nat {
    match j
    case JObj(fields) => |fields|
    case JArr(items) => |items|
    case _ => 0
  }

  /** The i-th dict value or list item, in iteration order. */
  function Child(j: Json, i: nat): (c: Json)
    requires i < Width(j)
    ensures c < j
  {
    if j.JObj? then j.fields[i].1 else j.items[i]
  }

  /** The list under "positions", when `j` is a dict whose "positions" is a list. */
  function DirectList(j: Json): Option<seq<Json>> {
    if j.JObj? then
      match Get(j.fields, "positions")
      case Some(JArr(ps)) => Some(ps)
      case _ => None
    else None
  }

  /** extract_positions: a dict's own "positions" list if it has one; otherwise
      the first result of searching its values (or a list's items) in order;
      None for scalars and for trees without such a list. */
  function ExtractPositions(j: Json): (r: Option<seq<Json>>)
    ensures DirectList(j).Some? ==> r == DirectList(j)
    ensures !j.JObj? && !j.JArr? ==> r.None?
    decreases j, 1
  {
    if DirectList(j).Some? then DirectList(j) else SearchChildren(j, 0)
  }

  /** The loop over `obj.values()` / the list's items, from the i-th on. */
  function SearchChildren(j: Json, i: nat): (r: Option<seq<Json>>)
    requires i <= Width(j)
    decreases j, 0, Width(j) - i
  {
    if i == Width(j) then None
    else
      var res := ExtractPositions(Child(j, i));
      if res.Some? then res else SearchChildren(j, i + 1)
  }

  /** `ps` is the "positions" list of `j` or of a dict somewhere inside it. */
  ghost predicate HoldsPositions(j: Json, ps: seq<Json>)
    decreases j
  {
    DirectList(j) == Some(ps) ||
    exists i :: 0 <= i < Width(j) && HoldsPositions(Child(j, i), ps)
  }

  /** Soundness of the search: whatever it returns is a "positions" list of the tree. */
  lemma {:induction false} ExtractSound(j: Json)
    requires ExtractPositions(j).Some?
    ensures HoldsPositions(j, ExtractPositions(j).value)
    decreases j, 1
  {
    if DirectList(j).None? {
      SearchSound(j, 0);
    }
  }

  lemma {:induction false} SearchSound(j: Json, i: nat)
    requires i <= Width(j) && SearchChildren(j, i).Some?
    ensures HoldsPositions(j, SearchChildren(j, i).value)
    decreases j, 0, Width(j) - i
  {
    var res := ExtractPositions(Child(j, i));
    if res.Some? {
      ExtractSound(Child(j, i));
    } else {
      SearchSound(j, i + 1);
    }
  }

  /** Completeness of the search: if the tree holds a "positions" list anywhere,
      the search finds one (the first in depth-first order). */
  lemma {:induction false} ExtractComplete(j: Json, ps: seq<Json>)
    requires HoldsPositions(j, ps)
    ensures ExtractPositions(j).Some?
    decreases j, 1
  {
    if DirectList(j).None? {
      var k :| 0 <= k < Width(j) && HoldsPositions(Child(j, k), ps);
      ExtractComplete(Child(j, k), ps);
      SearchReaches(j, 0, k);
    }
  }

  lemma {:induction false} SearchReaches(j: Json, i: nat, k: nat)
    requires i <= k < Width(j) && ExtractPositions(Child(j, k)).Some?
    ensures SearchChildren(j, i).Some?
    decreases k - i
  {
    if ExtractPositions(Child(j, i)).None? {
      SearchReaches(j, i + 1, k);
    }
  }

  /** None exactly when no "positions" list occurs anywhere in the tree. */
  lemma ExtractNoneIff(j: Json)
    ensures ExtractPositions(j).None? <==> forall ps :: !HoldsPositions(j, ps)
  {
    if ExtractPositions(j).Some? {
      ExtractSound(j);
      var found := ExtractPositions(j).value;
      assert HoldsPositions(j, found);
      assert exists ps :: HoldsPositions(j, ps);
    } else {
      forall ps | HoldsPositions(j, ps) ensures false {
        ExtractComplete(j, ps);
      }
    }
  }

  /** Depth-first order: without a list of its own, a dict (or list) yields
      the result of its first child whose search succeeds. */
  lemma {:induction false} ExtractPicksFirstChild(j: Json, k: nat)
    requires DirectList(j).None? && k < Width(j)
    requires forall i :: 0 <= i < k ==> ExtractPositions(Child(j, i)).None?
    requires ExtractPositions(Child(j, k)).Some?
    ensures ExtractPositions(j) == ExtractPositions(Child(j, k))
  {
    SearchSkips(j, 0, k);
  }

  lemma {:induction false} SearchSkips(j: Json, i: nat, k: nat)
    requires i <= k < Width(j)
    requires forall n :: i <= n < k ==> ExtractPositions(Child(j, n)).None?
    requires ExtractPositions(Child(j, k)).Some?
    ensures SearchChildren(j, i) == ExtractPositions(Child(j, k))
    decreases k - i
  {
    if i < k {
      SearchSkips(j, i + 1, k);
    }
  }

  /** A "positions" entry that is not a list is passed over: the search goes on
      into the dict's values, the "positions" value among them. */
  lemma NonListPositionsSearched(fields: seq<(string, Json)>)
    requires HasKey(fields, "positions") && !GetOr(fields, "positions", JNull).JArr?
    ensures ExtractPositions(JObj(fields)) == SearchChildren(JObj(fields), 0)
  {
  }

  /** The row for one entry, or None when the loop body raises: the entry is
      not a dict, or "position"/"avgCost" does not convert with `float`. */
  function ConvertEntry(p: Json, parse: string -> Option<real>): (r: Option<PositionRow>)
    ensures r.Some? <==> p.JObj?
                         && PyFloat(GetOr(p.fields, "position", JNum(0.0)), parse).Some?
                         && PyFloat(GetOr(p.fields, "avgCost", JNum(0.0)), parse).Some?
    ensures r.Some? ==>
      var symbol := GetOr(p.fields, "symbol", JNull);
      var local := GetOr(p.fields, "localSymbol", JNull);
      && (Truthy(symbol) ==> r.value.symbol == symbol)
      && (!Truthy(symbol) && Truthy(local) ==> r.value.symbol == local)
      && (!Truthy(symbol) && !Truthy(local) ==> r.value.symbol == JStr(""))
    ensures r.Some? ==>
      && r.value.position == PyFloat(GetOr(p.fields, "position", JNum(0.0)), parse).value
      && r.value.avgCost == PyFloat(GetOr(p.fields, "avgCost", JNum(0.0)), parse).value
      && r.value.currency == GetOr(p.fields, "currency", JStr(""))
      && r.value.account == GetOr(p.fields, "account", JStr(""))
    ensures r.Some? && !HasKey(p.fields, "position") ==> r.value.position == 0.0
    ensures r.Some? && !HasKey(p.fields, "currency") ==> r.value.currency == JStr("")
  {
    if !p.JObj? then None
    else
      var f := p.fields;
      var symbol := OrElse(OrElse(GetOr(f, "symbol", JNull), GetOr(f, "localSymbol", JNull)), JStr(""));
      var position := PyFloat(GetOr(f, "position", JNum(0.0)), parse);
      var avgCost := PyFloat(GetOr(f, "avgCost", JNum(0.0)), parse);
      if position.None? || avgCost.None? then None
      else Some(PositionRow(symbol, position.value, avgCost.value,
                            GetOr(f, "currency", JStr("")), GetOr(f, "account", JStr(""))))
  }

  /** The rows the loop builds from `raw`: converted entries, in order. */
  function Flatten(raw: seq<Json>, parse: string -> Option<real>): (rows: seq<PositionRow>)
    ensures |rows| <= |raw|
  {
    if raw == [] then []
    else
      var last := raw[|raw| - 1];
      Flatten(raw[..|raw| - 1], parse)
        + (match ConvertEntry(last, parse) case Some(row) => [row] case None => [])
  }

  /** Order is kept: flattening distributes over concatenation. */
  lemma {:induction false} FlattenAppend(a: seq<Json>, b: seq<Json>, parse: string -> Option<real>)
    ensures Flatten(a + b, parse) == Flatten(a, parse) + Flatten(b, parse)
    decreases |b|
  {
    if b == [] {
      assert a + b == a;
    } else {
      var b' := b[..|b| - 1];
      assert (a + b)[..|a + b| - 1] == a + b';
      assert (a + b)[|a + b| - 1] == b[|b| - 1];
      FlattenAppend(a, b', parse);
    }
  }

  /** Every row comes from an entry of `raw`, and every entry that converts
      gives its row. */
  lemma {:induction false} FlattenRowsFromEntries(raw: seq<Json>, parse: string -> Option<real>, row: PositionRow)
    ensures row in Flatten(raw, parse)
            <==> exists i :: 0 <= i < |raw| && ConvertEntry(raw[i], parse) == Some(row)
  {
    if raw != [] {
      var init := raw[..|raw| - 1];
      FlattenRowsFromEntries(init, parse, row);
      if exists i :: 0 <= i < |raw| && ConvertEntry(raw[i], parse) == Some(row) {
        var i :| 0 <= i < |raw| && ConvertEntry(raw[i], parse) == Some(row);
        if i < |raw| - 1 {
          assert init[i] == raw[i];
        }
      }
      if exists i :: 0 <= i < |init| && ConvertEntry(init[i], parse) == Some(row) {
        var i :| 0 <= i < |init| && ConvertEntry(init[i], parse) == Some(row);
        assert raw[i] == init[i];
      }
    }
  }

  /** When every entry converts, no entry is dropped. */
  lemma {:induction false} FlattenKeepsAll(raw: seq<Json>, parse: string -> Option<real>)
    requires forall i :: 0 <= i < |raw| ==> ConvertEntry(raw[i], parse).Some?
    ensures |Flatten(raw, parse)| == |raw|
  {
    if raw != [] {
      var init := raw[..|raw| - 1];
      assert forall i :: 0 <= i < |init| ==> init[i] == raw[i];
      FlattenKeepsAll(init, parse);
    }
  }

  /** The extracted list, or [] when the fetch failed or nothing was found. */
  function RawPositions(positionsJson: Option<Json>): (raw: seq<Json>)
    ensures positionsJson.None? ==> raw == []
    ensures positionsJson.Some? && ExtractPositions(positionsJson.value).None? ==> raw == []
    ensures positionsJson.Some? && ExtractPositions(positionsJson.value).Some?
            ==> raw == ExtractPositions(positionsJson.value).value
  {
    if positionsJson.Some? then ExtractPositions(positionsJson.value).GetOr([]) else []
  }

  /** The flattening loop of admin(): append each entry's row, skip the entries
      whose conversion raises. */
  method FlattenPositions(raw: seq<Json>, parse: string -> Option<real>) returns (rows: seq<PositionRow>)
    ensures rows == Flatten(raw, parse)
  {
    rows := [];
    var i := 0;
    while i < |raw|
      invariant 0 <= i <= |raw|
      invariant rows == Flatten(raw[..i], parse)
    {
      var p := raw[i];
      var row := ConvertEntry(p, parse);
      assert raw[..i + 1][..i] == raw[..i];
      if row.Some? {
        rows := rows + [row.value];
      }
      i := i + 1;
    }
    assert raw[..|raw|] == raw;
  }

  /** The GET branch of admin(), apart from fetching and rendering: the mode in
      force and the flattened rows of the fetched positions document. */
  method AdminGet(f: ModeFile, positionsJson: Option<Json>, parse: string -> Option<real>)
    returns (ctx: PanelContext)
    ensures ctx.currentMode == GetIbkrMode(f)
    ensures ctx.positions == Flatten(RawPositions(positionsJson), parse)
    ensures |ctx.positions| <= |RawPositions(positionsJson)|
  {
    var rows := FlattenPositions(RawPositions(positionsJson), parse);
    ctx := PanelContext(GetIbkrMode(f), rows);
  }

  /** The POST branch of admin(): only an exact LOCAL or VPS is written; every
      POST redirects unless the write itself raised. */
  method AdminPost(store: ModeStore, form: Option<string>, writeOk: bool) returns (r: PanelReply)
    modifies store
    ensures !(form == Some("LOCAL") || form == Some("VPS")) ==> r == Redirect && store.file == old(store.file)
    ensures (form == Some("LOCAL") || form == Some("VPS")) && writeOk
            ==> r == Redirect && store.file == ModeRecord(form.value)
    ensures (form == Some("LOCAL") || form == Some("VPS")) && !writeOk
            ==> r == InternalError && store.file == old(store.file)
  {
    if form == Some("LOCAL") || form == Some("VPS") {
      ValidModesAreUpperCase(form.value);
      var o := SetIbkrMode(store, form, writeOk);
      if o.Fail? {
        return InternalError;
      }
    }
    r := Redirect;
  }
}
