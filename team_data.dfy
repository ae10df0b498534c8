/** The truck-board export (database/Team_Data.py): each truck's monday.com
    board is read, its items in the "Schedule" and "Production Review"
    groups are turned into friendly-name rows, and one
    {vehicle, group, data} entry per allowed group is collected. */
module TeamData {
  import opened Py
  import Text
  import Seqs
  import Dicts
  import Loader

  /** The boards read, as (truck, board id) in the order written. */
  const TruckBoards: seq<(string, string)> := [
    ("NS02", "8120708467"), ("NS02B", "8120531280"), ("NS05", "8120783462"),
    ("NS06", "8120798328"), ("NS07", "8120866201"), ("NS08", "8120812895"),
    ("NS09", "8120843584"), ("NS10", "8120708467"), ("NS21", "8120879886")]

  /** The only groups exported. */
  const AllowedGroupTitles: seq<string> := ["Schedule", "Production Review"]

  /** Column id to friendly name, in the order written (the ids are
      distinct). */
  const TruckColumnMapping: seq<(string, string)> := [
    ("name", "Name"), ("date4", "Date"), ("status6", "Dispatch Status"),
    ("status2", "Load Status"), ("numbers3", "Quantity Left on Truck"),
    ("formula6", "Quantity Installed"), ("mirror6", "Client"),
    ("connect_boards", "Job Name"), ("mirror3", "Material Vendor"),
    ("mirror48", "Job Address"), ("mirror62", "Material"), ("mirror8", "Bid Qty"),
    ("mirror16", "Job Type"), ("formula24", "Job Conversion to Hours"),
    ("formula2", "Avg Qty Installed / Hour (Job)")]

  type Mapping = seq<(string, string)>

  // ---------------------------------------------------------------------
  // parse_column_values (Team_Data.py:192-234)
  // ---------------------------------------------------------------------

  /** `mapping.get(col_id)`: only a string id can be found; a list or dict
      id is unhashable and raises TypeError; any other value is absent. */
  function MappedKey(mapping: Mapping, id: Json): Result<Option<string>> {
    match id
    case Str(s) => Ok(Dicts.Lookup(mapping, s))
    case Arr(_) => Raise
    case Obj(_) => Raise
    case _ => Ok(None)
  }

  /** `item["name"]` of one linked item, which `", ".join` needs to be a
      string. */
  function ItemName(item: Json): Result<string> {
    var name :- Index(item, "name");
    if name.Str? then Ok(name.s) else Raise
  }

  /** A connect-boards column: the linked items' names joined by ", ", or ""
      when there are none. Iterating any other truthy value yields elements
      that cannot be indexed by "name", so it raises. */
  function LinkedNames(linked: Json): Result<Json> {
    if !Truthy(linked) then Ok(Str(""))
    else if linked.Arr? then
      var names :- MapOk(linked.items, ItemName);
      Ok(Str(Text.Join(names, ", ")))
    else Raise
  }

  /** The value of a mapped column: a mirror's `display_value` wins, then a
      relation's `linked_items`, then `text`. */
  function ColumnValue(col: Dict): Result<Json> {
    if "display_value" in col then Ok(Or(col["display_value"], Str("")))
    else if "linked_items" in col then LinkedNames(col["linked_items"])
    else Ok(Get(col, "text", Str("")))
  }

  /** What one column stores: nothing when its id is not mapped, otherwise
      its value under the friendly name. A column that is not a dict with
      an "id" raises. */
  function ColumnEntry(mapping: Mapping, col: Json): Result<seq<(string, Json)>> {
    var id :- Index(col, "id");
    var key :- MappedKey(mapping, id);
    if key.None? || key.value == "" then Ok([])
    else
      var val :- ColumnValue(col.fields);
      Ok([(key.value, val)])
  }

  function EntryOf(mapping: Mapping): Json -> Result<seq<(string, Json)>> {
    (col: Json) => ColumnEntry(mapping, col)
  }

  /** The dict `parse_column_values` returns. */
  function Parsed(mapping: Mapping, columns: seq<Json>): Result<Dict> {
    Dicts.StoreAll(columns, EntryOf(mapping))
  }

  /** `parse_column_values`: the loop over the columns, filling `parsed`. */
  method ParseColumnValues(mapping: Mapping, columns: seq<Json>) returns (r: Result<Dict>)
    ensures r == Parsed(mapping, columns)
  {
    var parsed: Dict := map[];
    for i := 0 to |columns|
      invariant Parsed(mapping, columns[..i]) == Ok(parsed)
    {
      assert columns[..i + 1] == columns[..i] + [columns[i]];
      Dicts.StoreAllSnoc(columns[..i], columns[i], EntryOf(mapping));
      var e := ColumnEntry(mapping, columns[i]);
      if e.Raise? {
        Dicts.StoreAllRaisePersists(columns, EntryOf(mapping), i + 1);
        return Raise;
      }
      if e.value != [] {
        assert Dicts.Store(parsed, e.value) == parsed[e.value[0].0 := e.value[0].1] by {
          assert e.value[..0] == [];
        }
        parsed := parsed[e.value[0].0 := e.value[0].1];
      }
    }
    assert columns[..|columns|] == columns;
    return Ok(parsed);
  }

  /** Every column stores at most one key, and it is a friendly name. */
  lemma ColumnEntryKey(mapping: Mapping, col: Json)
    ensures ColumnEntry(mapping, col).Ok? ==>
      |ColumnEntry(mapping, col).value| <= 1 &&
      forall j :: 0 <= j < |ColumnEntry(mapping, col).value| ==>
        ColumnEntry(mapping, col).value[j].0 in Dicts.Values(mapping)
  {
    if col.Obj? && "id" in col.fields && col.fields["id"].Str? {
      var s := col.fields["id"].s;
      if Dicts.Lookup(mapping, s).Some? {
        Dicts.LookupIsValue(mapping, s);
      }
    }
  }

  /** Columns whose id is not mapped contribute nothing: every key of the
      parsed dict is a friendly name of the mapping. */
  lemma ParsedKeys(mapping: Mapping, columns: seq<Json>)
    requires Parsed(mapping, columns).Ok?
    ensures forall k :: k in Parsed(mapping, columns).value ==> k in Dicts.Values(mapping)
  {
    var ks := set v | v in Dicts.Values(mapping);
    forall i, j | 0 <= i < |columns| && EntryOf(mapping)(columns[i]).Ok? &&
      0 <= j < |EntryOf(mapping)(columns[i]).value|
      ensures EntryOf(mapping)(columns[i]).value[j].0 in ks
    {
      ColumnEntryKey(mapping, columns[i]);
    }
    Dicts.StoreAllKeys(columns, EntryOf(mapping), ks);
  }

  /** The column `i` names the friendly key `k`. */
  predicate NamesKey(mapping: Mapping, col: Json, k: string) {
    col.Obj? && "id" in col.fields && col.fields["id"].Str? &&
    Dicts.Lookup(mapping, col.fields["id"].s) == Some(k) && k != ""
  }

  /** A column's entry mentions `k` exactly when its id is mapped to `k`. */
  lemma EntryNamesKey(mapping: Mapping, col: Json, k: string)
    requires ColumnEntry(mapping, col).Ok?
    ensures Dicts.Lookup(ColumnEntry(mapping, col).value, k).Some? <==> NamesKey(mapping, col, k)
    ensures NamesKey(mapping, col, k) ==>
      ColumnValue(col.fields).Ok? &&
      Dicts.Lookup(ColumnEntry(mapping, col).value, k) == Some(ColumnValue(col.fields).value)
  {
    var e := ColumnEntry(mapping, col).value;
    if e != [] {
      assert e[..0] == [];
    }
  }

  /** Each friendly key holds the value of the LAST column mapped to it, and
      that value follows the precedence display_value, linked_items,
      text. */
  lemma LastColumnWins(mapping: Mapping, columns: seq<Json>, i: nat, k: string)
    requires Parsed(mapping, columns).Ok?
    requires i < |columns| && NamesKey(mapping, columns[i], k)
    requires forall j :: i < j < |columns| ==> !NamesKey(mapping, columns[j], k)
    ensures ColumnValue(columns[i].fields).Ok?
    ensures k in Parsed(mapping, columns).value
    ensures Parsed(mapping, columns).value[k] == ColumnValue(columns[i].fields).value
  {
    Dicts.StoreAllOk(columns, EntryOf(mapping));
    EntryNamesKey(mapping, columns[i], k);
    forall j | i < j < |columns| && EntryOf(mapping)(columns[j]).Ok?
      ensures Dicts.Lookup(EntryOf(mapping)(columns[j]).value, k).None?
    {
      EntryNamesKey(mapping, columns[j], k);
    }
    Dicts.StoreAllLatest(columns, EntryOf(mapping), i, k, ColumnValue(columns[i].fields).value);
  }

  /** Conversely, every key held comes from a column mapped to it, and no
      later column is mapped to it. */
  lemma ParsedKeyOrigin(mapping: Mapping, columns: seq<Json>, k: string) returns (i: nat)
    requires Parsed(mapping, columns).Ok? && k in Parsed(mapping, columns).value
    ensures i < |columns| && NamesKey(mapping, columns[i], k)
    ensures ColumnValue(columns[i].fields) == Ok(Parsed(mapping, columns).value[k])
    ensures forall j :: i < j < |columns| ==> !NamesKey(mapping, columns[j], k)
  {
    i := Dicts.StoreAllOrigin(columns, EntryOf(mapping), k);
    EntryNamesKey(mapping, columns[i], k);
    forall j | i < j < |columns|
      ensures !NamesKey(mapping, columns[j], k)
    {
      EntryNamesKey(mapping, columns[j], k);
    }
  }

  /** The three kinds of column: a mirror yields `display_value or ""`
      whether or not it also has `linked_items`; a relation yields its
      items' names joined by ", " ("" when it has none); any other column
      yields `text`, "" when absent. */
  lemma ColumnValueKinds(col: Dict, names: seq<string>)
    ensures "display_value" in col ==>
      ColumnValue(col) == Ok(if Truthy(col["display_value"]) then col["display_value"] else Str(""))
    ensures "display_value" !in col && "linked_items" in col && col["linked_items"] == Arr([]) ==>
      ColumnValue(col) == Ok(Str(""))
    ensures ("display_value" !in col && "linked_items" in col &&
      col["linked_items"] == Arr(Seqs.Map(names, (n: string) => Json.Obj(map["name" := Str(n)])))) ==>
      ColumnValue(col) == Ok(Str(Text.Join(names, ", ")))
    ensures "display_value" !in col && "linked_items" !in col ==>
      ColumnValue(col) == Ok(if "text" in col then col["text"] else Str(""))
  {
    var items := Seqs.Map(names, (n: string) => Json.Obj(map["name" := Str(n)]));
    MapOkPerElement(items, ItemName);
    assert MapOk(items, ItemName).Ok?;
    assert MapOk(items, ItemName).value == names;
  }

  /** An unmapped column can be removed without changing the result. */
  lemma UnmappedColumnIgnored(mapping: Mapping, a: seq<Json>, col: Json, b: seq<Json>)
    requires ColumnEntry(mapping, col) == Ok([])
    ensures Parsed(mapping, a + [col] + b) == Parsed(mapping, a + b)
  {
    Dicts.StoreAllSkip(a, col, b, EntryOf(mapping));
  }

  // ---------------------------------------------------------------------
  // Grouping one board's items (Team_Data.py:252-291)
  // ---------------------------------------------------------------------

  /** One fetched item: its group's title, its name and its columns. */
  datatype BoardItem = BoardItem(group: string, name: string, columns: seq<Json>)

  predicate IsAllowedTitle(t: string) {
    t in AllowedGroupTitles
  }

  /** The keys of `allowed_groups`: the board's group titles as the dict
      `fetch_groups` builds from them (first occurrence kept), then only the
      allowed ones. */
  function AllowedGroups(titles: seq<string>): seq<string> {
    Seqs.Filter(Seqs.Distinct(titles), IsAllowedTitle)
  }

  /** An item's row: its parsed columns, with "Name" set to the item's own
      name. */
  function ItemRow(mapping: Mapping, item: BoardItem): Result<Dict> {
    var parsed :- Parsed(mapping, item.columns);
    Ok(parsed["Name" := Str(item.name)])
  }

  function RowOf(mapping: Mapping): BoardItem -> Result<Dict> {
    (item: BoardItem) => ItemRow(mapping, item)
  }

  function InGroup(g: string): BoardItem -> bool {
    (item: BoardItem) => item.group == g
  }

  /** The bucket of an item: its group, when that group is allowed. */
  function GroupKey(allowed: seq<string>): BoardItem -> Option<string> {
    (item: BoardItem) => if item.group in allowed then Some(item.group) else None
  }

  /** `grouped_data` after the loop over the items: every allowed group
      starts empty, and each item of an allowed group appends its row. */
  function Grouped(mapping: Mapping, allowed: seq<string>, items: seq<BoardItem>): Result<map<string, seq<Dict>>> {
    Dicts.Buckets(allowed, items, GroupKey(allowed), RowOf(mapping))
  }

  /** The loop succeeds exactly when every item of an allowed group parses;
      each allowed group then holds the rows of its own items, in fetch
      order, and items of other groups are dropped. */
  lemma GroupedRows(mapping: Mapping, allowed: seq<string>, items: seq<BoardItem>)
    ensures Grouped(mapping, allowed, items).Ok? <==>
      forall k :: 0 <= k < |items| && items[k].group in allowed ==> ItemRow(mapping, items[k]).Ok?
    ensures Grouped(mapping, allowed, items).Ok? ==>
      Grouped(mapping, allowed, items).value.Keys == (set g | g in allowed) &&
      forall g :: g in allowed ==>
        MapOk(Seqs.Filter(items, InGroup(g)), RowOf(mapping)) == Ok(Grouped(mapping, allowed, items).value[g])
  {
    Dicts.BucketsRows(allowed, items, GroupKey(allowed), RowOf(mapping));
    forall g | g in allowed
      ensures Seqs.Filter(items, InGroup(g)) == Seqs.Filter(items, Dicts.HasKey(GroupKey(allowed), g))
    {
      Seqs.FilterExt(items, InGroup(g), Dicts.HasKey(GroupKey(allowed), g));
    }
  }

  /** A method for the loop of Team_Data.py:284-291. */
  method GroupItems(mapping: Mapping, allowed: seq<string>, items: seq<BoardItem>) returns (r: Result<map<string, seq<Dict>>>)
    ensures r == Grouped(mapping, allowed, items)
  {
    var grouped: map<string, seq<Dict>> := map g | g in allowed :: [];
    for i := 0 to |items|
      invariant Grouped(mapping, allowed, items[..i]) == Ok(grouped)
    {
      var item := items[i];
      assert items[..i + 1][..i] == items[..i];
      if item.group in allowed {
        var parsed := ParseColumnValues(mapping, item.columns);
        if parsed.Raise? {
          Dicts.BucketsRaisePersists(allowed, items, GroupKey(allowed), RowOf(mapping), i + 1);
          return Raise;
        }
        var row := parsed.value["Name" := Str(item.name)];
        grouped := grouped[item.group := grouped[item.group] + [row]];
      }
    }
    assert items[..|items|] == items;
    return Ok(grouped);
  }

  // ---------------------------------------------------------------------
  // One entry per allowed group (Team_Data.py:293-325)
  // ---------------------------------------------------------------------

  /** The entries one board adds to `full_output`; `Raise` when an item
      fails to parse, which ends the board before any entry is added. */
  function BoardEntries(mapping: Mapping, team: string, titles: seq<string>, items: seq<BoardItem>): Result<seq<Loader.HistoryEntry>> {
    var allowed := AllowedGroups(titles);
    var grouped :- Grouped(mapping, allowed, items);
    Ok(Seqs.Map(allowed, (g: string) => Loader.HistoryEntry(g, team, if g in grouped then grouped[g] else [])))
  }

  /** Each allowed group title of the board yields exactly one entry, in
      board order and whether or not it has rows; the entry holds the rows
      of that group's items in fetch order, and no other group is
      exported. */
  lemma BoardEntriesShape(mapping: Mapping, team: string, titles: seq<string>, items: seq<BoardItem>)
    requires BoardEntries(mapping, team, titles, items).Ok?
    ensures var es := BoardEntries(mapping, team, titles, items).value;
      |es| == |AllowedGroups(titles)| &&
      (forall k :: 0 <= k < |es| ==>
        es[k].group == AllowedGroups(titles)[k] && es[k].vehicle == team &&
        MapOk(Seqs.Filter(items, InGroup(es[k].group)), RowOf(mapping)) == Ok(es[k].data)) &&
      (forall k :: 0 <= k < |es| ==> es[k].group in AllowedGroupTitles && es[k].group in titles) &&
      (forall k, l :: 0 <= k < l < |es| ==> es[k].group != es[l].group) &&
      (forall t :: t in titles && t in AllowedGroupTitles ==> exists k :: 0 <= k < |es| && es[k].group == t)
  {
    var allowed := AllowedGroups(titles);
    AllowedGroupsMembers(titles);
    GroupedRows(mapping, allowed, items);
    var es := BoardEntries(mapping, team, titles, items).value;
    assert forall k :: 0 <= k < |es| ==> es[k].group == allowed[k];
    forall t | t in titles && t in AllowedGroupTitles
      ensures exists k :: 0 <= k < |es| && es[k].group == t
    {
      var k :| 0 <= k < |allowed| && allowed[k] == t;
      assert es[k].group == t;
    }
  }

  /** The allowed groups are the board's titles that are allowed, each
      once. */
  lemma AllowedGroupsMembers(titles: seq<string>)
    ensures forall t :: t in AllowedGroups(titles) <==> t in titles && t in AllowedGroupTitles
    ensures forall k, l :: 0 <= k < l < |AllowedGroups(titles)| ==> AllowedGroups(titles)[k] != AllowedGroups(titles)[l]
  {
    Seqs.DistinctProps(titles);
    Seqs.FilterDistinct(Seqs.Distinct(titles), IsAllowedTitle);
    forall t ensures t in AllowedGroups(titles) <==> t in titles && t in AllowedGroupTitles {
      Seqs.FilterMember(Seqs.Distinct(titles), IsAllowedTitle, t);
    }
  }

  /** A method for the loop of Team_Data.py:294-325 over one board. */
  method BoardReport(mapping: Mapping, team: string, titles: seq<string>, items: seq<BoardItem>) returns (r: Result<seq<Loader.HistoryEntry>>)
    ensures r == BoardEntries(mapping, team, titles, items)
  {
    var allowed := Seqs.Filter(Seqs.Distinct(titles), IsAllowedTitle);
    var grouped := GroupItems(mapping, allowed, items);
    if grouped.Raise? {
      return Raise;
    }
    var entries: seq<Loader.HistoryEntry> := [];
    for i := 0 to |allowed|
      invariant |entries| == i
      invariant forall k :: 0 <= k < i ==> entries[k] == Loader.HistoryEntry(allowed[k], team, grouped.value[allowed[k]])
    {
      entries := entries + [Loader.HistoryEntry(allowed[i], team, grouped.value[allowed[i]])];
    }
    assert entries == Seqs.Map(allowed, (g: string) =>
      Loader.HistoryEntry(g, team, if g in grouped.value then grouped.value[g] else []));
    return Ok(entries);
  }

  // ---------------------------------------------------------------------
  // columns_in_use (Team_Data.py:297-302)
  // ---------------------------------------------------------------------

  /** `all_keys` after the loop over the rows. */
  function AllKeys(rows: seq<Dict>): set<string> {
    if rows == [] then {} else AllKeys(rows[..|rows| - 1]) + rows[|rows| - 1].Keys
  }

  /** A key is collected exactly when some row has it. */
  lemma {:induction false} AllKeysMembers(rows: seq<Dict>, c: string)
    ensures c in AllKeys(rows) <==> exists k :: 0 <= k < |rows| && c in rows[k]
  {
    if rows != [] {
      var init := rows[..|rows| - 1];
      AllKeysMembers(init, c);
      assert forall k :: 0 <= k < |init| ==> init[k] == rows[k];
    }
  }

  function DesiredOrder(mapping: Mapping): seq<string> {
    ["Name"] + Dicts.Values(mapping)
  }

  /** `columns_in_use`. */
  function ColumnsInUse(mapping: Mapping, rows: seq<Dict>): seq<string> {
    var keys := AllKeys(rows);
    Seqs.Filter(DesiredOrder(mapping), c => c in keys)
  }

  /** The columns shown are "Name" and the friendly names, in that order,
      kept exactly when some row has them, each as often as it is listed. */
  lemma ColumnsInUseMembers(mapping: Mapping, rows: seq<Dict>, c: string)
    ensures c in ColumnsInUse(mapping, rows) <==>
      c in DesiredOrder(mapping) && exists k :: 0 <= k < |rows| && c in rows[k]
    ensures multiset(ColumnsInUse(mapping, rows))[c] ==
      if exists k :: 0 <= k < |rows| && c in rows[k] then multiset(DesiredOrder(mapping))[c] else 0
  {
    var keys := AllKeys(rows);
    AllKeysMembers(rows, c);
    Seqs.FilterMember(DesiredOrder(mapping), c => c in keys, c);
    Seqs.FilterCount(DesiredOrder(mapping), c => c in keys, c);
  }

  /** The loops of Team_Data.py:297-302. */
  method ColumnsUsed(mapping: Mapping, rows: seq<Dict>) returns (columns: seq<string>)
    ensures columns == ColumnsInUse(mapping, rows)
  {
    var allKeys: set<string> := {};
    for i := 0 to |rows|
      invariant allKeys == AllKeys(rows[..i])
    {
      assert rows[..i + 1][..i] == rows[..i];
      allKeys := allKeys + rows[i].Keys;
    }
    assert rows[..|rows|] == rows;
    var desired := DesiredOrder(mapping);
    columns := [];
    for i := 0 to |desired|
      invariant columns == Seqs.Filter(desired[..i], c => c in allKeys)
    {
      Seqs.FilterSnoc(desired, i, c => c in allKeys);
      if desired[i] in allKeys {
        columns := columns + [desired[i]];
      }
    }
    assert desired[..|desired|] == desired;
  }

  // ---------------------------------------------------------------------
  // The whole export (Team_Data.py:242-337)
  // ---------------------------------------------------------------------

  /** What reading one board gives: its group titles and its items, or an
      exception (an API error, or a complexity error that is not retried). */
  datatype Fetch = Fetched(titles: seq<string>, items: seq<BoardItem>) | FetchFailed

  /** The entries a board contributes: none when reading or parsing it
      raised (the error is reported and the next board follows). */
  function BoardOutput(mapping: Mapping, team: string, f: Fetch): seq<Loader.HistoryEntry> {
    match f
    case FetchFailed => []
    case Fetched(titles, items) =>
      var r := BoardEntries(mapping, team, titles, items);
      if r.Ok? then r.value else []
  }

  /** `full_output`: the boards' entries one after the other, `fetch` giving
      each board id's outcome. */
  function Report(mapping: Mapping, boards: seq<(string, string)>, fetch: string -> Fetch): seq<Loader.HistoryEntry> {
    if boards == [] then []
    else
      var b := boards[|boards| - 1];
      Report(mapping, boards[..|boards| - 1], fetch) + BoardOutput(mapping, b.0, fetch(b.1))
  }

  /** Every exported entry is an allowed group of one of the boards' trucks. */
  lemma {:induction false} ReportEntries(mapping: Mapping, boards: seq<(string, string)>, fetch: string -> Fetch)
    ensures forall e :: e in Report(mapping, boards, fetch) ==>
      e.group in AllowedGroupTitles && exists b :: b in boards && b.0 == e.vehicle
  {
    if boards != [] {
      var init := boards[..|boards| - 1];
      var b := boards[|boards| - 1];
      ReportEntries(mapping, init, fetch);
      assert forall x :: x in init ==> x in boards;
      var f := fetch(b.1);
      if f.Fetched? && BoardEntries(mapping, b.0, f.titles, f.items).Ok? {
        BoardEntriesShape(mapping, b.0, f.titles, f.items);
      }
    }
  }

  /** The main loop of Team_Data.py:247-328, over the boards of `boards`. */
  method RunTeamData(mapping: Mapping, boards: seq<(string, string)>, fetch: string -> Fetch) returns (fullOutput: seq<Loader.HistoryEntry>)
    ensures fullOutput == Report(mapping, boards, fetch)
  {
    fullOutput := [];
    for i := 0 to |boards|
      invariant fullOutput == Report(mapping, boards[..i], fetch)
    {
      assert boards[..i + 1][..i] == boards[..i];
      var f := fetch(boards[i].1);
      if f.Fetched? {
        var entries := BoardReport(mapping, boards[i].0, f.titles, f.items);
        if entries.Ok? {
          fullOutput := fullOutput + entries.value;
        } else {
          assert fullOutput + [] == fullOutput;
        }
      } else {
        assert fullOutput + [] == fullOutput;
      }
    }
    assert boards[..|boards|] == boards;
  }

  /** The export feeds the loader: "Production Review" is exported, and the
      material and quantity columns the loader reads are friendly names of
      the script's mapping. */
  lemma ExportFeedsLoader()
    ensures IsAllowedTitle(Loader.ProductionReview)
    ensures Loader.MaterialKey in Dicts.Values(TruckColumnMapping)
    ensures Loader.QuantityKey in Dicts.Values(TruckColumnMapping)
  {
    assert Dicts.Values(TruckColumnMapping)[10] == Loader.MaterialKey;
    assert Dicts.Values(TruckColumnMapping)[4] == Loader.QuantityKey;
  }
}
