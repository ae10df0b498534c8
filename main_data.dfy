/** The main jobs-board export (database/Main_Data.py): every item of the
    board is parsed into a dict, and the items of the groups that have a
    category become ten-field rows under that category. */
module MainData {
  import opened Py
  import Text
  import Seqs
  import Dicts

  /** Column id to friendly name, in the order written (the ids are
      distinct). */
  const ColumnMapping: seq<(string, string)> := [
    ("link_to_item1", "Client"), ("type1", "Customer Type"), ("sales_rep_0", "Sales Rep."),
    ("location", "Job Address"), ("dropdown9", "Job Type"), ("status0", "Material"),
    ("connect_boards", "Material Vendor"), ("depth", "Depth"), ("numbers3", "Bid Qty"),
    ("project", "Status"), ("file", "Map"), ("people_mkm352s8", "People"),
    ("location_column", "Latitude/Longitude"), ("check27", "Night?")]

  type Mapping = seq<(string, string)>

  const NightColumn := "check27"
  const ClientColumn := "link_to_item1"
  const NightKey := "Night?"
  const NightYes := "\U{2705} Yes"
  const NightNo := "\U{274C} No"
  const NoClient := "No client linked"
  const NotAvailable := "N/A"

  // ---------------------------------------------------------------------
  // parse_column_values (Main_Data.py:158-198)
  // ---------------------------------------------------------------------

  /** The night flag of a `check27` column from its `value`: a truthy value
      must be a string for `json.loads` (anything else raises TypeError,
      which the `except` does not catch); text that does not decode, or
      decodes to something without `.get`, counts as unchecked. */
  function NightValue(h: Host, value: Json): Result<Json> {
    if !Truthy(value) then Ok(Str(NightNo))
    else if !value.Str? then Raise
    else
      match h.decode(value.s)
      case Some(Obj(m)) => Ok(Str(if Truthy(Get(m, "checked", Bool(false))) then NightYes else NightNo))
      case _ => Ok(Str(NightNo))
  }

  /** Whether a `check27` value marks a night job. */
  predicate NightChecked(h: Host, value: Json) {
    Truthy(value) && value.Str? && h.decode(value.s).Some? && h.decode(value.s).value.Obj? &&
    Truthy(Get(h.decode(value.s).value.fields, "checked", Bool(false)))
  }

  /** `col['linked_items'][0].get('name', 'No client linked')` when the
      linked items are truthy: only a list whose first element is a dict
      gets that far. */
  function ClientName(linked: Json): Result<Json> {
    if !Truthy(linked) then Ok(Str(NoClient))
    else if linked.Arr? && linked.items[0].Obj? then Ok(Get(linked.items[0].fields, "name", Str(NoClient)))
    else Raise
  }

  /** `COLUMN_MAPPING.get(col_id, col_id)`: a list or dict id is unhashable
      and raises TypeError. */
  function ColumnName(mapping: Mapping, id: Json): Result<Json> {
    match id
    case Str(s) => Ok(match Dicts.Lookup(mapping, s) case Some(n) => Str(n) case None => id)
    case Arr(_) => Raise
    case Obj(_) => Raise
    case _ => Ok(id)
  }

  /** What one column stores, as (key, value) pairs in the order stored.
      The keys are JSON values because an unmapped id is itself the key. */
  function ColumnEntry(h: Host, mapping: Mapping, col: Json): Result<seq<(Json, Json)>> {
    if !Truthy(col) then Ok([])
    else if !col.Obj? then Raise
    else
      var c := col.fields;
      var id := Get(c, "id", Null);
      if !Truthy(id) then Ok([])
      else if id == Str(NightColumn) then
        var v :- NightValue(h, Get(c, "value", Null));
        Ok([(Str(NightKey), v)])
      else
        var name :- ColumnName(mapping, id);
        if id == Str(ClientColumn) then
          var v :- ClientName(Get(c, "linked_items", Null));
          Ok([(name, v)])
        else if "lat" in c && "lng" in c then
          Ok([(Str("Latitude"), Get(c, "lat", Str(NotAvailable))),
              (Str("Longitude"), Get(c, "lng", Str(NotAvailable))),
              (Str("Address"), Get(c, "address", Str(NotAvailable)))])
        else
          Ok([(name, Get(c, "text", Str("")))])
  }

  function EntryOf(h: Host, mapping: Mapping): Json -> Result<seq<(Json, Json)>> {
    (col: Json) => ColumnEntry(h, mapping, col)
  }

  /** The dict `parse_column_values` returns. */
  function Parsed(h: Host, mapping: Mapping, columns: seq<Json>): Result<map<Json, Json>> {
    Dicts.StoreAll(columns, EntryOf(h, mapping))
  }

  /** `parse_column_values`: the loop over the columns, filling `parsed`. */
  method ParseColumnValues(h: Host, mapping: Mapping, columns: seq<Json>) returns (r: Result<map<Json, Json>>)
    ensures r == Parsed(h, mapping, columns)
  {
    var parsed: map<Json, Json> := map[];
    for i := 0 to |columns|
      invariant Parsed(h, mapping, columns[..i]) == Ok(parsed)
    {
      assert columns[..i + 1] == columns[..i] + [columns[i]];
      Dicts.StoreAllSnoc(columns[..i], columns[i], EntryOf(h, mapping));
      var e := ColumnEntry(h, mapping, columns[i]);
      if e.Raise? {
        Dicts.StoreAllRaisePersists(columns, EntryOf(h, mapping), i + 1);
        return Raise;
      }
      ghost var before := parsed;
      for j := 0 to |e.value|
        invariant parsed == Dicts.Store(before, e.value[..j])
      {
        assert e.value[..j + 1][..j] == e.value[..j];
        parsed := parsed[e.value[j].0 := e.value[j].1];
      }
      assert e.value[..|e.value|] == e.value;
    }
    assert columns[..|columns|] == columns;
    return Ok(parsed);
  }

  /** Falsy columns and columns without a truthy id are skipped: removing
      one does not change the result. */
  lemma SkippedColumn(h: Host, mapping: Mapping, a: seq<Json>, col: Json, b: seq<Json>)
    requires !Truthy(col) || (col.Obj? && !Truthy(Get(col.fields, "id", Null)))
    ensures ColumnEntry(h, mapping, col) == Ok([])
    ensures Parsed(h, mapping, a + [col] + b) == Parsed(h, mapping, a + b)
  {
    Dicts.StoreAllSkip(a, col, b, EntryOf(h, mapping));
  }

  /** A `check27` column stores only "Night?": "✅ Yes" exactly when its
      value decodes to a dict whose `checked` is truthy, "❌ No" otherwise,
      including when decoding fails; it raises only for a truthy value that
      is not a string. */
  lemma NightColumnStores(h: Host, mapping: Mapping, col: Json)
    requires col.Obj? && Get(col.fields, "id", Null) == Str(NightColumn)
    ensures var value := Get(col.fields, "value", Null);
      (ColumnEntry(h, mapping, col).Raise? <==> Truthy(value) && !value.Str?) &&
      (ColumnEntry(h, mapping, col).Ok? ==>
        ColumnEntry(h, mapping, col).value ==
          [(Str(NightKey), Str(if NightChecked(h, value) then NightYes else NightNo))])
  {
    assert Truthy(col);
  }

  /** A `link_to_item1` column stores the first linked item's name under its
      mapped name, or "No client linked" when nothing is linked or the
      first item has no name. */
  lemma ClientColumnStores(h: Host, mapping: Mapping, col: Json)
    requires col.Obj? && Get(col.fields, "id", Null) == Str(ClientColumn)
    requires Dicts.Lookup(mapping, ClientColumn) == Some("Client")
    ensures var linked := Get(col.fields, "linked_items", Null);
      (!Truthy(linked) ==> ColumnEntry(h, mapping, col) == Ok([(Str("Client"), Str(NoClient))])) &&
      (linked.Arr? && linked.items != [] && linked.items[0].Obj? ==>
        ColumnEntry(h, mapping, col) == Ok([(Str("Client"),
          if "name" in linked.items[0].fields then linked.items[0].fields["name"] else Str(NoClient))]))
  {
    assert Truthy(col);
  }

  /** Any other column with both `lat` and `lng` stores exactly Latitude,
      Longitude and Address, each "N/A" when missing, and nothing under its
      own name. */
  lemma LocationColumnStores(h: Host, mapping: Mapping, col: Json)
    requires col.Obj? && "lat" in col.fields && "lng" in col.fields
    requires var id := Get(col.fields, "id", Null);
      Truthy(id) && (id.Str? || id.Int? || id.Float? || id.Bool?) && id != Str(NightColumn) && id != Str(ClientColumn)
    ensures ColumnEntry(h, mapping, col) == Ok([
      (Str("Latitude"), col.fields["lat"]), (Str("Longitude"), col.fields["lng"]),
      (Str("Address"), Get(col.fields, "address", Str(NotAvailable)))])
  {
    assert Truthy(col);
  }

  /** Any remaining column stores its `text` ("" when missing) under its
      mapped name, or under its own id when it is not mapped. */
  lemma TextColumnStores(h: Host, mapping: Mapping, col: Json, id: string)
    requires col.Obj? && Get(col.fields, "id", Null) == Str(id) && id != ""
    requires id != NightColumn && id != ClientColumn && !("lat" in col.fields && "lng" in col.fields)
    ensures ColumnEntry(h, mapping, col) == Ok([(
      Str(if Dicts.Lookup(mapping, id).Some? then Dicts.Lookup(mapping, id).value else id),
      Get(col.fields, "text", Str("")))])
  {
    assert Truthy(col);
  }

  /** The script's mapping names the client column "Client". */
  lemma ClientColumnName()
    ensures Dicts.Lookup(ColumnMapping, ClientColumn) == Some("Client")
  {
    var i := Dicts.LookupFound(ColumnMapping, ClientColumn);
    assert ColumnMapping[0].0 == ClientColumn;
  }

  // ---------------------------------------------------------------------
  // Categories (Main_Data.py:224-245)
  // ---------------------------------------------------------------------

  /** The categories, in the order of the saved output. */
  const CategoryNames: seq<string> :=
    ["In Progress", "Paused", "Jobs to be Scheduled", "Material Vendors", "Material Locations", "Hotels"]

  const JobsToBeScheduled := "Jobs to be Scheduled"

  /** `groups.get(title, "")`, where `groups` maps the board's group titles
      to their ids (a later group with the same title wins). */
  function GroupId(groups: seq<(string, string)>, title: string): string {
    match Dicts.Lookup(groups, title) case Some(id) => id case None => ""
  }

  /** `groups.items()`: each title once, in board order. */
  function Titles(groups: seq<(string, string)>): seq<string> {
    Seqs.Distinct(Seqs.Map(groups, (g: (string, string)) => g.0))
  }

  predicate IsScheduledTitle(t: string) {
    Text.StartsWith(t, JobsToBeScheduled)
  }

  /** The dict literal of Main_Data.py:234-240 as (group id, category)
      pairs: a missing group contributes the id "". */
  function FixedCategories(groups: seq<(string, string)>): seq<(string, string)> {
    [(GroupId(groups, "In Progress"), "In Progress"),
     (GroupId(groups, "Paused"), "Paused"),
     (GroupId(groups, "Material Vendor"), "Material Vendors"),
     (GroupId(groups, "Material Locations"), "Material Locations"),
     (GroupId(groups, "Hotel"), "Hotels")]
  }

  /** The assignments of the loop of Main_Data.py:243-245. */
  function ScheduledCategories(groups: seq<(string, string)>): seq<(string, string)> {
    Seqs.Map(Seqs.Filter(Titles(groups), IsScheduledTitle),
      (t: string) => (GroupId(groups, t), JobsToBeScheduled))
  }

  /** `group_to_category` after the loop, as its assignments in order. */
  function GroupToCategory(groups: seq<(string, string)>): seq<(string, string)> {
    FixedCategories(groups) + ScheduledCategories(groups)
  }

  /** The loop of Main_Data.py:243-245, extending `group_to_category`. */
  method BuildGroupToCategory(groups: seq<(string, string)>) returns (assignments: seq<(string, string)>)
    ensures assignments == GroupToCategory(groups)
  {
    var titles := Titles(groups);
    assignments := FixedCategories(groups);
    ghost var scheduled: seq<string> := [];
    for i := 0 to |titles|
      invariant scheduled == Seqs.Filter(titles[..i], IsScheduledTitle)
      invariant assignments == FixedCategories(groups) +
        Seqs.Map(scheduled, (t: string) => (GroupId(groups, t), JobsToBeScheduled))
    {
      Seqs.FilterSnoc(titles, i, IsScheduledTitle);
      if IsScheduledTitle(titles[i]) {
        Seqs.MapAppend(scheduled, [titles[i]], (t: string) => (GroupId(groups, t), JobsToBeScheduled));
        scheduled := scheduled + [titles[i]];
        assignments := assignments + [(GroupId(groups, titles[i]), JobsToBeScheduled)];
      } else {
        assert scheduled + [] == scheduled;
      }
    }
    assert titles[..|titles|] == titles;
  }

  /** Every group whose title starts with "Jobs to be Scheduled" is in that
      category, whatever the fixed entries say about its id. */
  lemma ScheduledGroupCategory(groups: seq<(string, string)>, t: string)
    requires t in Seqs.Map(groups, (g: (string, string)) => g.0) && IsScheduledTitle(t)
    ensures Dicts.Lookup(GroupToCategory(groups), GroupId(groups, t)) == Some(JobsToBeScheduled)
  {
    var titles := Titles(groups);
    var fixed := FixedCategories(groups);
    var scheduled := ScheduledCategories(groups);
    var all := GroupToCategory(groups);
    var id := GroupId(groups, t);
    Seqs.DistinctProps(Seqs.Map(groups, (g: (string, string)) => g.0));
    Seqs.FilterMember(titles, IsScheduledTitle, t);
    var k :| 0 <= k < |Seqs.Filter(titles, IsScheduledTitle)| && Seqs.Filter(titles, IsScheduledTitle)[k] == t;
    assert all[|fixed| + k] == (id, JobsToBeScheduled);
    var i := Dicts.LookupFound(all, id);
    assert i >= |fixed|;
    assert all[i] == scheduled[i - |fixed|];
  }

  /** Every category `group_to_category` assigns is one of the output
      categories. */
  lemma GroupToCategoryKnown(groups: seq<(string, string)>)
    ensures forall k :: 0 <= k < |GroupToCategory(groups)| ==> GroupToCategory(groups)[k].1 in CategoryNames
  {
    var fixed := FixedCategories(groups);
    var all := GroupToCategory(groups);
    forall k | 0 <= k < |all| ensures all[k].1 in CategoryNames {
      if k >= |fixed| {
        assert all[k] == ScheduledCategories(groups)[k - |fixed|];
      }
    }
  }

  // ---------------------------------------------------------------------
  // Rows per category (Main_Data.py:247-266)
  // ---------------------------------------------------------------------

  /** One fetched item: its group's id, its name and its columns. */
  datatype BoardItem = BoardItem(groupId: string, name: string, columns: seq<Json>)

  /** The ten fields of a row, in order. */
  const RowFields: seq<string> :=
    ["Name", "Client", "Status", "Material", "Bid Qty", "Job Type", "Latitude", "Longitude", "Address", "Night?"]

  /** `parsed.get(k, 'N/A')`. */
  function Field(parsed: map<Json, Json>, k: string): Json {
    if Str(k) in parsed then parsed[Str(k)] else Str(NotAvailable)
  }

  /** The row of a categorised item: the ten-key dict literal, "Name"
      from the item and every other key looked up in the parsed columns. */
  function ItemRow(h: Host, mapping: Mapping, item: BoardItem): Result<Dict> {
    var parsed :- Parsed(h, mapping, item.columns);
    Ok(RowDict(item.name, parsed))
  }

  function RowDict(name: string, parsed: map<Json, Json>): Dict {
    map f | f in RowFields :: if f == "Name" then Str(name) else Field(parsed, f)
  }

  /** A row has exactly the ten fields: "Name" is the item's own name and
      every other field is the parsed value, "N/A" when absent. */
  lemma ItemRowFields(h: Host, mapping: Mapping, item: BoardItem)
    requires ItemRow(h, mapping, item).Ok?
    ensures ItemRow(h, mapping, item).value.Keys == set f | f in RowFields
    ensures ItemRow(h, mapping, item).value["Name"] == Str(item.name)
    ensures forall k :: 1 <= k < |RowFields| ==>
      ItemRow(h, mapping, item).value[RowFields[k]] == Field(Parsed(h, mapping, item.columns).value, RowFields[k])
  {
    assert RowFields[0] == "Name";
    forall k | 1 <= k < |RowFields| ensures RowFields[k] != "Name" {
      assert RowFields[k][0] != 'N' || RowFields[k] == "Night?";
    }
  }

  function RowOf(h: Host, mapping: Mapping): BoardItem -> Result<Dict> {
    (item: BoardItem) => ItemRow(h, mapping, item)
  }

  /** `group_to_category.get(group_id)`, when truthy. */
  function CategoryKey(assignments: seq<(string, string)>): BoardItem -> Option<string> {
    (item: BoardItem) =>
      var c := Dicts.Lookup(assignments, item.groupId);
      if c.Some? && c.value != "" then c else None
  }

  function InCategory(assignments: seq<(string, string)>, c: string): BoardItem -> bool {
    (item: BoardItem) => Dicts.Lookup(assignments, item.groupId) == Some(c)
  }

  /** `categories` after the loop over the items, for the assignments of
      `group_to_category`. */
  function Categorized(h: Host, mapping: Mapping, assignments: seq<(string, string)>, items: seq<BoardItem>): Result<map<string, seq<Dict>>> {
    Dicts.Buckets(CategoryNames, items, CategoryKey(assignments), RowOf(h, mapping))
  }

  /** When every assigned category is an output category (as
      `GroupToCategoryKnown` shows for the script's), the export succeeds
      exactly when every categorised item parses; each category then holds
      the rows of its items in item order, and items whose group has no
      category are dropped. */
  lemma CategorizedRows(h: Host, mapping: Mapping, assignments: seq<(string, string)>, items: seq<BoardItem>)
    requires forall k :: 0 <= k < |assignments| ==> assignments[k].1 in CategoryNames
    ensures Categorized(h, mapping, assignments, items).Ok? <==>
      forall k :: 0 <= k < |items| && Dicts.Lookup(assignments, items[k].groupId).Some? ==>
        ItemRow(h, mapping, items[k]).Ok?
    ensures Categorized(h, mapping, assignments, items).Ok? ==>
      Categorized(h, mapping, assignments, items).value.Keys == (set c | c in CategoryNames) &&
      forall c :: c in CategoryNames ==>
        MapOk(Seqs.Filter(items, InCategory(assignments, c)), RowOf(h, mapping)) ==
          Ok(Categorized(h, mapping, assignments, items).value[c])
  {
    var key := CategoryKey(assignments);
    assert forall c :: c in CategoryNames ==> c != "";
    forall id | Dicts.Lookup(assignments, id).Some?
      ensures Dicts.Lookup(assignments, id).value in CategoryNames
    {
      Dicts.LookupIsValue(assignments, id);
    }
    Dicts.BucketsRows(CategoryNames, items, key, RowOf(h, mapping));
    forall c | c in CategoryNames
      ensures Seqs.Filter(items, InCategory(assignments, c)) == Seqs.Filter(items, Dicts.HasKey(key, c))
    {
      Seqs.FilterExt(items, InCategory(assignments, c), Dicts.HasKey(key, c));
    }
  }

  /** The main block of Main_Data.py:224-266: build `group_to_category`,
      then append each categorised item's row. Any exception ends the
      script before anything is saved. */
  method RunMainData(h: Host, mapping: Mapping, groups: seq<(string, string)>, items: seq<BoardItem>) returns (r: Result<map<string, seq<Dict>>>)
    ensures r == Categorized(h, mapping, GroupToCategory(groups), items)
  {
    var assignments := BuildGroupToCategory(groups);
    var categories: map<string, seq<Dict>> := map c | c in CategoryNames :: [];
    for i := 0 to |items|
      invariant Dicts.Buckets(CategoryNames, items[..i], CategoryKey(assignments), RowOf(h, mapping)) == Ok(categories)
    {
      var item := items[i];
      assert items[..i + 1][..i] == items[..i];
      var category := Dicts.Lookup(assignments, item.groupId);
      if category.Some? && category.value != "" {
        var parsed := ParseColumnValues(h, mapping, item.columns);
        if parsed.Raise? || category.value !in categories {
          Dicts.BucketsRaisePersists(CategoryNames, items, CategoryKey(assignments), RowOf(h, mapping), i + 1);
          return Raise;
        }
        var row := RowDict(item.name, parsed.value);
        categories := categories[category.value := categories[category.value] + [row]];
      }
    }
    assert items[..|items|] == items;
    return Ok(categories);
  }
}
