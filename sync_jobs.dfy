/** The database sync's text handling (database/sync_jobs_data.py): rows are
    scraped back out of the ASCII grid tables of a report, truck headers
    and table lines of the truck report become job-assignment candidates,
    and job rows become the values upserted into the jobs table. */
module SyncJobs {
  import opened Py
  import Text
  import Seqs
  import Dicts
  import MainData

  /** A scraped table row: header to cell. */
  type Row = map<string, string>

  predicate IsBar(c: char) {
    c == '|'
  }

  /** `[c.strip() for c in line.strip('|').split('|')]`. */
  function Cells(line: string): (r: seq<string>)
    ensures |r| >= 1
  {
    Seqs.Map(Text.Split(Text.StripChars(line, IsBar), '|'), Text.Strip)
  }

  /** A line has one more cell than it has inner bars (the bars at its ends
      are stripped first), and every cell is free of bars and of
      surrounding whitespace. */
  lemma CellsShape(line: string)
    ensures |Cells(line)| == multiset(Text.StripChars(line, IsBar))['|'] + 1
    ensures forall k :: 0 <= k < |Cells(line)| ==> '|' !in Cells(line)[k]
    ensures forall k :: 0 <= k < |Cells(line)| && Cells(line)[k] != [] ==>
      !Text.IsSpace(Cells(line)[k][0]) && !Text.IsSpace(Cells(line)[k][|Cells(line)[k]| - 1])
  {
    var pieces := Text.Split(Text.StripChars(line, IsBar), '|');
    Text.SplitCount(Text.StripChars(line, IsBar), '|');
    forall k | 0 <= k < |pieces|
      ensures '|' !in Text.Strip(pieces[k])
      ensures Text.Strip(pieces[k]) != [] ==>
        !Text.IsSpace(Text.Strip(pieces[k])[0]) && !Text.IsSpace(Text.Strip(pieces[k])[|Text.Strip(pieces[k])| - 1])
    {
      var i, j := Text.StripCharsSlice(pieces[k], Text.IsSpace);
      assert forall c :: c in pieces[k][i..j] ==> c in pieces[k];
      Text.StripCharsEnds(pieces[k], Text.IsSpace);
    }
  }

  /** `dict(zip(headers, values))`: a repeated header keeps its last cell. */
  function ZipRow(headers: seq<string>, values: seq<string>): Row
    requires |headers| == |values|
  {
    Dicts.Store(map[], seq(|headers|, i requires 0 <= i < |headers| => (headers[i], values[i])))
  }

  /** A row has exactly the headers as keys, and each header holds the
      cell under its last occurrence. */
  lemma ZipRowKeys(headers: seq<string>, values: seq<string>)
    requires |headers| == |values|
    ensures ZipRow(headers, values).Keys == set h | h in headers
    ensures forall i :: 0 <= i < |headers| && (forall j :: i < j < |headers| ==> headers[j] != headers[i]) ==>
      ZipRow(headers, values)[headers[i]] == values[i]
  {
    var pairs := seq(|headers|, i requires 0 <= i < |headers| => (headers[i], values[i]));
    Dicts.StoreLatest(map[], pairs, "");
    assert (set j | 0 <= j < |pairs| :: pairs[j].0) == set h | h in headers by {
      forall h | h in headers ensures h in set j | 0 <= j < |pairs| :: pairs[j].0 {
        var j :| 0 <= j < |headers| && headers[j] == h;
        assert pairs[j].0 == h;
      }
    }
    forall i | 0 <= i < |headers| && (forall j :: i < j < |headers| ==> headers[j] != headers[i])
      ensures ZipRow(headers, values)[headers[i]] == values[i]
    {
      assert pairs[i].0 == headers[i];
      var last := Dicts.LookupFound(pairs, headers[i]);
      Dicts.StoreLatest(map[], pairs, headers[i]);
      assert last == i;
    }
  }

  // ---------------------------------------------------------------------
  // extract_json_from_mixed_file (sync_jobs_data.py:31-64)
  // ---------------------------------------------------------------------

  /** The loop's variables: the current section (None before the first
      title), the current headers, whether a table is being captured, and
      the `defaultdict(list)` of rows per section with its keys in the
      order they were created. */
  datatype Scan = Scan(
    section: Option<string>,
    headers: seq<string>,
    capture: bool,
    data: map<Option<string>, seq<Row>>,
    order: seq<Option<string>>)

  const Start := Scan(None, [], false, map[], [])

  /** `data[section]` of the defaultdict, without creating the key. */
  function Rows(data: map<Option<string>, seq<Row>>, section: Option<string>): seq<Row> {
    if section in data then data[section] else []
  }

  /** `data[section].append(row)`. */
  function Record(st: Scan, row: Row): Scan {
    st.(data := st.data[st.section := Rows(st.data, st.section) + [row]],
        order := if st.section in st.data then st.order else st.order + [st.section])
  }

  /** The section a title line names. */
  function SectionName(line: string): string {
    Text.Strip(Text.ReplaceAll(line, "Jobs:", ""))
  }

  /** What a trimmed line is, decided in the order of the loop's branches:
      a section title, a table rule, a table line, or anything else (the
      lines starting with the two report emojis among them). */
  datatype LineKind = Title | Rule | TableLine | Other

  function KindOf(line: string): LineKind {
    if Text.EndsWith(line, "Jobs:") then Title
    else if Text.StartsWith(line, "+--") then Rule
    else if Text.StartsWith(line, "|") then TableLine
    else Other
  }

  /** The body of the loop for one line. A rule seen while headers are set
      fails the second test and, not starting with "|", the third, so it
      changes nothing; so does every other line. */
  function Step(st: Scan, raw: string): Scan {
    var line := Text.Strip(raw);
    match KindOf(line)
    case Title => st.(section := Some(SectionName(line)), headers := [], capture := false)
    case Rule => if st.headers == [] then st.(capture := true) else st
    case TableLine =>
      if !st.capture then st
      else if st.headers == [] then st.(headers := Cells(line))
      else
        var values := Cells(line);
        if |values| == |st.headers| then Record(st, ZipRow(st.headers, values)) else st
    case Other => st
  }

  /** The loop over `lines` from the state `st`. */
  function ScanFrom(st: Scan, lines: seq<string>): Scan {
    if lines == [] then st else Step(ScanFrom(st, lines[..|lines| - 1]), lines[|lines| - 1])
  }

  /** `Step` by the kind of the trimmed line. */
  lemma StepKind(st: Scan, raw: string)
    ensures var line := Text.Strip(raw);
      match KindOf(line)
      case Title => Step(st, raw) == st.(section := Some(SectionName(line)), headers := [], capture := false)
      case Rule => Step(st, raw) == if st.headers == [] then st.(capture := true) else st
      case TableLine =>
        Step(st, raw) ==
          if !st.capture then st
          else if st.headers == [] then st.(headers := Cells(line))
          else if |Cells(line)| == |st.headers| then Record(st, ZipRow(st.headers, Cells(line))) else st
      case Other => Step(st, raw) == st
  {
  }

  lemma ScanSnoc(st: Scan, lines: seq<string>, i: nat)
    requires i < |lines|
    ensures ScanFrom(st, lines[..i + 1]) == Step(ScanFrom(st, lines[..i]), lines[i])
  {
    assert lines[..i + 1][..i] == lines[..i];
  }

  /** `extract_json_from_mixed_file` over the file's lines. */
  function Extract(lines: seq<string>): Scan {
    ScanFrom(Start, lines)
  }

  /** The loop of sync_jobs_data.py:42-62 over the variables `section`,
      `current_headers`, `capture` and `data`. */
  method ExtractJsonFromMixedFile(lines: seq<string>) returns (data: map<Option<string>, seq<Row>>, order: seq<Option<string>>)
    ensures data == Extract(lines).data && order == Extract(lines).order
  {
    var section: Option<string> := None;
    var headers: seq<string> := [];
    var capture := false;
    data := map[];
    order := [];
    for i := 0 to |lines|
      invariant ScanFrom(Start, lines[..i]) == Scan(section, headers, capture, data, order)
    {
      ghost var st := Scan(section, headers, capture, data, order);
      var line := Text.Strip(lines[i]);
      var kind := KindOf(line);
      StepKind(st, lines[i]);
      if kind == Title {
        section := Some(SectionName(line));
        headers := [];
        capture := false;
      } else if kind == Rule {
        if headers == [] {
          capture := true;
        }
      } else if kind == TableLine && capture {
        if headers == [] {
          headers := Cells(line);
        } else {
          var values := Cells(line);
          if |values| == |headers| {
            var row := ZipRow(headers, values);
            // `data[section]` of a defaultdict creates an empty list first
            var rows: seq<Row> := [];
            if section in data {
              rows := data[section];
            } else {
              order := order + [section];
            }
            data := data[section := rows + [row]];
          }
        }
      }
      ScanSnoc(Start, lines, i);
    }
    assert lines[..|lines|] == lines;
  }

  /** What the scan keeps true: headers are only set while capturing, they
      are never empty once set, and `order` lists each section of `data`
      once. */
  ghost predicate Valid(st: Scan) {
    (st.headers != [] ==> st.capture) &&
    (forall k :: k in st.data <==> k in st.order) &&
    (forall i, j :: 0 <= i < j < |st.order| ==> st.order[i] != st.order[j])
  }

  lemma StepValid(st: Scan, raw: string)
    requires Valid(st)
    ensures Valid(Step(st, raw))
  {
  }

  lemma {:induction false} ScanValid(lines: seq<string>)
    ensures Valid(Extract(lines))
  {
    if lines != [] {
      ScanValid(lines[..|lines| - 1]);
      StepValid(Extract(lines[..|lines| - 1]), lines[|lines| - 1]);
    }
  }

  /** A title line, trimmed, that ends in "Jobs:" starts the section it
      names and drops the current table. */
  lemma TitleLine(st: Scan, raw: string)
    requires Text.EndsWith(Text.Strip(raw), "Jobs:")
    ensures KindOf(Text.Strip(raw)) == Title
    ensures Step(st, raw).section == Some(SectionName(Text.Strip(raw)))
    ensures Step(st, raw).headers == [] && !Step(st, raw).capture
    ensures Step(st, raw).data == st.data && Step(st, raw).order == st.order
  {
  }

  /** Capture starts only at a rule line seen while no headers are set, and
      once headers are set a rule line changes nothing. */
  lemma RuleLines(st: Scan, raw: string)
    ensures !st.capture && Step(st, raw).capture ==>
      Text.StartsWith(Text.Strip(raw), "+--") && st.headers == []
    ensures (st.headers != [] && Text.StartsWith(Text.Strip(raw), "+--") &&
      !Text.EndsWith(Text.Strip(raw), "Jobs:")) ==> Step(st, raw) == st
  {
  }

  /** While capturing, the first table line sets the headers to its
      trimmed cells; rows are recorded only from later table lines. */
  lemma HeaderLine(st: Scan, raw: string)
    requires st.capture && st.headers == []
    requires Text.StartsWith(Text.Strip(raw), "|") && !Text.EndsWith(Text.Strip(raw), "Jobs:")
    ensures IsTableLine(raw)
    ensures Step(st, raw) == st.(headers := Cells(Text.Strip(raw)))
    ensures Step(st, raw).headers != []
  {
    assert Text.Strip(raw)[0] == '|';
  }

  /** One line adds at most one row, at the end of a section's rows. */
  lemma StepAppends(st: Scan, raw: string, k: Option<string>)
    ensures var before := Rows(st.data, k);
      var after := Rows(Step(st, raw).data, k);
      after == before || (|after| == |before| + 1 && after[..|before|] == before)
  {
    StepKind(st, raw);
    var line := Text.Strip(raw);
    if KindOf(line) == TableLine && st.capture && st.headers != [] && |Cells(line)| == |st.headers| {
      var row := ZipRow(st.headers, Cells(line));
      RecordRows(st, row, k);
      assert (Rows(st.data, k) + [row])[..|Rows(st.data, k)|] == Rows(st.data, k);
    }
  }

  /** The data only ever grows: each section's rows keep what they had and
      new rows go at the end, in file order. */
  lemma {:induction false} ScanAppends(st: Scan, lines: seq<string>, k: Option<string>)
    ensures Seqs.Take(Rows(ScanFrom(st, lines).data, k), |Rows(st.data, k)|) == Rows(st.data, k)
    ensures |Rows(st.data, k)| <= |Rows(ScanFrom(st, lines).data, k)|
  {
    if lines != [] {
      var mid := ScanFrom(st, lines[..|lines| - 1]);
      ScanAppends(st, lines[..|lines| - 1], k);
      var a := Rows(st.data, k);
      var b := Rows(mid.data, k);
      var c := Rows(ScanFrom(st, lines).data, k);
      StepAppends(mid, lines[|lines| - 1], k);
      assert c[..|a|] == b[..|a|];
    }
  }

  /** A table line whose cell count matches the headers. */
  predicate Fits(headers: seq<string>, raw: string) {
    |Cells(Text.Strip(raw))| == |headers|
  }

  function FitsFor(headers: seq<string>): string -> bool {
    (raw: string) => Fits(headers, raw)
  }

  function TableRow(headers: seq<string>, raw: string): Row {
    if Fits(headers, raw) then ZipRow(headers, Cells(Text.Strip(raw))) else map[]
  }

  function RowFor(headers: seq<string>): string -> Row {
    (raw: string) => TableRow(headers, raw)
  }

  predicate IsTableLine(raw: string) {
    KindOf(Text.Strip(raw)) == TableLine
  }

  /** While capturing under headers, a table line records its row exactly
      when its cell count matches. */
  lemma TableStep(st: Scan, raw: string)
    requires st.capture && st.headers != [] && IsTableLine(raw)
    ensures Step(st, raw) == if Fits(st.headers, raw) then Record(st, TableRow(st.headers, raw)) else st
  {
  }

  /** Recording touches only the current section's rows, at their end. */
  lemma RecordRows(st: Scan, row: Row, k: Option<string>)
    ensures Rows(Record(st, row).data, k) == if k == st.section then Rows(st.data, k) + [row] else Rows(st.data, k)
  {
  }

  /** The rows a table line adds: its row when it fits, none otherwise. */
  function Added(headers: seq<string>, raw: string): seq<Row> {
    Seqs.Map(if Fits(headers, raw) then [raw] else [], RowFor(headers))
  }

  /** One table line under headers: the current section's rows get the
      line's row when it fits, and nothing else changes. */
  lemma TableLineRows(st: Scan, raw: string, k: Option<string>)
    requires st.capture && st.headers != [] && IsTableLine(raw)
    ensures Step(st, raw).section == st.section && Step(st, raw).headers == st.headers && Step(st, raw).capture
    ensures Rows(Step(st, raw).data, k) ==
      if k == st.section then Rows(st.data, k) + Added(st.headers, raw) else Rows(st.data, k)
  {
    TableStep(st, raw);
    if Fits(st.headers, raw) {
      var row := TableRow(st.headers, raw);
      assert Added(st.headers, raw) == [row] by {
        Seqs.MapSingle(raw, RowFor(st.headers));
      }
      RecordRows(st, row, k);
    } else {
      assert Added(st.headers, raw) == [];
      assert Rows(st.data, k) + [] == Rows(st.data, k);
    }
  }

  /** The body of a table: once headers are set, the table lines that fit
      are appended to the current section, one row each and in order; lines
      of another width are dropped, and no other section changes. */
  lemma {:induction false} TableBody(st: Scan, body: seq<string>)
    requires st.capture && st.headers != []
    requires forall k :: 0 <= k < |body| ==> IsTableLine(body[k])
    ensures ScanFrom(st, body).section == st.section && ScanFrom(st, body).headers == st.headers
    ensures ScanFrom(st, body).capture
    ensures Rows(ScanFrom(st, body).data, st.section) ==
      Rows(st.data, st.section) + Seqs.Map(Seqs.Filter(body, FitsFor(st.headers)), RowFor(st.headers))
    ensures forall k :: k != st.section ==> Rows(ScanFrom(st, body).data, k) == Rows(st.data, k)
  {
    if body != [] {
      var init := body[..|body| - 1];
      var last := body[|body| - 1];
      assert forall k :: 0 <= k < |init| ==> init[k] == body[k];
      TableBody(st, init);
      var mid := ScanFrom(st, init);
      assert ScanFrom(st, body) == Step(mid, last);
      var fits := Seqs.Filter(init, FitsFor(st.headers));
      var added := if Fits(st.headers, last) then [last] else [];
      assert Seqs.Filter(body, FitsFor(st.headers)) == fits + added;
      Seqs.MapAppend(fits, added, RowFor(st.headers));
      Seqs.AppendAssoc(Rows(st.data, st.section), Seqs.Map(fits, RowFor(st.headers)), Added(st.headers, last));
      forall k ensures Rows(Step(mid, last).data, k) ==
        if k == st.section then Rows(mid.data, k) + Added(st.headers, last) else Rows(mid.data, k)
      {
        TableLineRows(mid, last, k);
      }
      TableLineRows(mid, last, st.section);
    }
  }

  // ---------------------------------------------------------------------
  // sync_jobs: the values upserted per job row (sync_jobs_data.py:66-112)
  // ---------------------------------------------------------------------

  /** The values the jobs upsert takes from one row: the texts (each looked
      up, or created, in its table when truthy), the coordinates and bid
      quantity, and the night flag. */
  datatype JobValues = JobValues(
    name: Option<string>, client: Option<string>, material: Option<string>,
    vendor: Option<string>, jobType: Option<string>, status: Option<string>,
    address: Option<string>, latitude: real, longitude: real, bidQty: real, isNight: bool)

  /** `job.get(k)`. */
  function GetCell(row: Row, k: string): Option<string> {
    if k in row then Some(row[k]) else None
  }

  /** `float(v or 0)`: a missing or empty cell is 0; other text must parse
      (ValueError otherwise). */
  function Number(h: Host, v: Option<string>): Result<real> {
    if v.None? || v.value == "" then Ok(0.0)
    else match h.parseFloat(v.value) case Some(x) => Ok(x) case None => Raise
  }

  function JobValuesOf(h: Host, row: Row): Result<JobValues> {
    var lat :- Number(h, GetCell(row, "Latitude"));
    var lng :- Number(h, GetCell(row, "Longitude"));
    var bid :- Number(h, GetCell(row, "Bid Qty"));
    Ok(JobValues(GetCell(row, "Name"), GetCell(row, "Client"), GetCell(row, "Material"),
      GetCell(row, "Material Vendor"), GetCell(row, "Job Type"), GetCell(row, "Status"),
      GetCell(row, "Address"), lat, lng, bid, GetCell(row, "Night?") == Some(MainData.NightYes)))
  }

  /** Coordinates and bid quantity are 0 when missing or empty, and the
      night flag holds exactly when the cell is the export's "✅ Yes"
      (the export's "❌ No" and anything else give false). */
  lemma JobValuesDefaults(h: Host, row: Row)
    requires JobValuesOf(h, row).Ok?
    ensures var v := JobValuesOf(h, row).value;
      ((GetCell(row, "Latitude") == None || GetCell(row, "Latitude") == Some("")) ==> v.latitude == 0.0) &&
      ((GetCell(row, "Longitude") == None || GetCell(row, "Longitude") == Some("")) ==> v.longitude == 0.0) &&
      ((GetCell(row, "Bid Qty") == None || GetCell(row, "Bid Qty") == Some("")) ==> v.bidQty == 0.0) &&
      (v.isNight <==> "Night?" in row && row["Night?"] == MainData.NightYes)
    ensures "Night?" in row && row["Night?"] == MainData.NightNo ==> !JobValuesOf(h, row).value.isNight
  {
    assert MainData.NightYes[0] != MainData.NightNo[0];
  }

  /** The job rows in the order the upserts run: section by section in
      the order the sections were created. */
  function JobRows(data: map<Option<string>, seq<Row>>, order: seq<Option<string>>): seq<Row> {
    Seqs.Concat(Seqs.Map(order, (k: Option<string>) => Rows(data, k)))
  }

  function ValuesOf(h: Host): Row -> Result<JobValues> {
    (row: Row) => JobValuesOf(h, row)
  }

  /** The upserts section by section: the loop over the sections, each
      running the loop over its rows. */
  function AllJobValues(h: Host, data: map<Option<string>, seq<Row>>, order: seq<Option<string>>): Result<seq<JobValues>> {
    if order == [] then Ok([])
    else
      var prev :- AllJobValues(h, data, order[..|order| - 1]);
      var vs :- MapOk(Rows(data, order[|order| - 1]), ValuesOf(h));
      Ok(prev + vs)
  }

  /** The nested loops are one loop over all job rows. */
  lemma {:induction false} AllJobValuesFlat(h: Host, data: map<Option<string>, seq<Row>>, order: seq<Option<string>>)
    ensures AllJobValues(h, data, order) == MapOk(JobRows(data, order), ValuesOf(h))
  {
    if order != [] {
      var init := order[..|order| - 1];
      var last := order[|order| - 1];
      var rows := (k: Option<string>) => Rows(data, k);
      AllJobValuesFlat(h, data, init);
      assert order == init + [last];
      Seqs.MapAppend(init, [last], rows);
      Seqs.ConcatSnoc(Seqs.Map(init, rows), Rows(data, last));
      MapOkAppend(JobRows(data, init), Rows(data, last), ValuesOf(h));
    }
  }

  lemma {:induction false} AllJobValuesRaisePersists(h: Host, data: map<Option<string>, seq<Row>>, order: seq<Option<string>>, n: nat)
    requires n <= |order| && AllJobValues(h, data, order[..n]).Raise?
    ensures AllJobValues(h, data, order).Raise?
    decreases |order| - n
  {
    if n < |order| {
      assert order[..n + 1][..n] == order[..n];
      AllJobValuesRaisePersists(h, data, order, n + 1);
    } else {
      assert order[..n] == order;
    }
  }

  /** One more section: its rows' values after the earlier sections'. */
  lemma AllJobValuesSnoc(h: Host, data: map<Option<string>, seq<Row>>, order: seq<Option<string>>, i: nat, prev: seq<JobValues>, vs: seq<JobValues>)
    requires i < |order| && AllJobValues(h, data, order[..i]) == Ok(prev)
    requires MapOk(Rows(data, order[i]), ValuesOf(h)) == Ok(vs)
    ensures AllJobValues(h, data, order[..i + 1]) == Ok(prev + vs)
  {
    assert order[..i + 1][..i] == order[..i];
  }

  /** A row whose values raise ends the whole sync. */
  lemma RowRaises(h: Host, data: map<Option<string>, seq<Row>>, order: seq<Option<string>>, i: nat, j: nat)
    requires i < |order| && j < |Rows(data, order[i])|
    requires MapOk(Rows(data, order[i])[..j + 1], ValuesOf(h)).Raise?
    ensures AllJobValues(h, data, order).Raise?
  {
    var jobs := Rows(data, order[i]);
    MapOkRaisePersists(jobs, ValuesOf(h), j + 1);
    assert order[..i + 1][..i] == order[..i];
    AllJobValuesRaisePersists(h, data, order, i + 1);
  }

  /** The loops of sync_jobs_data.py:71-112: the values of every upsert, in
      order. A ValueError leaves the transaction uncommitted, so `Raise`
      means nothing is synced. */
  method SyncJobs(h: Host, data: map<Option<string>, seq<Row>>, order: seq<Option<string>>) returns (r: Result<seq<JobValues>>)
    ensures r == MapOk(JobRows(data, order), ValuesOf(h))
  {
    AllJobValuesFlat(h, data, order);
    var upserts: seq<JobValues> := [];
    for i := 0 to |order|
      invariant AllJobValues(h, data, order[..i]) == Ok(upserts)
    {
      var jobs := Rows(data, order[i]);
      var values: seq<JobValues> := [];
      for j := 0 to |jobs|
        invariant MapOk(jobs[..j], ValuesOf(h)) == Ok(values)
      {
        assert jobs[..j + 1] == jobs[..j] + [jobs[j]];
        MapOkSnoc(jobs[..j], jobs[j], ValuesOf(h));
        var v := JobValuesOf(h, jobs[j]);
        if v.Raise? {
          RowRaises(h, data, order, i, j);
          return Raise;
        }
        values := values + [v.value];
      }
      assert jobs[..|jobs|] == jobs;
      AllJobValuesSnoc(h, data, order, i, upserts, values);
      upserts := upserts + values;
    }
    assert order[..|order|] == order;
    return Ok(upserts);
  }

  // ---------------------------------------------------------------------
  // sync_job_assignments: the lines of the truck report (sync_jobs_data.py:116-141)
  // ---------------------------------------------------------------------

  /** The fields a table line gives, by position: the date, the dispatch
      and load statuses, the quantities left and installed, and the job
      name the job is looked up by. */
  datatype Assignment = Assignment(
    vehicle: string, date: string, dispatchStatus: string, loadStatus: string,
    qtyLeft: string, qtyInstalled: string, jobName: string)

  /** The characters `.strip("= 🛻")` removes. */
  predicate IsCodeTrim(c: char) {
    c == '=' || c == ' ' || c == '\U{1F6FB}'
  }

  predicate IsVehicleHeader(line: string) {
    Text.StartsWith(line, "==") && Text.Contains(line, "(") && Text.Contains(line, ")")
  }

  /** The text before the first "(". */
  function BeforeParen(line: string): string {
    Text.Split(line, '(')[0]
  }

  /** `parts[0].strip("= 🛻").strip()`. */
  function VehicleCode(line: string): string {
    Text.Strip(Text.StripChars(BeforeParen(line), IsCodeTrim))
  }

  /** The code is taken from the text before the first "(" and has no
      surrounding whitespace. */
  lemma VehicleCodeShape(line: string)
    ensures Text.StartsWith(line, BeforeParen(line)) && '(' !in BeforeParen(line)
    ensures |BeforeParen(line)| < |line| ==> line[|BeforeParen(line)|] == '('
    ensures VehicleCode(line) != [] ==>
      !Text.IsSpace(VehicleCode(line)[0]) && !Text.IsSpace(VehicleCode(line)[|VehicleCode(line)| - 1])
  {
    Text.SplitFirst(line, '(');
    Text.StripCharsEnds(Text.StripChars(BeforeParen(line), IsCodeTrim), Text.IsSpace);
  }

  /** The loop's state: `vehicle_code` and the assignments so far. */
  datatype Reading = Reading(code: Option<string>, found: seq<Assignment>)

  predicate HasCode(code: Option<string>) {
    code.Some? && code.value != ""
  }

  /** The body of the loop for one line. */
  function ReadLine(st: Reading, raw: string): Reading {
    var line := Text.Strip(raw);
    if IsVehicleHeader(line) then st.(code := Some(VehicleCode(line)))
    else if Text.StartsWith(line, "|") && HasCode(st.code) then
      var parts := Cells(line);
      if |parts| < 16 then st
      else st.(found := st.found + [Assignment(st.code.value, parts[2], parts[3], parts[4], parts[5], parts[6], parts[8])])
    else st
  }

  function ReadLines(lines: seq<string>): Reading {
    if lines == [] then Reading(None, [])
    else ReadLine(ReadLines(lines[..|lines| - 1]), lines[|lines| - 1])
  }

  /** The loop of sync_jobs_data.py:122-141, up to the database lookups. */
  method SyncJobAssignmentLines(lines: seq<string>) returns (found: seq<Assignment>)
    ensures found == ReadLines(lines).found
  {
    var vehicleCode: Option<string> := None;
    found := [];
    for i := 0 to |lines|
      invariant ReadLines(lines[..i]) == Reading(vehicleCode, found)
    {
      assert lines[..i + 1][..i] == lines[..i];
      var line := Text.Strip(lines[i]);
      if IsVehicleHeader(line) {
        vehicleCode := Some(VehicleCode(line));
      } else if Text.StartsWith(line, "|") && vehicleCode.Some? && vehicleCode.value != "" {
        var parts := Cells(line);
        if |parts| >= 16 {
          found := found + [Assignment(vehicleCode.value, parts[2], parts[3], parts[4], parts[5], parts[6], parts[8])];
        }
      }
    }
    assert lines[..|lines|] == lines;
  }

  /** A line adds an assignment exactly when it is a table line of at
      least 16 cells read under a truthy vehicle code; the assignment
      carries that code and the cells at positions 2, 3, 4, 5, 6 and 8. */
  lemma ReadLineCases(st: Reading, raw: string)
    ensures var line := Text.Strip(raw);
      (|ReadLine(st, raw).found| == |st.found| + 1 <==>
        !IsVehicleHeader(line) && Text.StartsWith(line, "|") && HasCode(st.code) && |Cells(line)| >= 16) &&
      (|ReadLine(st, raw).found| == |st.found| + 1 ==>
        var parts := Cells(line);
        ReadLine(st, raw).found[|st.found|] ==
          Assignment(st.code.value, parts[2], parts[3], parts[4], parts[5], parts[6], parts[8]))
    ensures |ReadLine(st, raw).found| != |st.found| + 1 ==> ReadLine(st, raw).found == st.found
  {
  }

  /** `float(qty_left or 0)` and `float(qty_installed or 0)` for an
      assignment whose job and date were found (sync_jobs_data.py:162). */
  function Quantities(h: Host, a: Assignment): Result<(real, real)> {
    var left :- Number(h, Some(a.qtyLeft));
    var installed :- Number(h, Some(a.qtyInstalled));
    Ok((left, installed))
  }

  /** Empty quantity cells are 0; other cells must parse, and a cell that
      does not stops the sync. */
  lemma QuantitiesDefaults(h: Host, a: Assignment)
    ensures Quantities(h, a).Ok? <==>
      (a.qtyLeft == "" || h.parseFloat(a.qtyLeft).Some?) && (a.qtyInstalled == "" || h.parseFloat(a.qtyInstalled).Some?)
    ensures Quantities(h, a).Ok? ==>
      (a.qtyLeft == "" ==> Quantities(h, a).value.0 == 0.0) &&
      (a.qtyInstalled == "" ==> Quantities(h, a).value.1 == 0.0) &&
      (a.qtyLeft != "" ==> Quantities(h, a).value.0 == h.parseFloat(a.qtyLeft).value) &&
      (a.qtyInstalled != "" ==> Quantities(h, a).value.1 == h.parseFloat(a.qtyInstalled).value)
  {
  }

  /** Before any truck header nothing is collected. */
  lemma {:induction false} NoHeaderNoAssignments(lines: seq<string>)
    requires forall k :: 0 <= k < |lines| ==> !IsVehicleHeader(Text.Strip(lines[k]))
    ensures ReadLines(lines) == Reading(None, [])
  {
    if lines != [] {
      var init := lines[..|lines| - 1];
      assert forall k :: 0 <= k < |init| ==> init[k] == lines[k];
      NoHeaderNoAssignments(init);
    }
  }

  /** A header line sets the code every later table line is read under,
      until the next header. */
  lemma HeaderSetsCode(st: Reading, raw: string)
    requires IsVehicleHeader(Text.Strip(raw))
    ensures ReadLine(st, raw) == Reading(Some(VehicleCode(Text.Strip(raw))), st.found)
  {
  }
}
