/** The loader script (app/loader.py): normalises the telemetry feed, the
    per-truck board history and the unscheduled jobs into one truck table and
    one job table, matches each truck with the jobs within 40 miles whose
    material it can carry, and renders one scheduling prompt per truck that
    has a match. */
module Loader {
  import opened Py
  import Text
  import Seqs

  // ---------------------------------------------------------------------
  // Step 1: truck locations from the telemetry feed (loader.py:17-30)
  // ---------------------------------------------------------------------

  /** One record of the telemetry feed, reduced to the fields the loader reads
      (`ContentResource.Value.{Latitude, Longitude, Address.AddressLine1,
      Address.Locality, DisplayState}` are flattened). */
  datatype Telemetry = Telemetry(
    statusCode: int,
    vehicleNumber: string,
    latitude: Json,
    longitude: Json,
    addressLine1: Json,
    locality: Json,
    displayState: Json)

  /** A row of the truck-location table. */
  datatype TruckLocation = TruckLocation(
    vehicleNumber: string,
    latitude: Json,
    longitude: Json,
    address: Json,
    city: Json,
    status: Json)

  const SuccessStatus := 200

  predicate Reported(e: Telemetry) {
    e.statusCode == SuccessStatus
  }

  function ToLocation(e: Telemetry): TruckLocation {
    TruckLocation(e.vehicleNumber, e.latitude, e.longitude, e.addressLine1, e.locality, e.displayState)
  }

  /** The truck-location table the loop of step 1 builds. */
  function TruckLocations(entries: seq<Telemetry>): seq<TruckLocation> {
    Seqs.Map(Seqs.Filter(entries, Reported), ToLocation)
  }

  /** Step 1 keeps an entry exactly when its status is 200, and keeps the
      feed's order: the table of a concatenation is the concatenation of the
      tables, and one entry contributes its location or nothing. */
  lemma TruckLocationsKeepReported(a: seq<Telemetry>, b: seq<Telemetry>, e: Telemetry)
    ensures TruckLocations(a + b) == TruckLocations(a) + TruckLocations(b)
    ensures TruckLocations([e]) == if e.statusCode == 200 then [ToLocation(e)] else []
  {
    Seqs.FilterAppend(a, b, Reported);
    Seqs.MapAppend(Seqs.Filter(a, Reported), Seqs.Filter(b, Reported), ToLocation);
    Seqs.FilterCons(e, [], Reported);
  }

  method ParseTruckLocations(entries: seq<Telemetry>) returns (locations: seq<TruckLocation>)
    ensures locations == TruckLocations(entries)
  {
    locations := [];
    for i := 0 to |entries|
      invariant locations == TruckLocations(entries[..i])
    {
      Seqs.FilterSnoc(entries, i, Reported);
      var kept := Seqs.Filter(entries[..i], Reported);
      if entries[i].statusCode == SuccessStatus {
        Seqs.MapAppend(kept, [entries[i]], ToLocation);
        locations := locations + [ToLocation(entries[i])];
      } else {
        assert Seqs.Filter(entries[..i + 1], Reported) == kept;
      }
    }
    assert entries[..|entries|] == entries;
  }

  // ---------------------------------------------------------------------
  // Step 2: what each truck carries, from its "Production Review" history
  // (loader.py:34-54)
  // ---------------------------------------------------------------------

  /** One entry of the truck-board export: the rows of one group of one
      truck's board. */
  datatype HistoryEntry = HistoryEntry(group: string, vehicle: string, data: seq<Dict>)

  /** The material on a truck and how many yards of it are left. */
  datatype Load = Load(material: string, quantityLeft: real)

  const ProductionReview := "Production Review"
  const QuantityKey := "Quantity Left on Truck"
  const MaterialKey := "Material"

  /** `qty_left and qty_left not in ["0", "0.0", ""]`. */
  predicate CarriesLoad(qty: Json) {
    Truthy(qty) && qty != Str("0") && qty != Str("0.0") && qty != Str("")
  }

  function QuantityOf(row: Dict): Json {
    Get(row, QuantityKey, Str(""))
  }

  function MaterialOf(row: Dict): Json {
    Get(row, MaterialKey, Str(""))
  }

  /** One iteration of the inner loop of step 2: the material is stripped
      first (raising when it is not a string); a row whose quantity is not
      empty or zero gives the load (raising when `float` rejects the
      quantity), any other row is skipped. */
  function RowLoad(h: Host, row: Dict): Result<Option<Load>> {
    LoadOf(h, MaterialOf(row), QuantityOf(row))
  }

  /** The same, on the row's material and quantity cells. */
  function LoadOf(h: Host, materialCell: Json, qty: Json): Result<Option<Load>> {
    var material :- StripValue(materialCell);
    if CarriesLoad(qty) then
      var quantity :- ToFloat(h, qty);
      Ok(Some(Load(material, quantity)))
    else
      Ok(None)
  }

  function RowStep(h: Host): Dict -> Result<Option<Load>> {
    row => RowLoad(h, row)
  }

  /** The inner loop of step 2 over `reversed(jobs)`, with its `break`. */
  function LatestLoad(h: Host, data: seq<Dict>): Result<Option<Load>> {
    LastSome(data, RowStep(h))
  }

  /** A row with a text material is skipped exactly when its quantity is
      missing, empty or zero, and otherwise gives its stripped material and
      its quantity as a float. */
  lemma RowLoadCases(h: Host, row: Dict)
    ensures RowLoad(h, row) == Ok(None) <==> MaterialOf(row).Str? && !CarriesLoad(QuantityOf(row))
    ensures RowLoad(h, row).Ok? && RowLoad(h, row).value.Some? <==>
      MaterialOf(row).Str? && CarriesLoad(QuantityOf(row)) && ToFloat(h, QuantityOf(row)).Ok?
    ensures RowLoad(h, row).Ok? && RowLoad(h, row).value.Some? ==>
      RowLoad(h, row).value.value ==
        Load(Text.Strip(MaterialOf(row).s), ToFloat(h, QuantityOf(row)).value)
  {
    LoadOfCases(h, MaterialOf(row), QuantityOf(row));
  }

  lemma LoadOfCases(h: Host, m: Json, q: Json)
    ensures LoadOf(h, m, q) == Ok(None) <==> m.Str? && !CarriesLoad(q)
    ensures LoadOf(h, m, q).Ok? && LoadOf(h, m, q).value.Some? <==> m.Str? && CarriesLoad(q) && ToFloat(h, q).Ok?
    ensures LoadOf(h, m, q).Ok? && LoadOf(h, m, q).value.Some? ==>
      LoadOf(h, m, q).value.value == Load(Text.Strip(m.s), ToFloat(h, q).value)
  {
  }

  predicate IsProductionReview(e: HistoryEntry) {
    e.group == ProductionReview
  }

  /** `truck_materials` after the loop of step 2. */
  function Materials(h: Host, history: seq<HistoryEntry>): Result<map<string, Load>> {
    if history == [] then Ok(map[])
    else
      var materials :- Materials(h, history[..|history| - 1]);
      var entry := history[|history| - 1];
      if IsProductionReview(entry) then
        var latest :- LatestLoad(h, entry.data);
        Ok(if latest.Some? then materials[entry.vehicle := latest.value] else materials)
      else
        Ok(materials)
  }

  /** A row whose material is a string, so that stripping it succeeds. */
  predicate MaterialIsText(row: Dict) {
    MaterialOf(row).Str?
  }

  /** When no row carries a load and every material is text, the scan finds
      nothing. */
  lemma LatestLoadNone(h: Host, data: seq<Dict>)
    requires forall j :: 0 <= j < |data| ==> !CarriesLoad(QuantityOf(data[j])) && MaterialIsText(data[j])
    ensures LatestLoad(h, data) == Ok(None)
  {
    forall j | 0 <= j < |data| ensures RowStep(h)(data[j]) == Ok(None) {
      RowLoadCases(h, data[j]);
    }
    LastSomeNone(data, RowStep(h));
  }

  /** The newest row that carries a load decides the truck's load, provided
      every newer row has a text material and that row's quantity reads as a
      number; this holds however many empty or zero rows are newer than it. */
  lemma LatestLoadNewest(h: Host, data: seq<Dict>, k: nat)
    requires k < |data| && CarriesLoad(QuantityOf(data[k])) && MaterialIsText(data[k])
    requires forall j :: k < j < |data| ==> !CarriesLoad(QuantityOf(data[j])) && MaterialIsText(data[j])
    requires ToFloat(h, QuantityOf(data[k])).Ok?
    ensures LatestLoad(h, data) ==
      Ok(Some(Load(Text.Strip(MaterialOf(data[k]).s), ToFloat(h, QuantityOf(data[k])).value)))
  {
    forall j | k < j < |data| ensures RowStep(h)(data[j]) == Ok(None) {
      RowLoadCases(h, data[j]);
    }
    RowLoadCases(h, data[k]);
    LastSomeAt(data, RowStep(h), k);
  }

  /** Conversely, a load found by the scan comes from a row that carries one,
      with no newer row carrying one; the lemma returns that row's index. */
  lemma LatestLoadFound(h: Host, data: seq<Dict>, load: Load) returns (k: nat)
    requires LatestLoad(h, data) == Ok(Some(load))
    ensures k < |data| && CarriesLoad(QuantityOf(data[k]))
    ensures forall j :: k < j < |data| ==> !CarriesLoad(QuantityOf(data[j]))
    ensures MaterialOf(data[k]).Str? && load.material == Text.Strip(MaterialOf(data[k]).s)
    ensures ToFloat(h, QuantityOf(data[k])) == Ok(load.quantityLeft)
  {
    k := LastSomeFound(data, RowStep(h), load);
    RowLoadCases(h, data[k]);
    forall j | k < j < |data| ensures !CarriesLoad(QuantityOf(data[j])) {
      RowLoadCases(h, data[j]);
    }
  }

  /** Only "Production Review" entries contribute to the load table. */
  lemma {:induction false} MaterialsOnlyProductionReview(h: Host, history: seq<HistoryEntry>)
    ensures Materials(h, history) == Materials(h, Seqs.Filter(history, IsProductionReview))
  {
    if history != [] {
      var prefix := history[..|history| - 1];
      var entry := history[|history| - 1];
      MaterialsOnlyProductionReview(h, prefix);
      var kept := Seqs.Filter(history, IsProductionReview);
      var keptPrefix := Seqs.Filter(prefix, IsProductionReview);
      if IsProductionReview(entry) {
        assert kept == keptPrefix + [entry];
        assert kept[..|kept| - 1] == keptPrefix;
        assert kept[|kept| - 1] == entry;
      } else {
        assert kept == keptPrefix;
      }
    }
  }

  /** A newest row whose quantity is missing, empty or zero is skipped: the
      older rows decide the load. */
  lemma EmptyRowSkipped(h: Host, data: seq<Dict>, row: Dict)
    requires !CarriesLoad(QuantityOf(row)) && MaterialIsText(row)
    ensures LatestLoad(h, data + [row]) == LatestLoad(h, data)
  {
    RowLoadCases(h, row);
    LastSomeSkip(data, row, RowStep(h));
  }

  /** The board scenario "a loaded row, then a row with quantity 0": the
      zero row does not reset the truck, which keeps the older row's
      material and quantity. */
  lemma ZeroRowDoesNotOverride(h: Host, older: Dict, newer: Dict)
    requires CarriesLoad(QuantityOf(older)) && MaterialIsText(older) && ToFloat(h, QuantityOf(older)).Ok?
    requires QuantityOf(newer) == Str("0") && MaterialIsText(newer)
    ensures LatestLoad(h, [older, newer]) ==
      Ok(Some(Load(Text.Strip(MaterialOf(older).s), ToFloat(h, QuantityOf(older)).value)))
  {
    LatestLoadNewest(h, [older, newer], 0);
  }

  /** A newest row with a quantity but no material gives a load of material
      "" with a non-zero quantity: the merged truck then counts as empty
      although it has yards left. */
  lemma LoadWithoutMaterial(h: Host, data: seq<Dict>, row: Dict)
    requires MaterialKey !in row && CarriesLoad(QuantityOf(row))
    requires ToFloat(h, QuantityOf(row)).Ok?
    ensures LatestLoad(h, data + [row]) == Ok(Some(Load("", ToFloat(h, QuantityOf(row)).value)))
  {
    assert Text.Strip("") == "";
    LatestLoadNewest(h, data + [row], |data|);
  }

  /** The inner loop of step 2, newest row first, with its `break`. */
  method FindLatestLoad(h: Host, data: seq<Dict>) returns (r: Result<Option<Load>>)
    ensures r == LatestLoad(h, data)
  {
    var j := |data|;
    assert data[..j] == data;
    while j > 0
      invariant 0 <= j <= |data|
      invariant LatestLoad(h, data) == LatestLoad(h, data[..j])
    {
      assert data[..j][..j - 1] == data[..j - 1];
      var row := data[j - 1];
      var quantity := Get(row, QuantityKey, Str(""));
      var material := StripValue(Get(row, MaterialKey, Str("")));
      if material.Raise? {
        return Raise;
      }
      if CarriesLoad(quantity) {
        var q := ToFloat(h, quantity);
        if q.Raise? {
          return Raise;
        }
        return Ok(Some(Load(material.value, q.value)));
      }
      j := j - 1;
    }
    r := Ok(None);
  }

  /** The outer loop of step 2. */
  method ScanMaterials(h: Host, history: seq<HistoryEntry>) returns (r: Result<map<string, Load>>)
    ensures r == Materials(h, history)
  {
    var materials: map<string, Load> := map[];
    for i := 0 to |history|
      invariant Materials(h, history[..i]) == Ok(materials)
    {
      assert history[..i + 1][..i] == history[..i];
      var entry := history[i];
      if entry.group == ProductionReview {
        var latest := FindLatestLoad(h, entry.data);
        if latest.Raise? {
          MaterialsRaisePersists(h, history, i + 1);
          return Raise;
        }
        if latest.value.Some? {
          materials := materials[entry.vehicle := latest.value.value];
        }
      }
    }
    assert history[..|history|] == history;
    r := Ok(materials);
  }

  /** Once step 2 has raised, later entries do not matter. */
  lemma {:induction false} MaterialsRaisePersists(h: Host, history: seq<HistoryEntry>, n: nat)
    requires n <= |history| && Materials(h, history[..n]).Raise?
    ensures Materials(h, history).Raise?
    decreases |history| - n
  {
    if n < |history| {
      assert history[..n + 1][..n] == history[..n];
      MaterialsRaisePersists(h, history, n + 1);
    } else {
      assert history[..n] == history;
    }
  }

  /** A truck of the merged table (loader.py:50-54). */
  datatype Truck = Truck(location: TruckLocation, material: string, quantityLeft: real)

  function MergeOne(materials: map<string, Load>): TruckLocation -> Truck {
    (loc: TruckLocation) =>
      if loc.vehicleNumber in materials
      then Truck(loc, materials[loc.vehicleNumber].material, materials[loc.vehicleNumber].quantityLeft)
      else Truck(loc, "", 0.0)
  }

  /** The two `.map` calls that add material and quantity to each truck. */
  function Merge(locations: seq<TruckLocation>, materials: map<string, Load>): (trucks: seq<Truck>)
    ensures |trucks| == |locations|
    ensures forall i :: 0 <= i < |trucks| ==> trucks[i].location == locations[i]
    ensures forall i :: 0 <= i < |trucks| ==> locations[i].vehicleNumber !in materials ==>
      trucks[i].material == "" && trucks[i].quantityLeft == 0.0
    ensures forall i :: 0 <= i < |trucks| ==> locations[i].vehicleNumber in materials ==>
      trucks[i].material == materials[locations[i].vehicleNumber].material
      && trucks[i].quantityLeft == materials[locations[i].vehicleNumber].quantityLeft
  {
    Seqs.Map(locations, MergeOne(materials))
  }

  // ---------------------------------------------------------------------
  // Step 3: the unscheduled jobs (loader.py:56-74)
  // ---------------------------------------------------------------------

  /** A row of the job table. */
  datatype Job = Job(
    name: string,
    client: string,
    status: string,
    material: string,
    bidQty: real,
    address: string,
    jobType: string,
    latitude: Json,
    longitude: Json,
    nightAccess: bool)

  /** `job.get(key, "").strip()`. */
  function TextField(d: Dict, key: string): Result<string> {
    StripValue(Get(d, key, Str("")))
  }

  /** `float(job.get("Bid Qty", 0) or 0)`. */
  function BidQty(h: Host, d: Dict): Result<real> {
    ToFloat(h, Or(Get(d, "Bid Qty", Int(0)), Int(0)))
  }

  /** `(job.get("Job Type") or "").strip()`. */
  function JobType(d: Dict): Result<string> {
    StripValue(Or(Get(d, "Job Type", Null), Str("")))
  }

  /** `str(job.get("Night?", "")).lower() == "yes"`. */
  predicate NightAccess(h: Host, d: Dict) {
    Text.Lower(ToStr(h, Get(d, "Night?", Str("")))) == "yes"
  }

  /** One job of the list, parsed with the permissive defaults of step 3;
      a job that is not a dict, a text field that is not a string, or a
      bid quantity that `float` rejects raises. */
  function ParseJob(h: Host, raw: Json): Result<Job> {
    if !raw.Obj? then Raise
    else
      var d := raw.fields;
      var name :- TextField(d, "Name");
      var client :- TextField(d, "Client");
      var status :- TextField(d, "Status");
      var material :- TextField(d, "Material");
      var bid :- BidQty(h, d);
      var address :- TextField(d, "Job Address");
      var jobType :- JobType(d);
      Ok(Job(name, client, status, material, bid, address, jobType,
             Get(d, "Latitude", Null), Get(d, "Longitude", Null), NightAccess(h, d)))
  }

  /** `key` is absent from the job or holds a string. */
  predicate TextOrAbsent(d: Dict, key: string) {
    key !in d || d[key].Str?
  }

  /** Every key read with `.get(key, "").strip()` is absent or a string. */
  predicate TextFieldsAreText(d: Dict) {
    && TextOrAbsent(d, "Name") && TextOrAbsent(d, "Client") && TextOrAbsent(d, "Status")
    && TextOrAbsent(d, "Material") && TextOrAbsent(d, "Job Address")
  }

  /** A job parses exactly when it is a dict whose text fields are strings
      where present, whose "Bid Qty", if truthy, is something `float`
      accepts, and whose "Job Type", if truthy, is a string; anything else
      raises (`AttributeError`, `TypeError` or `ValueError`). */
  lemma ParseJobSucceeds(h: Host, raw: Json)
    ensures ParseJob(h, raw).Ok? <==>
      && raw.Obj?
      && TextFieldsAreText(raw.fields)
      && ("Bid Qty" !in raw.fields || !Truthy(raw.fields["Bid Qty"]) || ToFloat(h, raw.fields["Bid Qty"]).Ok?)
      && ("Job Type" !in raw.fields || !Truthy(raw.fields["Job Type"]) || raw.fields["Job Type"].Str?)
  {
    if raw.Obj? {
      var d := raw.fields;
      TextFieldCases(d, "Name");
      TextFieldCases(d, "Client");
      TextFieldCases(d, "Status");
      TextFieldCases(d, "Material");
      TextFieldCases(d, "Job Address");
      OptionalFieldCases(h, d, "Bid Qty", "Job Type");
    }
  }

  /** A text field parses when it is absent or a string, and is "" when
      absent. */
  lemma TextFieldCases(d: Dict, key: string)
    ensures TextField(d, key).Ok? <==> TextOrAbsent(d, key)
    ensures key !in d ==> TextField(d, key) == Ok("")
  {
  }

  /** A falsy or missing "Bid Qty" is 0 and a falsy or missing "Job Type"
      is ""; otherwise `float` and `.strip()` decide. */
  lemma OptionalFieldCases(h: Host, d: Dict, bid: string, jobType: string)
    requires bid == "Bid Qty" && jobType == "Job Type"
    ensures BidQty(h, d).Ok? <==> (bid !in d || !Truthy(d[bid]) || ToFloat(h, d[bid]).Ok?)
    ensures (bid !in d || !Truthy(d[bid])) ==> BidQty(h, d) == Ok(0.0)
    ensures JobType(d).Ok? <==> (jobType !in d || !Truthy(d[jobType]) || d[jobType].Str?)
    ensures (jobType !in d || !Truthy(d[jobType])) ==> JobType(d) == Ok("")
  {
  }

  /** The defaults of step 3: a missing text field is "", a missing or falsy
      "Bid Qty" is 0, and a missing coordinate is None. */
  lemma ParseJobDefaults(h: Host, d: Dict)
    requires ParseJob(h, Obj(d)).Ok?
    ensures var j := ParseJob(h, Obj(d)).value;
      && ("Name" !in d ==> j.name == "")
      && ("Material" !in d ==> j.material == "")
      && ("Job Type" !in d ==> j.jobType == "")
      && (("Bid Qty" !in d || !Truthy(d["Bid Qty"])) ==> j.bidQty == 0.0)
      && ("Latitude" !in d ==> j.latitude == Null)
      && ("Longitude" !in d ==> j.longitude == Null)
  {
    var j := ParseJob(h, Obj(d)).value;
    assert j == Job(TextField(d, "Name").value, TextField(d, "Client").value, TextField(d, "Status").value,
                    TextField(d, "Material").value, BidQty(h, d).value, TextField(d, "Job Address").value,
                    JobType(d).value, Get(d, "Latitude", Null), Get(d, "Longitude", Null), NightAccess(h, d));
    TextFieldCases(d, "Name");
    TextFieldCases(d, "Material");
    OptionalFieldCases(h, d, "Bid Qty", "Job Type");
  }

  /** Night access holds for a string that lower-cases to "yes", and never
      for a missing field, None, a bool or an int (their `str` is "None",
      "True", "False" or digits). */
  lemma NightAccessCases(h: Host, d: Dict)
    ensures "Night?" in d && d["Night?"].Str? ==> (NightAccess(h, d) <==> Text.Lower(d["Night?"].s) == "yes")
    ensures "Night?" !in d || d["Night?"].Null? || d["Night?"].Bool? || d["Night?"].Int? ==> !NightAccess(h, d)
  {
    var shown := ToStr(h, Get(d, "Night?", Str("")));
    if "Night?" in d && (d["Night?"].Null? || d["Night?"].Bool? || d["Night?"].Int?) {
      assert shown != [] && shown[0] != 'y' && shown[0] != 'Y';
      assert Text.Lower(shown)[0] != 'y';
    }
  }

  function JobParser(h: Host): Json -> Result<Job> {
    raw => ParseJob(h, raw)
  }

  /** The `for job in jobs_to_be_scheduled` loop. */
  function ParsedJobs(h: Host, raw: seq<Json>): Result<seq<Job>> {
    MapOk(raw, JobParser(h))
  }

  /** The job table has one parsed row per input job, in input order, and the
      loop raises exactly when one of the jobs does. */
  lemma ParsedJobsPerJob(h: Host, raw: seq<Json>)
    ensures ParsedJobs(h, raw).Ok? <==> forall k :: 0 <= k < |raw| ==> ParseJob(h, raw[k]).Ok?
    ensures ParsedJobs(h, raw).Ok? ==>
      |ParsedJobs(h, raw).value| == |raw|
      && forall k :: 0 <= k < |raw| ==> ParsedJobs(h, raw).value[k] == ParseJob(h, raw[k]).value
  {
    MapOkPerElement(raw, JobParser(h));
  }

  method ParseJobs(h: Host, raw: seq<Json>) returns (r: Result<seq<Job>>)
    ensures r == ParsedJobs(h, raw)
  {
    var jobs: seq<Job> := [];
    for i := 0 to |raw|
      invariant ParsedJobs(h, raw[..i]) == Ok(jobs)
    {
      assert raw[..i + 1][..i] == raw[..i];
      var job := ParseJob(h, raw[i]);
      if job.Raise? {
        MapOkRaisePersists(raw, JobParser(h), i + 1);
        return Raise;
      }
      jobs := jobs + [job.value];
    }
    assert raw[..|raw|] == raw;
    r := Ok(jobs);
  }

  /** `jobs_data_raw.get("Jobs to be Scheduled", [])`, iterated: a list gives
      its elements; an empty string or dict gives nothing; a non-empty string
      or dict yields strings, on which `.get` raises; anything else is not
      iterable. */
  function JobList(doc: Dict): Result<seq<Json>> {
    match Get(doc, "Jobs to be Scheduled", Arr([]))
    case Arr(items) => Ok(items)
    case Str(s) => if s == "" then Ok([]) else Raise
    case Obj(m) => if m == map[] then Ok([]) else Raise
    case _ => Raise
  }

  predicate HasCoordinates(j: Job) {
    j.latitude != Null && j.longitude != Null
  }

  /** `dropna(subset=["latitude", "longitude"])`. */
  function Located(jobs: seq<Job>): seq<Job> {
    Seqs.Filter(jobs, HasCoordinates)
  }

  /** The jobs kept are those with both coordinates, each as often as it
      occurs, in table order. */
  lemma LocatedJobs(a: seq<Job>, b: seq<Job>, j: Job)
    ensures j in Located(a) <==> j in a && HasCoordinates(j)
    ensures multiset(Located(a))[j] == if HasCoordinates(j) then multiset(a)[j] else 0
    ensures Located(a + b) == Located(a) + Located(b)
  {
    Seqs.FilterMember(a, HasCoordinates, j);
    Seqs.FilterCount(a, HasCoordinates, j);
    Seqs.FilterAppend(a, b, HasCoordinates);
  }

  // ---------------------------------------------------------------------
  // Step 4: matching (loader.py:76-93)
  // ---------------------------------------------------------------------

  datatype Point = Point(latitude: Json, longitude: Json)

  /** geopy's `distance(a, b).miles`: the geodesic distance between two
      coordinate pairs, or the `ValueError` geopy raises for a coordinate it
      cannot use (one `float()` rejects, such as the "N/A" a main-board item
      without a location carries, or a latitude outside [-90, 90]). */
  type Distance = (Point, Point) -> Result<real>

  const RadiusMiles := 40.0

  function TruckPoint(t: Truck): Point {
    Point(t.location.latitude, t.location.longitude)
  }

  function JobPoint(j: Job): Point {
    Point(j.latitude, j.longitude)
  }

  /** `round(x, 2)`, with halves rounded up. */
  function Round2(x: real): real {
    ((x * 100.0 + 0.5).Floor as real) / 100.0
  }

  /** A job with the distance attached. */
  datatype Candidate = Candidate(job: Job, distanceMiles: real)

  /** geopy accepts the truck's and the job's coordinates. */
  predicate Measured(dist: Distance, t: Truck, j: Job) {
    dist(TruckPoint(t), JobPoint(j)).Ok?
  }

  /** The test of `find_jobs_for_truck`: the unrounded distance is at most 40
      miles and an empty truck takes any material, a loaded one only its own. */
  predicate Compatible(dist: Distance, t: Truck, j: Job) {
    Measured(dist, t, j) && dist(TruckPoint(t), JobPoint(j)).value <= RadiusMiles
    && (t.material == "" || j.material == t.material)
  }

  function CompatibleWith(dist: Distance, t: Truck): Job -> bool {
    j => Compatible(dist, t, j)
  }

  /** One iteration of the loop of `find_jobs_for_truck`: the distance, which
      may raise, then the job's entry when it passes the test. */
  function MatchOf(dist: Distance, t: Truck, j: Job): Result<seq<Candidate>> {
    var d :- dist(TruckPoint(t), JobPoint(j));
    Ok(if d <= RadiusMiles && (t.material == "" || j.material == t.material) then [Candidate(j, Round2(d))] else [])
  }

  /** The `nearby` list of a truck; the first distance geopy rejects ends the
      script. */
  function Nearby(dist: Distance, t: Truck, jobs: seq<Job>): Result<seq<Candidate>> {
    if jobs == [] then Ok([])
    else
      var init :- Nearby(dist, t, jobs[..|jobs| - 1]);
      var last :- MatchOf(dist, t, jobs[|jobs| - 1]);
      Ok(init + last)
  }

  function JobOf(c: Candidate): Job {
    c.job
  }

  /** Matching succeeds exactly when geopy accepts every pair; then the
      matched jobs are the compatible ones in table order, each carrying its
      rounded distance. */
  lemma {:induction false} NearbyJobs(dist: Distance, t: Truck, a: seq<Job>)
    ensures Nearby(dist, t, a).Ok? <==> forall k :: 0 <= k < |a| ==> Measured(dist, t, a[k])
    ensures Nearby(dist, t, a).Ok? ==>
      Seqs.Map(Nearby(dist, t, a).value, JobOf) == Seqs.Filter(a, CompatibleWith(dist, t))
    ensures Nearby(dist, t, a).Ok? ==> forall c :: c in Nearby(dist, t, a).value ==>
      Compatible(dist, t, c.job) && c.distanceMiles == Round2(dist(TruckPoint(t), JobPoint(c.job)).value)
  {
    if a != [] {
      var init := a[..|a| - 1];
      var x := a[|a| - 1];
      NearbyJobs(dist, t, init);
      assert forall k :: 0 <= k < |init| ==> init[k] == a[k];
      if Nearby(dist, t, a).Ok? {
        var v := Nearby(dist, t, init).value;
        var m := MatchOf(dist, t, x).value;
        assert Seqs.Map(v + m, JobOf) == Seqs.Map(v, JobOf) + Seqs.Map(m, JobOf);
      }
    }
  }

  /** Two runs of the loop in a row: the first, then the second, and the
      first exception ends both. */
  lemma {:induction false} NearbyAppend(dist: Distance, t: Truck, a: seq<Job>, b: seq<Job>)
    ensures Nearby(dist, t, a + b) ==
      if Nearby(dist, t, a).Raise? || Nearby(dist, t, b).Raise? then Raise
      else Ok(Nearby(dist, t, a).value + Nearby(dist, t, b).value)
    decreases |b|
  {
    if b == [] {
      assert a + b == a;
      assert Nearby(dist, t, a).Ok? ==> Nearby(dist, t, a).value + [] == Nearby(dist, t, a).value;
    } else {
      var init := b[..|b| - 1];
      var x := b[|b| - 1];
      assert (a + b)[..|a + b| - 1] == a + init && (a + b)[|a + b| - 1] == x;
      NearbyAppend(dist, t, a, init);
      if Nearby(dist, t, a).Ok? && Nearby(dist, t, init).Ok? && MatchOf(dist, t, x).Ok? {
        var va, vi, m := Nearby(dist, t, a).value, Nearby(dist, t, init).value, MatchOf(dist, t, x).value;
        assert (va + vi) + m == va + (vi + m);
      }
    }
  }

  /** Every match is within the radius and compatible, carries the rounded
      distance, the matched jobs are exactly the compatible ones (each as often
      as it occurs in the table), and the matches follow table order; a
      coordinate geopy rejects makes the whole matching raise. */
  lemma NearbyMatches(dist: Distance, t: Truck, a: seq<Job>, b: seq<Job>, j: Job)
    ensures Nearby(dist, t, a).Ok? <==> forall k :: 0 <= k < |a| ==> Measured(dist, t, a[k])
    ensures Nearby(dist, t, a).Ok? ==> forall c :: c in Nearby(dist, t, a).value ==>
      dist(TruckPoint(t), JobPoint(c.job)).Ok?
      && dist(TruckPoint(t), JobPoint(c.job)).value <= RadiusMiles
      && (t.material == "" || c.job.material == t.material)
      && c.distanceMiles == Round2(dist(TruckPoint(t), JobPoint(c.job)).value)
    ensures Nearby(dist, t, a).Ok? ==>
      multiset(Seqs.Map(Nearby(dist, t, a).value, JobOf))[j] == if Compatible(dist, t, j) then multiset(a)[j] else 0
    ensures Nearby(dist, t, a + b) ==
      if Nearby(dist, t, a).Raise? || Nearby(dist, t, b).Raise? then Raise
      else Ok(Nearby(dist, t, a).value + Nearby(dist, t, b).value)
  {
    NearbyJobs(dist, t, a);
    Seqs.FilterCount(a, CompatibleWith(dist, t), j);
    NearbyAppend(dist, t, a, b);
  }

  /** `find_jobs_for_truck`. */
  method FindJobsForTruck(dist: Distance, t: Truck, jobs: seq<Job>) returns (r: Result<seq<Candidate>>)
    ensures r == Nearby(dist, t, jobs)
  {
    var isEmpty := t.material == "";
    var nearby := [];
    for i := 0 to |jobs|
      invariant Nearby(dist, t, jobs[..i]) == Ok(nearby)
    {
      var job := jobs[i];
      assert jobs[..i + 1][..i] == jobs[..i] && jobs[..i + 1][i] == job;
      var d := dist(TruckPoint(t), JobPoint(job));
      if d.Raise? {
        assert jobs == jobs[..i + 1] + jobs[i + 1..];
        NearbyAppend(dist, t, jobs[..i + 1], jobs[i + 1..]);
        return Raise;
      }
      assert MatchOf(dist, t, job) ==
        Ok(if d.value <= RadiusMiles && (isEmpty || job.material == t.material) then [Candidate(job, Round2(d.value))] else []);
      assert Nearby(dist, t, jobs[..i + 1]) == Ok(nearby + MatchOf(dist, t, job).value);
      if d.value <= RadiusMiles && (isEmpty || job.material == t.material) {
        nearby := nearby + [Candidate(job, Round2(d.value))];
      } else {
        assert nearby + [] == nearby;
      }
    }
    assert jobs[..|jobs|] == jobs;
    r := Ok(nearby);
  }

  // ---------------------------------------------------------------------
  // Step 5: the candidate list and the prompt (loader.py:95-164)
  // ---------------------------------------------------------------------

  const MaxCandidates := 10

  function DistanceOf(c: Candidate): real {
    c.distanceMiles
  }

  /** `sorted(nearby_jobs, key=lambda j: j["distance_miles"])[:10]`. */
  function TopCandidates(cands: seq<Candidate>): seq<Candidate> {
    Seqs.Take(Seqs.SortBy(cands, DistanceOf), MaxCandidates)
  }

  /** The list given to a prompt has at most ten matches, as many as there
      are up to ten, is ordered by rounded distance, takes each match at most
      as often as it occurs, never leaves out a match nearer than one it
      keeps, and among equal distances keeps the earliest matches in their
      original order. */
  lemma TopCandidatesProperties(cands: seq<Candidate>)
    ensures var r := TopCandidates(cands);
      && |r| == (if |cands| <= MaxCandidates then |cands| else MaxCandidates)
      && Seqs.SortedBy(r, DistanceOf)
      && multiset(r) <= multiset(cands)
      && (forall x, i :: x in multiset(cands) - multiset(r) && 0 <= i < |r| ==>
            r[i].distanceMiles <= x.distanceMiles)
      && (forall k :: Seqs.Filter(r, Seqs.KeyIs(DistanceOf, k))
                      <= Seqs.Filter(cands, Seqs.KeyIs(DistanceOf, k)))
  {
    var sorted := Seqs.SortBy(cands, DistanceOf);
    Seqs.SortByProperties(cands, DistanceOf);
    var r := TopCandidates(cands);
    var rest := sorted[|r|..];
    assert sorted == r + rest;
    assert multiset(cands) == multiset(r) + multiset(rest);
    forall x, i | x in multiset(cands) - multiset(r) && 0 <= i < |r|
      ensures r[i].distanceMiles <= x.distanceMiles
    {
      assert x in multiset(rest);
      var j :| 0 <= j < |rest| && rest[j] == x;
      assert sorted[|r| + j] == x && sorted[i] == r[i];
    }
    forall k ensures Seqs.Filter(r, Seqs.KeyIs(DistanceOf, k))
                     <= Seqs.Filter(cands, Seqs.KeyIs(DistanceOf, k)) {
      Seqs.FilterAppend(r, rest, Seqs.KeyIs(DistanceOf, k));
    }
  }

  function NightLabel(b: bool): string {
    if b then "Yes" else "No"
  }

  /** `truck_row['material'] or 'None (empty)'`. */
  function MaterialLabel(m: string): string {
    if m == "" then "None (empty)" else m
  }

  const MaterialMarker := " \U{2014} Material: "

  /** One entry of `job_descriptions`. */
  function JobLine(h: Host, index: nat, c: Candidate): string {
    Text.NatToString(index) + ". " + c.job.name + MaterialMarker + JobFacts(h, c)
  }

  /** What an entry says after the job's name. */
  function JobFacts(h: Host, c: Candidate): string {
    c.job.material + ", Bid Qty: " + h.showFloat(c.job.bidQty) + " yards, Distance: "
    + h.showFloat(c.distanceMiles) + " miles, Night Access: " + NightLabel(c.job.nightAccess)
  }

  /** `job_descriptions`: the candidates numbered from 1 in list order. */
  function JobLines(h: Host, cands: seq<Candidate>): (lines: seq<string>)
    ensures |lines| == |cands|
    ensures forall i :: 0 <= i < |cands| ==> lines[i] == JobLine(h, i + 1, cands[i])
  {
    seq(|cands|, i requires 0 <= i < |cands| => JobLine(h, i + 1, cands[i]))
  }

  /** The lines of the prompt between its opening and closing line breaks:
      the truck's lines, the job descriptions, and the instructions with the
      JSON example. */
  function PromptLines(h: Host, t: Truck, jobs: seq<Candidate>): seq<string> {
    PromptHead(h, t) + [Text.Join(JobLines(h, jobs), "\n")] + PromptTail(t.location.vehicleNumber)
  }

  /** The template's lines up to the job list. Long lines of the template are
      written as several literals; each concatenation is the template's line,
      character for character. */
  function PromptHead(h: Host, t: Truck): (lines: seq<string>)
    ensures |lines| == JobBlockLine
  {
    [ PromptOpening,
      "",
      "Truck ID: " + t.location.vehicleNumber,
      "Location: " + ToStr(h, t.location.address) + " (" + ToStr(h, t.location.latitude)
        + ", " + ToStr(h, t.location.longitude) + ")",
      "Material on board: " + MaterialLabel(t.material),
      "Quantity left on " + "truck: " + h.showFloat(t.quantityLeft) + " yards",
      "Truck max capacity: " + "40 yards",
      "",
      JobListHeading ]
  }

  /** The line that introduces the job list. */
  const JobListHeading := "Here are 10 nearby " + "jobs to choose from:"

  /** The number of prompt lines before the job list. */
  const JobBlockLine := 9

  /** The template's lines after the job list. */
  function PromptTail(id: string): seq<string> {
    [ "",
      "Instructions:",
      "1. Select 2\U{2013}3 " + "jobs from the list for " + "this truck to perform " + "tomorrow.",
      "2. If truck is empty " + "or has less than 10 " + "yards left, ask to " + "fill up with 40 yards "
        + "of mulch.",
      "3. Prefer jobs with " + "night access first " + "(can start at 5 AM), " + "otherwise default "
        + "start is 7 AM.",
      "4. Only pick jobs " + "within 40 miles.",
      "5. Return your " + "recommendation in JSON " + "format like this:",
      "",
      "{",
      "  \"truck\": \"" + id + "\",",
      "  \"recommended_jobs\": [",
      "    {",
      "      " + "\"job_name\": " + "\"Job Name\",",
      "      " + "\"material\": " + "\"Material\",",
      "      " + "\"bid_qty\": 20,",
      "      " + "\"start_time\": " + "\"5:00 AM\",",
      "      " + "\"address\": " + "\"Full address\"",
      "    }",
      "  ]",
      "}" ]
  }

  /** The first line of every prompt. */
  const PromptOpening := "You are a scheduling " + "assistant for mulch " + "delivery trucks."

  function PromptBody(h: Host, t: Truck, jobs: seq<Candidate>): string {
    Text.Join(PromptLines(h, t, jobs), "\n")
  }

  /** The prompt: the triple-quoted template, stripped. */
  function PromptText(h: Host, t: Truck, jobs: seq<Candidate>): string {
    Text.Strip("\n" + PromptBody(h, t, jobs) + "\n")
  }

  /** `.strip()` removes exactly the template's two surrounding line breaks,
      so the prompt opens with the assistant line, closes with the JSON
      example's brace, and is unchanged by a further strip. */
  lemma PromptTextShape(h: Host, t: Truck, jobs: seq<Candidate>)
    ensures PromptText(h, t, jobs) == PromptBody(h, t, jobs)
    ensures Text.StartsWith(PromptText(h, t, jobs), PromptOpening)
    ensures Text.EndsWith(PromptText(h, t, jobs), "}")
    ensures Text.Strip(PromptText(h, t, jobs)) == PromptText(h, t, jobs)
  {
    var lines := PromptLines(h, t, jobs);
    var body := PromptBody(h, t, jobs);
    Text.JoinEnds(lines, "\n");
    assert PromptOpening[0] == 'Y';
    assert body[0] == 'Y' && body[|body| - 1] == '}';
    Text.StripCharsPadded("\n", body, "\n", Text.IsSpace);
    Text.StripCharsOfClean(body, Text.IsSpace);
  }

  /** The digits at the start of a string. */
  function LeadingDigits(s: string): (r: string)
    ensures |r| <= |s| && r == s[..|r|]
  {
    if s != [] && '0' <= s[0] <= '9' then [s[0]] + LeadingDigits(s[1..]) else ""
  }

  /** The text before the first occurrence of `c`. */
  function Before(s: string, c: char): (r: string)
    ensures |r| <= |s| && r == s[..|r|]
  {
    if s == [] || s[0] == c then "" else [s[0]] + Before(s[1..], c)
  }

  /** Reads a description line back: its number, and the name between ". "
      and the " — Material: " that follows it. */
  function LineNumber(line: string): nat {
    var digits := LeadingDigits(line);
    assert forall k :: 0 <= k < |digits| ==> '0' <= digits[k] <= '9' by {
      LeadingDigitsAreDigits(line);
    }
    Text.ParseDigits(digits)
  }

  function LineName(line: string): string {
    var rest := line[|LeadingDigits(line)|..];
    var name := if |rest| >= 2 then Before(rest[2..], '\U{2014}') else "";
    if name == "" then "" else name[..|name| - 1]
  }

  lemma {:induction false} LeadingDigitsAreDigits(s: string)
    ensures forall k :: 0 <= k < |LeadingDigits(s)| ==> '0' <= LeadingDigits(s)[k] <= '9'
  {
    if s != [] && '0' <= s[0] <= '9' {
      LeadingDigitsAreDigits(s[1..]);
    }
  }

  lemma {:induction false} LeadingDigitsOf(d: string, x: string)
    requires forall k :: 0 <= k < |d| ==> '0' <= d[k] <= '9'
    requires x != [] && !('0' <= x[0] <= '9')
    ensures LeadingDigits(d + x) == d
  {
    if d != [] {
      assert (d + x)[1..] == d[1..] + x;
      LeadingDigitsOf(d[1..], x);
    }
  }

  lemma {:induction false} BeforeOf(a: string, c: char, x: string)
    requires c !in a
    ensures Before(a + [c] + x, c) == a
  {
    if a != [] {
      assert (a + [c] + x)[1..] == a[1..] + [c] + x;
      BeforeOf(a[1..], c, x);
    }
  }

  /** The number at the head of a description line is its index. */
  lemma JobLineNumber(h: Host, index: nat, c: Candidate)
    ensures LineNumber(JobLine(h, index, c)) == index
  {
    var digits := Text.NatToString(index);
    var tail := ". " + c.job.name + MaterialMarker + JobFacts(h, c);
    assert JobLine(h, index, c) == digits + tail;
    LeadingDigitsOf(digits, tail);
    Text.NatToStringRoundTrip(index);
  }

  /** The name between ". " and the em dash is the job's name, when the name
      has no em dash of its own. */
  lemma JobLineName(h: Host, index: nat, c: Candidate)
    requires '\U{2014}' !in c.job.name
    ensures LineName(JobLine(h, index, c)) == c.job.name
  {
    var after := [' '] + "Material: " + JobFacts(h, c);
    assert MaterialMarker == " " + ['\U{2014}'] + [' '] + "Material: ";
    assert JobLine(h, index, c) == Text.NatToString(index) + ". " + c.job.name + " " + ['\U{2014}'] + after;
    LineNameOf(Text.NatToString(index), c.job.name, after);
  }

  lemma LineNameOf(digits: string, name: string, after: string)
    requires forall k :: 0 <= k < |digits| ==> '0' <= digits[k] <= '9'
    requires '\U{2014}' !in name
    ensures LineName(digits + ". " + name + " " + ['\U{2014}'] + after) == name
  {
    var tail := ". " + name + " " + ['\U{2014}'] + after;
    var line := digits + tail;
    assert line == digits + ". " + name + " " + ['\U{2014}'] + after;
    LeadingDigitsOf(digits, tail);
    assert line[|digits|..] == tail;
    assert tail[2..] == (name + " ") + ['\U{2014}'] + after;
    BeforeOf(name + " ", '\U{2014}', after);
  }

  /** Reading the description lines back gives the numbers 1, 2, ... and the
      job names in list order, for names without an em dash. */
  lemma JobLinesReadBack(h: Host, cands: seq<Candidate>, i: nat)
    requires i < |cands| && '\U{2014}' !in cands[i].job.name
    ensures LineNumber(JobLines(h, cands)[i]) == i + 1
    ensures LineName(JobLines(h, cands)[i]) == cands[i].job.name
  {
    JobLineNumber(h, i + 1, cands[i]);
    JobLineName(h, i + 1, cands[i]);
  }

  /** No field of the truck that the prompt prints holds a line break. */
  predicate OneLineTruck(h: Host, t: Truck) {
    '\n' !in t.location.vehicleNumber && '\n' !in ToStr(h, t.location.address)
    && '\n' !in ToStr(h, t.location.latitude) && '\n' !in ToStr(h, t.location.longitude)
    && '\n' !in t.material && '\n' !in h.showFloat(t.quantityLeft)
  }

  /** No field of the candidate that the prompt prints holds a line break. */
  predicate OneLineCandidate(h: Host, c: Candidate) {
    '\n' !in c.job.name && '\n' !in c.job.material
    && '\n' !in h.showFloat(c.job.bidQty) && '\n' !in h.showFloat(c.distanceMiles)
  }

  lemma OpeningOneLine()
    ensures '\n' !in PromptOpening && '\n' !in JobListHeading
  {
  }

  lemma TruckLabelsOneLine()
    ensures '\n' !in "Truck ID: " && '\n' !in "Location: " && '\n' !in " ("
      && '\n' !in ", " && '\n' !in ")" && '\n' !in "Material on board: "
  {
  }

  lemma LoadLabelsOneLine()
    ensures '\n' !in "None (empty)" && '\n' !in "Quantity left on " && '\n' !in "truck: "
      && '\n' !in " yards" && '\n' !in "Truck max capacity: " && '\n' !in "40 yards"
  {
  }

  /** The truck's lines of the prompt are single lines. */
  lemma PromptHeadOneLine(h: Host, t: Truck)
    requires OneLineTruck(h, t)
    ensures forall k :: 0 <= k < |PromptHead(h, t)| ==> '\n' !in PromptHead(h, t)[k]
  {
    OpeningOneLine();
    TruckLabelsOneLine();
    LoadLabelsOneLine();
  }

  lemma JobLineOneLine(h: Host, index: nat, c: Candidate)
    requires OneLineCandidate(h, c)
    ensures '\n' !in JobLine(h, index, c)
  {
  }

  /** The job descriptions are single lines when the candidates' printed
      fields are. */
  lemma JobLinesOneLine(h: Host, jobs: seq<Candidate>)
    requires forall c :: c in jobs ==> OneLineCandidate(h, c)
    ensures forall i :: 0 <= i < |JobLines(h, jobs)| ==> '\n' !in JobLines(h, jobs)[i]
  {
    forall i | 0 <= i < |jobs| ensures '\n' !in JobLines(h, jobs)[i] {
      assert jobs[i] in jobs;
      JobLineOneLine(h, i + 1, jobs[i]);
    }
  }

  /** The prompt is the truck's lines, the joined job descriptions and the
      instruction lines, joined by line breaks. */
  lemma PromptTextLines(h: Host, t: Truck, jobs: seq<Candidate>)
    ensures PromptText(h, t, jobs) ==
      Text.Join(PromptHead(h, t) + [Text.Join(JobLines(h, jobs), "\n")] + PromptTail(t.location.vehicleNumber), "\n")
  {
    PromptTextShape(h, t, jobs);
  }

  /** Split into lines, a prompt is its truck's lines, then the description
      of each candidate on a line of its own, in list order, then the lines
      of the instructions: the job list sits right after the line
      introducing it. */
  lemma PromptJobBlock(h: Host, t: Truck, jobs: seq<Candidate>)
    requires jobs != []
    requires OneLineTruck(h, t) && forall c :: c in jobs ==> OneLineCandidate(h, c)
    ensures Text.Split(PromptText(h, t, jobs), '\n') ==
      PromptHead(h, t) + JobLines(h, jobs) + Text.Split(Text.Join(PromptTail(t.location.vehicleNumber), "\n"), '\n')
    ensures Text.Split(PromptText(h, t, jobs), '\n')[JobBlockLine - 1] == JobListHeading
  {
    PromptTextLines(h, t, jobs);
    PromptHeadOneLine(h, t);
    JobLinesOneLine(h, jobs);
    Text.SplitOfNestedJoin(PromptHead(h, t), JobLines(h, jobs), PromptTail(t.location.vehicleNumber), '\n');
  }

  function NameOf(c: Candidate): string {
    c.job.name
  }

  /** Reading the job list back out of a prompt's text gives the numbers 1,
      2, ... and the candidates' job names, in list order, when no printed
      field holds a line break and no name holds an em dash. */
  lemma PromptReadBack(h: Host, t: Truck, jobs: seq<Candidate>)
    requires jobs != []
    requires OneLineTruck(h, t) && forall c :: c in jobs ==> OneLineCandidate(h, c)
    requires forall c :: c in jobs ==> '\U{2014}' !in c.job.name
    ensures |Text.Split(PromptText(h, t, jobs), '\n')| > JobBlockLine + |jobs|
    ensures var block := Text.Split(PromptText(h, t, jobs), '\n')[JobBlockLine..JobBlockLine + |jobs|];
      && Seqs.Map(block, LineName) == Seqs.Map(jobs, NameOf)
      && forall i :: 0 <= i < |jobs| ==> LineNumber(block[i]) == i + 1
  {
    PromptJobBlock(h, t, jobs);
    var ls := Text.Split(PromptText(h, t, jobs), '\n');
    assert ls[JobBlockLine..JobBlockLine + |jobs|] == JobLines(h, jobs);
    JobLinesNames(h, jobs);
  }

  /** The description lines read back as the numbers 1, 2, ... and the job
      names in list order. */
  lemma JobLinesNames(h: Host, jobs: seq<Candidate>)
    requires forall c :: c in jobs ==> '\U{2014}' !in c.job.name
    ensures Seqs.Map(JobLines(h, jobs), LineName) == Seqs.Map(jobs, NameOf)
    ensures forall i :: 0 <= i < |jobs| ==> LineNumber(JobLines(h, jobs)[i]) == i + 1
  {
    forall i | 0 <= i < |jobs|
      ensures LineName(JobLines(h, jobs)[i]) == jobs[i].job.name
      ensures LineNumber(JobLines(h, jobs)[i]) == i + 1
    {
      assert jobs[i] in jobs;
      JobLinesReadBack(h, jobs, i);
    }
  }

  /** An entry of `llm_prompts`. */
  datatype PromptEntry = PromptEntry(truckId: string, prompt: string)

  /** How a truck's prompt is written from its nearest matches. */
  type Render = (Truck, seq<Candidate>) -> string

  /** The prompt template of step 5. */
  function Template(h: Host): Render {
    (t: Truck, jobs: seq<Candidate>) => PromptText(h, t, jobs)
  }

  /** One iteration of the loop of step 5: no entry for a truck without a
      match (the `continue`), otherwise its vehicle number and its prompt
      over its ten nearest matches; matching may raise. */
  function TruckEntry(dist: Distance, jobs: seq<Job>, render: Render, t: Truck): Result<Option<PromptEntry>> {
    var nearby :- Nearby(dist, t, jobs);
    Ok(if nearby == [] then None
       else Some(PromptEntry(t.location.vehicleNumber, render(t, TopCandidates(nearby)))))
  }

  function OptionList<T>(o: Option<T>): seq<T> {
    if o.Some? then [o.value] else []
  }

  /** `llm_prompts` after the loop of step 5, for any template. */
  function PromptsWith(dist: Distance, trucks: seq<Truck>, jobs: seq<Job>, render: Render): Result<seq<PromptEntry>> {
    if trucks == [] then Ok([])
    else
      var init :- PromptsWith(dist, trucks[..|trucks| - 1], jobs, render);
      var entry :- TruckEntry(dist, jobs, render, trucks[|trucks| - 1]);
      Ok(init + OptionList(entry))
  }

  /** `llm_prompts` after the loop of step 5. */
  function Prompts(h: Host, dist: Distance, trucks: seq<Truck>, jobs: seq<Job>): Result<seq<PromptEntry>> {
    PromptsWith(dist, trucks, jobs, Template(h))
  }

  /** One prompt per truck that has a match, none for the others, in truck
      order: the prompts of a concatenation are the concatenation of the
      prompts (the first exception ends both), and one truck contributes its
      prompt exactly when it has a match. */
  lemma {:induction false} PromptsPerTruck(dist: Distance, a: seq<Truck>, b: seq<Truck>, t: Truck, jobs: seq<Job>, render: Render)
    ensures PromptsWith(dist, a + b, jobs, render) ==
      if PromptsWith(dist, a, jobs, render).Raise? || PromptsWith(dist, b, jobs, render).Raise? then Raise
      else Ok(PromptsWith(dist, a, jobs, render).value + PromptsWith(dist, b, jobs, render).value)
    ensures PromptsWith(dist, [t], jobs, render) ==
      if Nearby(dist, t, jobs).Raise? then Raise
      else if Nearby(dist, t, jobs).value == [] then Ok([])
      else Ok([PromptEntry(t.location.vehicleNumber, render(t, TopCandidates(Nearby(dist, t, jobs).value)))])
    decreases |b|
  {
    assert [t][..0] == [];
    var et := TruckEntry(dist, jobs, render, t);
    assert et.Ok? ==> [] + OptionList(et.value) == OptionList(et.value);
    var pa := PromptsWith(dist, a, jobs, render);
    if b == [] {
      assert a + b == a;
      assert pa.Ok? ==> pa.value + [] == pa.value;
    } else {
      var b' := b[..|b| - 1];
      var last := b[|b| - 1];
      assert (a + b)[..|a + b| - 1] == a + b' && (a + b)[|a + b| - 1] == last;
      PromptsPerTruck(dist, a, b', t, jobs, render);
      var pb' := PromptsWith(dist, b', jobs, render);
      var e := TruckEntry(dist, jobs, render, last);
      if pa.Ok? && pb'.Ok? && e.Ok? {
        assert (pa.value + pb'.value) + OptionList(e.value) == pa.value + (pb'.value + OptionList(e.value));
      }
    }
  }

  /** With the script's own template, a truck's prompt is the stripped
      template filled in for it. */
  lemma PromptOfTruck(h: Host, dist: Distance, t: Truck, jobs: seq<Job>)
    ensures Prompts(h, dist, [t], jobs) ==
      if Nearby(dist, t, jobs).Raise? then Raise
      else if Nearby(dist, t, jobs).value == [] then Ok([])
      else Ok([PromptEntry(t.location.vehicleNumber, PromptText(h, t, TopCandidates(Nearby(dist, t, jobs).value)))])
  {
    PromptsPerTruck(dist, [], [t], t, jobs, Template(h));
  }

  /** The loop succeeds exactly when every truck's matching does, and then
      gives at most one prompt per truck. */
  lemma {:induction false} PromptsShorter(dist: Distance, trucks: seq<Truck>, jobs: seq<Job>, render: Render)
    ensures PromptsWith(dist, trucks, jobs, render).Ok? <==>
      forall k :: 0 <= k < |trucks| ==> Nearby(dist, trucks[k], jobs).Ok?
    ensures PromptsWith(dist, trucks, jobs, render).Ok? ==>
      |PromptsWith(dist, trucks, jobs, render).value| <= |trucks|
  {
    if trucks != [] {
      var init := trucks[..|trucks| - 1];
      PromptsShorter(dist, init, jobs, render);
      assert forall k :: 0 <= k < |init| ==> init[k] == trucks[k];
    }
  }

  /** The body of the loop of step 5 for one truck. */
  method TruckPrompt(dist: Distance, t: Truck, jobs: seq<Job>, render: Render) returns (entry: Result<Option<PromptEntry>>)
    ensures entry == TruckEntry(dist, jobs, render, t)
  {
    var nearby := FindJobsForTruck(dist, t, jobs);
    if nearby.Raise? {
      return Raise;
    }
    if nearby.value == [] {
      return Ok(None);
    }
    var top := TopCandidates(nearby.value);
    entry := Ok(Some(PromptEntry(t.location.vehicleNumber, render(t, top))));
  }

  /** One more truck: the prompts so far, then its entry. */
  lemma PromptsStep(dist: Distance, trucks: seq<Truck>, i: nat, jobs: seq<Job>, render: Render)
    requires i < |trucks|
    ensures PromptsWith(dist, trucks[..i + 1], jobs, render) ==
      var init := PromptsWith(dist, trucks[..i], jobs, render);
      var e := TruckEntry(dist, jobs, render, trucks[i]);
      if init.Raise? || e.Raise? then Raise else Ok(init.value + OptionList(e.value))
  {
    assert trucks[..i + 1][..i] == trucks[..i] && trucks[..i + 1][i] == trucks[i];
  }

  /** The loop of step 5. */
  method BuildPrompts(dist: Distance, trucks: seq<Truck>, jobs: seq<Job>, render: Render)
    returns (r: Result<seq<PromptEntry>>)
    ensures r == PromptsWith(dist, trucks, jobs, render)
  {
    var prompts := [];
    for i := 0 to |trucks|
      invariant PromptsWith(dist, trucks[..i], jobs, render) == Ok(prompts)
    {
      var entry := TruckPrompt(dist, trucks[i], jobs, render);
      PromptsStep(dist, trucks, i, jobs, render);
      if entry.Raise? {
        PromptsShorter(dist, trucks, jobs, render);
        return Raise;
      }
      prompts := prompts + OptionList(entry.value);
    }
    assert trucks[..|trucks|] == trucks;
    r := Ok(prompts);
  }

  // ---------------------------------------------------------------------
  // The whole script
  // ---------------------------------------------------------------------

  /** The script from its three inputs to `llm_prompts`. It raises when
      step 2 or step 3 raises, when the truck table is empty (pandas has no
      "vehicle_number" column to map), when the job list is empty (no
      "latitude" column for `dropna`), when geopy rejects a coordinate pair,
      and when no truck gets a prompt (`llm_prompts[0]`). */
  function Run(h: Host, dist: Distance, telemetry: seq<Telemetry>, history: seq<HistoryEntry>, doc: Dict)
    : Result<seq<PromptEntry>>
  {
    var locations := TruckLocations(telemetry);
    var materials :- Materials(h, history);
    if locations == [] then Raise
    else
      var trucks := Merge(locations, materials);
      var raw :- JobList(doc);
      var parsed :- ParsedJobs(h, raw);
      if parsed == [] then Raise
      else
        var prompts :- Prompts(h, dist, trucks, Located(parsed));
        if prompts == [] then Raise else Ok(prompts)
  }

  /** A successful run produces at least one prompt and at most one per
      reporting truck; an empty feed or an empty job list makes it raise. */
  lemma RunOutcome(h: Host, dist: Distance, telemetry: seq<Telemetry>, history: seq<HistoryEntry>, doc: Dict)
    ensures Run(h, dist, telemetry, history, doc).Ok? ==>
      var ps := Run(h, dist, telemetry, history, doc).value;
      1 <= |ps| <= |TruckLocations(telemetry)|
    ensures telemetry == [] ==> Run(h, dist, telemetry, history, doc).Raise?
    ensures JobList(doc) == Ok([]) ==> Run(h, dist, telemetry, history, doc).Raise?
  {
    var locations := TruckLocations(telemetry);
    if Materials(h, history).Ok? && locations != [] && JobList(doc).Ok? {
      var trucks := Merge(locations, Materials(h, history).value);
      var parsed := ParsedJobs(h, JobList(doc).value);
      if parsed.Ok? {
        PromptsShorter(dist, trucks, Located(parsed.value), Template(h));
      }
    }
  }

  /** A truck and a located job whose coordinates geopy rejects end the
      script, whatever the other trucks and jobs are. */
  lemma RunRaisesOnRejectedPair(h: Host, dist: Distance, telemetry: seq<Telemetry>, history: seq<HistoryEntry>, doc: Dict,
                                t: Truck, j: Job)
    requires Materials(h, history).Ok? && JobList(doc).Ok? && ParsedJobs(h, JobList(doc).value).Ok?
    requires t in Merge(TruckLocations(telemetry), Materials(h, history).value)
    requires j in Located(ParsedJobs(h, JobList(doc).value).value)
    requires !Measured(dist, t, j)
    ensures Run(h, dist, telemetry, history, doc).Raise?
  {
    var trucks := Merge(TruckLocations(telemetry), Materials(h, history).value);
    var jobs := Located(ParsedJobs(h, JobList(doc).value).value);
    PromptsShorter(dist, trucks, jobs, Template(h));
    NearbyJobs(dist, t, jobs);
    var k :| 0 <= k < |trucks| && trucks[k] == t;
    var i :| 0 <= i < |jobs| && jobs[i] == j;
  }

  method RunLoader(h: Host, dist: Distance, telemetry: seq<Telemetry>, history: seq<HistoryEntry>, doc: Dict)
    returns (r: Result<seq<PromptEntry>>)
    ensures r == Run(h, dist, telemetry, history, doc)
  {
    var locations := ParseTruckLocations(telemetry);
    var materials := ScanMaterials(h, history);
    if materials.Raise? || locations == [] {
      return Raise;
    }
    var trucks := Merge(locations, materials.value);
    var raw := JobList(doc);
    if raw.Raise? {
      return Raise;
    }
    var parsed := ParseJobs(h, raw.value);
    if parsed.Raise? || parsed.value == [] {
      return Raise;
    }
    var prompts := BuildPrompts(dist, trucks, Located(parsed.value), Template(h));
    if prompts.Raise? || prompts.value == [] {
      return Raise;
    }
    r := prompts;
  }
}
