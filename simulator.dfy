/** The simulator script (app/simulator.py): sends each truck's prompt to the
    language model, reconciles each reply into a schedule entry (the JSON
    object the reply contains, or an empty recommendation when the call or
    the reply fails), keeps the entries that carry recommendations, and
    renders them as a fixed-width text table. */
module Simulator {
  import opened Py
  import Text
  import Seqs
  import Loader

  // ---------------------------------------------------------------------
  // extract_json_block (simulator.py:15-25): the pattern {\s*"truck".*}
  // searched with DOTALL, then json.loads
  // ---------------------------------------------------------------------

  /** `"truck"`, quotes included. */
  const TruckKey := "\"truck\""

  /** Where `\s*` starting at `i` stops: the first index at or after `i`
      that is not whitespace. */
  function SkipSpace(s: string, i: nat): (j: nat)
    requires i <= |s|
    ensures i <= j <= |s|
    decreases |s| - i
  {
    if i < |s| && Text.IsSpace(s[i]) then SkipSpace(s, i + 1) else i
  }

  /** `\s*` consumes exactly the whitespace run at `i`. */
  lemma {:induction false} SkipSpaceRun(s: string, i: nat)
    requires i <= |s|
    ensures forall k :: i <= k < SkipSpace(s, i) ==> Text.IsSpace(s[k])
    ensures SkipSpace(s, i) < |s| ==> !Text.IsSpace(s[SkipSpace(s, i)])
    decreases |s| - i
  {
    if i < |s| && Text.IsSpace(s[i]) {
      SkipSpaceRun(s, i + 1);
    }
  }

  /** When `{\s*"truck"` matches at `p`, the index just after `"truck"`.
      Since `"` is not whitespace, `\s*` can only match the whole run. */
  function HeaderEnd(s: string, p: nat): (r: Option<nat>)
    ensures r.Some? ==> p < r.value <= |s|
  {
    if p < |s| && s[p] == '{' then
      var q := SkipSpace(s, p + 1);
      if Text.OccursAt(s, TruckKey, q) then Some(q + |TruckKey|) else None
    else None
  }

  /** The index of the last occurrence of `c`. */
  function LastIndexOf(s: string, c: char): (r: Option<nat>)
    ensures r.Some? ==> r.value < |s| && s[r.value] == c
  {
    if s == [] then None
    else if s[|s| - 1] == c then Some(|s| - 1)
    else LastIndexOf(s[..|s| - 1], c)
  }

  /** No occurrence of `c` after the one `LastIndexOf` finds, and none at
      all when it finds none. */
  lemma {:induction false} LastIndexOfIsLast(s: string, c: char)
    ensures LastIndexOf(s, c).None? ==> c !in s
    ensures LastIndexOf(s, c).Some? ==> forall k :: LastIndexOf(s, c).value < k < |s| ==> s[k] != c
  {
    if s != [] && s[|s| - 1] != c {
      var init := s[..|s| - 1];
      LastIndexOfIsLast(init, c);
      assert s == init + [s[|s| - 1]];
    }
  }

  /** The end of the match of the whole pattern at `p`: `.*` is greedy and
      `.` matches line breaks, so the match runs to the last `}` of the text,
      provided that brace comes after `"truck"`. */
  function MatchAt(s: string, p: nat): (r: Option<nat>)
    ensures r.Some? ==> p < r.value <= |s|
  {
    match HeaderEnd(s, p)
    case None => None
    case Some(e) =>
      match LastIndexOf(s, '}')
      case Some(b) => if b >= e then Some(b + 1) else None
      case None => None
  }

  /** `re.search`: the match that starts leftmost, at or after `p`. */
  function Search(s: string, p: nat): (r: Option<(nat, nat)>)
    requires p <= |s|
    ensures r.Some? ==> p <= r.value.0 < r.value.1 <= |s|
    decreases |s| - p
  {
    if p == |s| then None
    else
      match MatchAt(s, p)
      case Some(end) => Some((p, end))
      case None => Search(s, p + 1)
  }

  /** `match.group(0)`. */
  function JsonCandidate(s: string): Option<string> {
    match Search(s, 0)
    case None => None
    case Some((p, end)) => Some(s[p..end])
  }

  /** `extract_json_block`: the matched text decoded, `None` when nothing
      matches or the text does not decode. */
  function ExtractJsonBlock(h: Host, text: string): Option<Json> {
    match JsonCandidate(text)
    case None => None
    case Some(c) => h.decode(c)
  }

  /** No `{` occurs inside a header after its own opening brace. */
  lemma HeaderNoBrace(s: string, q: nat)
    requires HeaderEnd(s, q).Some?
    ensures forall k :: q < k < HeaderEnd(s, q).value ==> s[k] != '{'
  {
    var r := SkipSpace(s, q + 1);
    SkipSpaceRun(s, q + 1);
    forall k | q < k < HeaderEnd(s, q).value
      ensures s[k] != '{'
    {
      if k >= r {
        assert s[r..r + |TruckKey|] == TruckKey;
        assert s[k] == TruckKey[k - r];
      }
    }
  }

  /** Two headers do not overlap: a second `{` can only come after the
      first header's `"truck"`. */
  lemma HeadersApart(s: string, q: nat, p: nat)
    requires q < p && HeaderEnd(s, q).Some? && HeaderEnd(s, p).Some?
    ensures HeaderEnd(s, q).value <= p
  {
    HeaderNoBrace(s, q);
  }

  /** `re.search` gives the first position, at or after `p0`, where the
      pattern matches, with the end of that match. */
  lemma {:induction false} SearchIsFirstMatch(s: string, p0: nat)
    requires p0 <= |s| && Search(s, p0).Some?
    ensures MatchAt(s, Search(s, p0).value.0) == Some(Search(s, p0).value.1)
    ensures forall q :: p0 <= q < Search(s, p0).value.0 ==> MatchAt(s, q).None?
    decreases |s| - p0
  {
    if MatchAt(s, p0).None? {
      SearchIsFirstMatch(s, p0 + 1);
    }
  }

  /** A match at `p` starts with a header and ends with the last `}` of the
      text, after the header. */
  lemma MatchAtShape(s: string, p: nat)
    requires MatchAt(s, p).Some?
    ensures HeaderEnd(s, p).Some? && HeaderEnd(s, p).value < MatchAt(s, p).value
    ensures s[MatchAt(s, p).value - 1] == '}'
    ensures forall k :: MatchAt(s, p).value <= k < |s| ==> s[k] != '}'
  {
    LastIndexOfIsLast(s, '}');
  }

  /** A header with no match before a position with a match: impossible,
      since the later match's brace also follows the earlier header. */
  lemma NoMatchNoHeader(s: string, q: nat, p: nat)
    requires q < p && MatchAt(s, q).None? && MatchAt(s, p).Some?
    ensures HeaderEnd(s, q).None?
  {
    if HeaderEnd(s, q).Some? {
      HeadersApart(s, q, p);
    }
  }

  /** What `re.search` finds starts at the leftmost `{\s*"truck"` of the
      text and ends with the last `}` of the text, which lies after that
      header. */
  lemma SearchFindsLeftmostHeader(s: string, p0: nat)
    requires p0 <= |s| && Search(s, p0).Some?
    ensures var (p, end) := Search(s, p0).value;
      && HeaderEnd(s, p).Some? && HeaderEnd(s, p).value < end
      && s[end - 1] == '}'
      && (forall k :: end <= k < |s| ==> s[k] != '}')
      && (forall q :: p0 <= q < p ==> HeaderEnd(s, q).None?)
  {
    var (p, end) := Search(s, p0).value;
    SearchIsFirstMatch(s, p0);
    MatchAtShape(s, p);
    forall q | p0 <= q < p
      ensures HeaderEnd(s, q).None?
    {
      NoMatchNoHeader(s, q, p);
    }
  }

  /** Conversely, a leftmost header followed by a `}` is found. */
  lemma {:induction false} SearchFindsHeader(s: string, p0: nat, p: nat, b: nat)
    requires p0 <= p < |s| && HeaderEnd(s, p).Some?
    requires forall q :: p0 <= q < p ==> HeaderEnd(s, q).None?
    requires HeaderEnd(s, p).value <= b < |s| && s[b] == '}'
    ensures Search(s, p0).Some? && Search(s, p0).value.0 == p
    decreases p - p0
  {
    LastIndexOfIsLast(s, '}');
    if p0 < p {
      SearchFindsHeader(s, p0 + 1, p, b);
    }
  }

  /** Without a `{\s*"truck"` followed somewhere by a `}`, the search finds
      nothing and the block is `None`. */
  lemma {:induction false} NoHeaderNoBlock(h: Host, s: string, p0: nat)
    requires p0 <= |s|
    requires forall q :: p0 <= q < |s| ==> MatchAt(s, q).None?
    ensures Search(s, p0).None?
    ensures p0 == 0 ==> ExtractJsonBlock(h, s).None?
    decreases |s| - p0
  {
    if p0 < |s| {
      NoHeaderNoBlock(h, s, p0 + 1);
    }
  }

  /** A text without `{\s*"truck"` gives no block. */
  lemma NoHeaderGivesNone(h: Host, s: string)
    requires forall q :: 0 <= q < |s| ==> HeaderEnd(s, q).None?
    ensures ExtractJsonBlock(h, s).None?
  {
    NoHeaderNoBlock(h, s, 0);
  }

  /** The block is the decoding of the text from the leftmost header to the
      last `}`; a text that does not decode gives `None`, never an error. */
  lemma ExtractJsonBlockIs(h: Host, s: string, p: nat, b: nat)
    requires p < |s| && HeaderEnd(s, p).Some?
    requires forall q :: 0 <= q < p ==> HeaderEnd(s, q).None?
    requires HeaderEnd(s, p).value <= b < |s| && s[b] == '}'
    requires forall k :: b < k < |s| ==> s[k] != '}'
    ensures ExtractJsonBlock(h, s) == h.decode(s[p..b + 1])
  {
    SearchFindsHeader(s, 0, p, b);
    SearchFindsLeftmostHeader(s, 0);
  }

  // ---------------------------------------------------------------------
  // call_groq_llm (simulator.py:27-56)
  // ---------------------------------------------------------------------

  /** What the HTTP call gives back: a response with its status code and its
      body as `response.json()` decodes it (`None` where that raises), or an
      exception from `requests.post` itself. */
  datatype HttpResult =
    | Response(status: int, body: Option<Json>)
    | Failed

  const JobsKey := "recommended_jobs"

  /** `{"truck": truck_id, "recommended_jobs": []}`. */
  function Fallback(truckId: string): Json {
    Obj(map["truck" := Str(truckId), JobsKey := Arr([])])
  }

  /** `v[0]`: the first element of a list, or the first character of a
      string; an empty list or string, a dict (whose keys are strings) and
      anything else raise. */
  function First(v: Json): Result<Json> {
    match v
    case Arr(items) => if items != [] then Ok(items[0]) else Raise
    case Str(s) => if s != "" then Ok(Str(s[..1])) else Raise
    case _ => Raise
  }

  /** `response.json()["choices"][0]["message"]["content"]`, which
      `re.search` then requires to be a string. */
  function ReplyContent(body: Json): Result<string> {
    var choices :- Index(body, "choices");
    var first :- First(choices);
    var message :- Index(first, "message");
    var content :- Index(message, "content");
    if content.Str? then Ok(content.s) else Raise
  }

  /** The JSON object a successful call yields, if any: status 200, a body
      with a textual reply, a block in it, and a truthy decoding. */
  function Answer(h: Host, r: HttpResult): Option<Json> {
    if r.Failed? || r.status != 200 || r.body.None? then None
    else
      match ReplyContent(r.body.value)
      case Raise => None
      case Ok(text) =>
        match ExtractJsonBlock(h, text)
        case Some(v) => if Truthy(v) then Some(v) else None
        case None => None
  }

  /** `call_groq_llm`: the answer, unchanged, or the fallback. */
  function CallGroq(h: Host, truckId: string, r: HttpResult): (v: Json)
    ensures v == Fallback(truckId) || Answer(h, r) == Some(v)
  {
    match Answer(h, r)
    case Some(v) => v
    case None => Fallback(truckId)
  }

  /** A failed request, a status other than 200, a body without a textual
      reply, a reply without a decodable block, and a falsy block all give
      the fallback; otherwise the decoded block is returned as it is, with
      whatever truck it names. */
  lemma CallGroqCases(h: Host, truckId: string, r: HttpResult)
    ensures r.Failed? ==> CallGroq(h, truckId, r) == Fallback(truckId)
    ensures r.Response? && r.status != 200 ==> CallGroq(h, truckId, r) == Fallback(truckId)
    ensures r.Response? && r.body.None? ==> CallGroq(h, truckId, r) == Fallback(truckId)
    ensures r.Response? && r.body.Some? && ReplyContent(r.body.value).Raise? ==>
      CallGroq(h, truckId, r) == Fallback(truckId)
    ensures r.Response? && r.body.Some? && ReplyContent(r.body.value).Ok? ==>
      var block := ExtractJsonBlock(h, ReplyContent(r.body.value).value);
      CallGroq(h, truckId, r) ==
        if r.status == 200 && block.Some? && Truthy(block.value) then block.value else Fallback(truckId)
    ensures Truthy(CallGroq(h, truckId, r))
  {
    assert "truck" in Fallback(truckId).fields;
  }

  // ---------------------------------------------------------------------
  // The driver loop (simulator.py:80-93)
  // ---------------------------------------------------------------------

  /** One prompt and the outcome of sending it. */
  datatype Exchange = Exchange(entry: Loader.PromptEntry, reply: HttpResult)

  function Respond(h: Host): Exchange -> Json {
    (x: Exchange) => CallGroq(h, x.entry.truckId, x.reply)
  }

  /** `key in v`: a dict's keys, a list's elements, a string's substrings;
      `in` raises TypeError for None, bools and numbers. */
  function In(key: string, v: Json): Result<bool> {
    match v
    case Obj(m) => Ok(key in m)
    case Arr(items) => Ok(Str(key) in items)
    case Str(s) => Ok(Text.Contains(s, key))
    case _ => Raise
  }

  /** `response and "recommended_jobs" in response`. */
  function KeepTest(v: Json): Result<bool> {
    if !Truthy(v) then Ok(false) else In(JobsKey, v)
  }

  /** `final_schedule` after the loop. */
  function FinalSchedule(h: Host, xs: seq<Exchange>): Result<seq<Json>> {
    FilterOk(Seqs.Map(xs, Respond(h)), KeepTest)
  }

  /** A dict is kept exactly when it has the `recommended_jobs` key, even
      with an empty list; in particular every fallback is kept. */
  lemma KeepTestOfDict(m: map<string, Json>, truckId: string)
    ensures m != map[] ==> (KeepTest(Obj(m)) == Ok(true) <==> JobsKey in m)
    ensures KeepTest(Fallback(truckId)) == Ok(true)
  {
    assert JobsKey in Fallback(truckId).fields;
  }

  /** The schedule holds the replies in prompt order, each kept exactly when
      its test gives True; the loop raises only when a test does (a truthy
      reply that is a number or a bool). */
  lemma FinalScheduleKeeps(h: Host, xs: seq<Exchange>)
    ensures FinalSchedule(h, xs).Ok? <==> forall k :: 0 <= k < |xs| ==> KeepTest(Respond(h)(xs[k])).Ok?
    ensures FinalSchedule(h, xs).Ok? ==>
      FinalSchedule(h, xs).value == Seqs.Filter(Seqs.Map(xs, Respond(h)), Passes(KeepTest))
  {
    var rs := Seqs.Map(xs, Respond(h));
    FilterOkIsFilter(rs, KeepTest);
  }

  /** When every call falls back, every truck is in the schedule, in prompt
      order, with no jobs. */
  lemma {:induction false} AllFallbacksKept(h: Host, xs: seq<Exchange>)
    requires forall k :: 0 <= k < |xs| ==> Answer(h, xs[k].reply).None?
    ensures FinalSchedule(h, xs) == Ok(seq(|xs|, k requires 0 <= k < |xs| => Fallback(xs[k].entry.truckId)))
  {
    if xs == [] {
      assert Seqs.Map(xs, Respond(h)) == [];
    } else {
      var init := xs[..|xs| - 1];
      var x := xs[|xs| - 1];
      AllFallbacksKept(h, init);
      assert xs == init + [x];
      var v := Fallback(x.entry.truckId);
      assert Respond(h)(x) == v;
      Seqs.MapAppend(init, [x], Respond(h));
      assert Seqs.Map(xs, Respond(h)) == Seqs.Map(init, Respond(h)) + [v];
      FilterOkSnoc(Seqs.Map(init, Respond(h)), v, KeepTest);
      KeepTestOfDict(map[], x.entry.truckId);
      assert seq(|xs|, k requires 0 <= k < |xs| => Fallback(xs[k].entry.truckId))
          == seq(|init|, k requires 0 <= k < |init| => Fallback(init[k].entry.truckId)) + [v];
    }
  }

  /** The loop of the script. */
  method RunDriver(h: Host, xs: seq<Exchange>) returns (r: Result<seq<Json>>)
    ensures r == FinalSchedule(h, xs)
  {
    var schedule: seq<Json> := [];
    for i := 0 to |xs|
      invariant FinalSchedule(h, xs[..i]) == Ok(schedule)
    {
      var response := CallGroq(h, xs[i].entry.truckId, xs[i].reply);
      var keep := KeepTest(response);
      DriverStep(h, xs, i);
      if keep.Raise? {
        DriverRaise(h, xs, i);
        return Raise;
      }
      if keep.value {
        schedule := schedule + [response];
      } else {
        assert schedule + [] == schedule;
      }
    }
    assert xs[..|xs|] == xs;
    r := Ok(schedule);
  }

  /** One more exchange: its response is examined after the earlier ones. */
  lemma DriverStep(h: Host, xs: seq<Exchange>, i: nat)
    requires i < |xs|
    ensures var response := Respond(h)(xs[i]);
      FinalSchedule(h, xs[..i + 1]) ==
        if FinalSchedule(h, xs[..i]).Raise? || KeepTest(response).Raise? then Raise
        else Ok(FinalSchedule(h, xs[..i]).value + if KeepTest(response).value then [response] else [])
  {
    assert xs[..i + 1] == xs[..i] + [xs[i]];
    Seqs.MapAppend(xs[..i], [xs[i]], Respond(h));
    assert Seqs.Map(xs[..i + 1], Respond(h)) == Seqs.Map(xs[..i], Respond(h)) + [Respond(h)(xs[i])];
    FilterOkSnoc(Seqs.Map(xs[..i], Respond(h)), Respond(h)(xs[i]), KeepTest);
  }

  /** A response whose test raises ends the whole loop. */
  lemma DriverRaise(h: Host, xs: seq<Exchange>, i: nat)
    requires i < |xs| && FinalSchedule(h, xs[..i + 1]).Raise?
    ensures FinalSchedule(h, xs).Raise?
  {
    Seqs.MapAppend(xs[..i + 1], xs[i + 1..], Respond(h));
    assert xs == xs[..i + 1] + xs[i + 1..];
    assert Seqs.Map(xs, Respond(h))[..i + 1] == Seqs.Map(xs[..i + 1], Respond(h));
    FilterOkRaisePersists(Seqs.Map(xs, Respond(h)), KeepTest, i + 1);
  }

  // ---------------------------------------------------------------------
  // format_schedule (simulator.py:60-74)
  // ---------------------------------------------------------------------

  const Rule := "====================" + "==================="
  const ScheduleTitle := "Schedule:\n"
  const DayLine := "Jobs for " + "Tomorrow:"
  const ColumnHeader := "Job No. | Job\U{2019}s Name" + "                 "
    + "| Material     " + "| Address"

  /** The jobs a `for` over `truck["recommended_jobs"]` visits before it
      raises: a list's elements; an empty string or dict visits nothing.
      A non-empty string or dict yields strings, on which `job['job_name']`
      raises, and other values are not iterable, so they raise. */
  function JobsOf(v: Json): Result<seq<Json>> {
    match v
    case Arr(items) => Ok(items)
    case Str(s) => if s == "" then Ok([]) else Raise
    case Obj(m) => if m == map[] then Ok([]) else Raise
    case _ => Raise
  }

  /** `enumerate(jobs, start=1)`. */
  function Enumerate(jobs: seq<Json>): (r: seq<(nat, Json)>)
    ensures |r| == |jobs| && forall k :: 0 <= k < |jobs| ==> r[k] == (k + 1, jobs[k])
  {
    seq(|jobs|, k requires 0 <= k < |jobs| => (k + 1, jobs[k]))
  }

  /** One row of the table. */
  function Row(h: Host, i: nat, job: Json): Result<string> {
    var name :- Index(job, "job_name");
    var name' :- FormatLeft(h, name, 25);
    var material :- Index(job, "material");
    var material' :- FormatLeft(h, material, 12);
    var address :- Index(job, "address");
    Ok(Text.LJust(Text.NatToString(i), 8) + " | " + name' + " | " + material' + " | " + ToStr(h, address))
  }

  function RowOf(h: Host): ((nat, Json)) -> Result<string> {
    (p: (nat, Json)) => Row(h, p.0, p.1)
  }

  /** The lines of one truck. */
  function TruckBlock(h: Host, truck: Json): Result<seq<string>> {
    var id :- Index(truck, "truck");
    var jobs :- Index(truck, JobsKey);
    var items :- JobsOf(jobs);
    var rows :- MapOk(Enumerate(items), RowOf(h));
    Ok(["Truck: " + ToStr(h, id), DayLine, ColumnHeader] + rows + [""])
  }

  function BlockOf(h: Host): Json -> Result<seq<string>> {
    t => TruckBlock(h, t)
  }

  /** `lines` at the end of `format_schedule`. */
  function ScheduleLines(h: Host, data: seq<Json>): Result<seq<string>> {
    var blocks :- MapOk(data, BlockOf(h));
    Ok([Rule, ScheduleTitle] + Seqs.Concat(blocks))
  }

  /** `format_schedule`. */
  function FormatSchedule(h: Host, data: seq<Json>): Result<string> {
    var lines :- ScheduleLines(h, data);
    Ok(Text.Join(lines, "\n"))
  }

  /** A truck's block is its title line, the day line, the column header,
      one row per job numbered from 1 in list order, and a blank line; it
      raises exactly when the truck has no "truck" or "recommended_jobs"
      key, its jobs cannot be visited, or a row raises. */
  lemma TruckBlockShape(h: Host, m: map<string, Json>, items: seq<Json>)
    requires "truck" in m && JobsKey in m && JobsOf(m[JobsKey]) == Ok(items)
    ensures TruckBlock(h, Obj(m)).Ok? <==> forall k :: 0 <= k < |items| ==> Row(h, k + 1, items[k]).Ok?
    ensures TruckBlock(h, Obj(m)).Ok? ==>
      var b := TruckBlock(h, Obj(m)).value;
      && |b| == |items| + 4
      && b[0] == "Truck: " + ToStr(h, m["truck"]) && b[1] == DayLine && b[2] == ColumnHeader
      && (forall k :: 0 <= k < |items| ==> b[k + 3] == Row(h, k + 1, items[k]).value)
      && b[|b| - 1] == ""
  {
    var e := Enumerate(items);
    MapOkPerElement(e, RowOf(h));
    assert forall k :: 0 <= k < |items| ==> RowOf(h)(e[k]) == Row(h, k + 1, items[k]);
    var rows := MapOk(e, RowOf(h));
    if rows.Ok? {
      BlockLayout("Truck: " + ToStr(h, m["truck"]), DayLine, ColumnHeader, rows.value);
    }
  }

  /** Where the lines of a block sit. */
  lemma BlockLayout(a: string, b: string, c: string, rows: seq<string>)
    ensures var block := [a, b, c] + rows + [""];
      && |block| == |rows| + 4
      && block[0] == a && block[1] == b && block[2] == c && block[|block| - 1] == ""
      && forall k :: 0 <= k < |rows| ==> block[k + 3] == rows[k]
  {
  }

  /** A fallback entry is listed with its truck and no rows. */
  lemma FallbackBlock(h: Host, truckId: string)
    ensures TruckBlock(h, Fallback(truckId)) == Ok(["Truck: " + truckId, DayLine, ColumnHeader, ""])
  {
    var v := Fallback(truckId);
    assert Index(v, "truck") == Ok(Str(truckId));
    assert Index(v, JobsKey) == Ok(Arr([]));
    assert Enumerate([]) == [];
    assert MapOk(Enumerate([]), RowOf(h)) == Ok([]);
    var lines: seq<string> := ["Truck: " + truckId, DayLine, ColumnHeader];
    assert lines + [] + [""] == ["Truck: " + truckId, DayLine, ColumnHeader, ""];
  }

  /** The separators of a row sit at fixed columns 8, 36 and 51 when the
      number, the name and the material fit their widths, each value
      starting its column; longer values are kept whole. */
  lemma RowColumns(h: Host, i: nat, name: string, material: string, address: Json, job: map<string, Json>)
    requires "job_name" in job && job["job_name"] == Str(name)
    requires "material" in job && job["material"] == Str(material)
    requires "address" in job && job["address"] == address
    ensures Row(h, i, Obj(job)).Ok?
    ensures var r := Row(h, i, Obj(job)).value;
      && Text.StartsWith(r, Text.NatToString(i))
      && Text.EndsWith(r, ToStr(h, address))
      && (|Text.NatToString(i)| <= 8 && |name| <= 25 && |material| <= 12 ==>
            && r[8..11] == " | " && r[36..39] == " | " && r[51..54] == " | "
            && r[11..11 + |name|] == name && r[39..39 + |material|] == material)
  {
    var n := Text.NatToString(i);
    var a := Text.LJust(n, 8);
    var b := Text.LJust(name, 25);
    var c := Text.LJust(material, 12);
    var d := ToStr(h, address);
    RowText(h, i, name, material, address, job);
    Text.LJustShape(n, 8);
    Text.LJustShape(name, 25);
    Text.LJustShape(material, 12);
    RowLayout(a, b, c, d, |n|, |name|, |material|);
  }

  /** The row of a job whose name and material are strings. */
  lemma RowText(h: Host, i: nat, name: string, material: string, address: Json, job: map<string, Json>)
    requires "job_name" in job && job["job_name"] == Str(name)
    requires "material" in job && job["material"] == Str(material)
    requires "address" in job && job["address"] == address
    ensures Row(h, i, Obj(job)) == Ok(Text.LJust(Text.NatToString(i), 8) + " | " + Text.LJust(name, 25) + " | "
      + Text.LJust(material, 12) + " | " + ToStr(h, address))
  {
    assert Index(Obj(job), "job_name") == Ok(Str(name)) && FormatLeft(h, Str(name), 25) == Ok(Text.LJust(name, 25));
    assert Index(Obj(job), "material") == Ok(Str(material)) && FormatLeft(h, Str(material), 12) == Ok(Text.LJust(material, 12));
    assert Index(Obj(job), "address") == Ok(address);
  }

  /** Where the pieces of `a | b | c | d` sit. */
  lemma RowLayout(a: string, b: string, c: string, d: string, na: nat, nb: nat, nc: nat)
    requires na <= |a| && nb <= |b| && nc <= |c|
    ensures var r := a + " | " + b + " | " + c + " | " + d;
      && r[..na] == a[..na] && r[|r| - |d|..] == d
      && r[|a|..|a| + 3] == " | "
      && r[|a| + 3..|a| + 3 + nb] == b[..nb]
      && r[|a| + 3 + |b|..|a| + 6 + |b|] == " | "
      && r[|a| + 6 + |b|..|a| + 6 + |b| + nc] == c[..nc]
      && r[|a| + 6 + |b| + |c|..|a| + 9 + |b| + |c|] == " | "
  {
  }

  /** The text opens with the rule and the title, and has one block per
      truck, in schedule order, after them. */
  lemma {:induction false} ScheduleLinesShape(h: Host, data: seq<Json>)
    ensures ScheduleLines(h, data).Ok? <==> forall k :: 0 <= k < |data| ==> TruckBlock(h, data[k]).Ok?
    ensures ScheduleLines(h, data).Ok? ==>
      ScheduleLines(h, data).value ==
        [Rule, ScheduleTitle] + Seqs.Concat(seq(|data|, k requires 0 <= k < |data| => TruckBlock(h, data[k]).value))
  {
    MapOkPerElement(data, BlockOf(h));
    if MapOk(data, BlockOf(h)).Ok? {
      var blocks := MapOk(data, BlockOf(h)).value;
      assert blocks == seq(|data|, k requires 0 <= k < |data| => TruckBlock(h, data[k]).value);
    }
  }

  /** An empty schedule is the rule and the title alone. */
  lemma EmptySchedule(h: Host)
    ensures FormatSchedule(h, []) == Ok(Rule + "\n" + ScheduleTitle)
  {
    assert MapOk([], BlockOf(h)) == Ok([]);
    var lines: seq<string> := [Rule, ScheduleTitle];
    assert lines + Seqs.Concat<string>([]) == lines;
    assert ScheduleLines(h, []) == Ok(lines);
    assert lines[1..] == [ScheduleTitle];
    assert Text.Join(lines, "\n") == Rule + "\n" + Text.Join([ScheduleTitle], "\n");
  }

  /** The rows of one truck (the inner loop). */
  method TruckLines(h: Host, truck: Json) returns (r: Result<seq<string>>)
    ensures r == TruckBlock(h, truck)
  {
    var id := Index(truck, "truck");
    if id.Raise? {
      return Raise;
    }
    var lines := ["Truck: " + ToStr(h, id.value), DayLine, ColumnHeader];
    var jobs := Index(truck, JobsKey);
    if jobs.Raise? {
      return Raise;
    }
    var items := JobsOf(jobs.value);
    if items.Raise? {
      return Raise;
    }
    var e := Enumerate(items.value);
    var rows: seq<string> := [];
    for j := 0 to |e|
      invariant MapOk(e[..j], RowOf(h)) == Ok(rows)
    {
      var row := Row(h, j + 1, items.value[j]);
      assert e[..j + 1][..j] == e[..j];
      if row.Raise? {
        MapOkRaisePersists(e, RowOf(h), j + 1);
        return Raise;
      }
      rows := rows + [row.value];
    }
    assert e[..|e|] == e;
    r := Ok(lines + rows + [""]);
  }

  /** The outer loop of `format_schedule`. */
  method ScheduleLinesOf(h: Host, data: seq<Json>) returns (r: Result<seq<string>>)
    ensures r == ScheduleLines(h, data)
  {
    var lines := [Rule, ScheduleTitle];
    ghost var blocks: seq<seq<string>> := [];
    for i := 0 to |data|
      invariant MapOk(data[..i], BlockOf(h)) == Ok(blocks)
      invariant lines == [Rule, ScheduleTitle] + Seqs.Concat(blocks)
    {
      var block := TruckLines(h, data[i]);
      assert data[..i + 1] == data[..i] + [data[i]];
      MapOkSnoc(data[..i], data[i], BlockOf(h));
      if block.Raise? {
        MapOkRaisePersists(data, BlockOf(h), i + 1);
        return Raise;
      }
      Seqs.ConcatSnoc(blocks, block.value);
      Seqs.AppendAssoc([Rule, ScheduleTitle], Seqs.Concat(blocks), block.value);
      lines := lines + block.value;
      blocks := blocks + [block.value];
    }
    assert data[..|data|] == data;
    r := Ok(lines);
  }

  /** `format_schedule` as the script runs it. */
  method FormatScheduleText(h: Host, data: seq<Json>) returns (r: Result<string>)
    ensures r == FormatSchedule(h, data)
  {
    var lines := ScheduleLinesOf(h, data);
    if lines.Raise? {
      return Raise;
    }
    r := Ok(Text.Join(lines.value, "\n"));
  }

  // ---------------------------------------------------------------------
  // The whole script
  // ---------------------------------------------------------------------

  /** The text written to the output file. */
  function Simulate(h: Host, xs: seq<Exchange>): Result<string> {
    var schedule :- FinalSchedule(h, xs);
    FormatSchedule(h, schedule)
  }

  /** When every call falls back, the report lists every truck of the
      prompts, in order, each with no rows. */
  lemma AllFallbacksReport(h: Host, xs: seq<Exchange>)
    requires forall k :: 0 <= k < |xs| ==> Answer(h, xs[k].reply).None?
    ensures Simulate(h, xs).Ok?
    ensures ScheduleLines(h, FinalSchedule(h, xs).value) == Ok([Rule, ScheduleTitle] + Seqs.Concat(
      seq(|xs|, k requires 0 <= k < |xs| => ["Truck: " + xs[k].entry.truckId, DayLine, ColumnHeader, ""])))
  {
    AllFallbacksKept(h, xs);
    var schedule := FinalSchedule(h, xs).value;
    forall k | 0 <= k < |xs|
      ensures TruckBlock(h, schedule[k]) == Ok(["Truck: " + xs[k].entry.truckId, DayLine, ColumnHeader, ""])
    {
      FallbackBlock(h, xs[k].entry.truckId);
    }
    ScheduleLinesShape(h, schedule);
    assert seq(|schedule|, k requires 0 <= k < |schedule| => TruckBlock(h, schedule[k]).value)
        == seq(|xs|, k requires 0 <= k < |xs| => ["Truck: " + xs[k].entry.truckId, DayLine, ColumnHeader, ""]);
  }

  method RunSimulator(h: Host, xs: seq<Exchange>) returns (r: Result<string>)
    ensures r == Simulate(h, xs)
  {
    var schedule := RunDriver(h, xs);
    if schedule.Raise? {
      return Raise;
    }
    r := FormatScheduleText(h, schedule.value);
  }
}
