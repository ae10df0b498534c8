# Mulch truck scheduling: a Dafny model of the data pipeline

The repository runs a chain of Python scripts that schedule mulch delivery trucks:

- **Truck-board export** (`database/Team_Data.py`) reads each truck's monday.com board. It keeps the "Schedule" and "Production Review" groups, turns every item into a row keyed by friendly column names, and collects one `{vehicle, group, data}` entry per allowed group. That list becomes `truck.json`.
- **Main-board export** (`database/Main_Data.py`) reads the main board. It maps group ids to six categories, with every group whose title starts with "Jobs to be Scheduled" going to that category. It turns each item into a fixed ten-field row and buckets the rows by category. That becomes `api_out.json`.
- **Loader** (`app/loader.py`) does four things:
  - normalises the telemetry feed into a truck-location table;
  - finds each truck's current load from the newest non-empty "Production Review" row;
  - parses the unscheduled jobs with permissive defaults, dropping jobs without coordinates;
  - matches each truck with the jobs within 40 miles whose material it can carry, and renders one scheduling prompt per truck that has a match. A prompt lists the ten closest jobs and asks for a JSON answer.
- **Simulator** (`app/simulator.py`) sends each prompt to the language model. It pulls the first `{ "truck" ... }` block out of the reply, falling back to an empty recommendation on any failure. It keeps the answers that hold `recommended_jobs` and formats them as a fixed-width schedule.
- **Database sync** (`database/sync_jobs_data.py`) scrapes the printed grid tables back into rows: a section per "... Jobs:" title, headers from the first table line, one row per line whose cell count matches. It computes, per job row, the values the jobs upsert writes. It also reads `json/truck.json` line by line, collecting job-assignment tuples from its vehicle headers and table lines.

Module layout, one Dafny module per source file plus four library modules:

| module | file | what it holds |
|---|---|---|
| `Py` | py.dfy | JSON values, truthiness, `dict.get`, `str`, `float`, `.strip()`, f-string alignment; exceptions as `Result.Raise`; loops that may raise (`MapOk`, `FilterOk`, `LastSome`) |
| `Text` | text.dfy | strip, split, join, replace, ASCII lower-casing, left justification, decimal rendering |
| `Seqs` | seqs.dfy | filter, map, stable insertion sort by a real key, concatenation, de-duplication |
| `Dicts` | dicts.dfy | Python dict literals and `parsed[k] = v` loops as pair sequences (the last assignment wins); `defaultdict`-style bucketing |
| `Loader` | loader.dfy | app/loader.py |
| `Simulator` | simulator.dfy | app/simulator.py |
| `TeamData` | team_data.dfy | database/Team_Data.py |
| `MainData` | main_data.dfy | database/Main_Data.py |
| `SyncJobs` | sync_jobs.dfy | database/sync_jobs_data.py |

Each loop in the sources is a `method` with a `while`/`for` loop. Its `ensures` ties the result to a function that specifies it, and lemmas about that function state what the scripts promise.

Things the model takes as parameters:

- A `Py.Host` supplies `float(s)` on strings, `str()` of floats and containers, and `json.loads`.
- `Loader.Distance` is the geodesic distance in miles, or the `ValueError` geopy raises for coordinates it cannot use.
- `TeamData.Report` takes a `fetch` function from board id to that board's titles and items (or a failure).
- The simulator takes the list of prompt/reply exchanges: each prompt with the outcome of its HTTP call.
- The scripts' column mappings are constants (`TeamData.TruckColumnMapping`, `MainData.ColumnMapping`), passed on as parameters.

Where the system's design description and the code disagree, the model follows the code:

- **Zero rows in the material scan.** The description says the "Production Review" scan stops at the newest row and that a zero quantity there leaves the truck empty. In the code a row whose quantity is "0", "0.0", empty or missing is skipped and the scan goes on to older rows (app/loader.py:40-48). So `["12" Pine, "0" Pine]` gives Pine/12.0, not ""/0.0. `Loader.ZeroRowDoesNotOverride` states the code's behaviour.
- **A quantity with no material.** The description promises that a truck with no material has quantity 0. The code records a row with a quantity but no "Material" cell as material "" with that quantity (`Loader.LoadWithoutMaterial`).
- **The format of api_out.json.** The sync scraper reads it as printed grid tables ("{category} Jobs:" followed by `+--`/`|` lines). Main_Data.py writes it as JSON (Main_Data.py:276-277), while the tables are what it prints (Main_Data.py:269-274). The model takes the scraper's input as a list of lines. What the scraper extracts from the printed format is proved about those lines.
- **The format of truck.json.** `sync_job_assignments` reads `json/truck.json` (sync_jobs_data.py:18, 117) and expects printed vehicle headers (`== ... (...)`) and grid-table lines. Team_Data.py writes that file with `json.dump` (Team_Data.py:331-332). No stripped line of that JSON starts with `==`, so no vehicle code is ever set and nothing is collected from it (`SyncJobs.NoHeaderNoAssignments`). The model takes the lines as input and proves what would be collected from the printed format.
- **Empty answers in the schedule.** An answer with an empty `recommended_jobs` (including every fallback) is kept. It appears in the schedule as a truck block with headers and no rows (`Simulator.FallbackBlock`, `Simulator.AllFallbacksReport`).

## Model

| member | source | states |
|---|---|---|
| Loader.TruckLocationsKeepReported | app/loader.py:18-30 | a telemetry entry contributes one location row exactly when its StatusCode is 200, and the table of a concatenation is the concatenation of the tables (feed order is kept) |
| Loader.ParseTruckLocations | app/loader.py:18-30 | the loop builds exactly the table of reported trucks |
| Loader.RowLoadCases | app/loader.py:41-47 | a history row is skipped exactly when its material is text and its quantity is falsy, "0", "0.0" or ""; it gives a load exactly when additionally its quantity parses (stripped material, `float` quantity); otherwise it raises |
| Loader.LoadOfCases | app/loader.py:41-47 | the same three cases for a material cell and a quantity cell |
| Loader.LatestLoadNone | app/loader.py:40-48 | a board history with no row carrying a load leaves the truck without a material entry |
| Loader.LatestLoadNewest | app/loader.py:40-48 | the newest row carrying a load decides the truck's material and quantity, whatever older rows hold |
| Loader.LatestLoadFound | app/loader.py:40-48 | conversely, a found load comes from a row carrying a load, after which no row carries one, with that row's stripped material and parsed quantity |
| Loader.EmptyRowSkipped | app/loader.py:43 | appending a row without a load changes nothing |
| Loader.ZeroRowDoesNotOverride | app/loader.py:40-48 | a newer "0" row does not override an older loaded row |
| Loader.LoadWithoutMaterial | app/loader.py:41-47 | a newest loaded row without a "Material" cell gives material "" with its quantity |
| Loader.MaterialsOnlyProductionReview | app/loader.py:36-37 | only "Production Review" entries affect the truck materials |
| Loader.FindLatestLoad | app/loader.py:40-48 | the reversed scan with `break` computes the newest load |
| Loader.ScanMaterials | app/loader.py:35-48 | the loop over the history computes `truck_materials` |
| Loader.MaterialsRaisePersists | app/loader.py:36-48 | an exception in one entry ends the whole scan |
| Loader.Merge | app/loader.py:51-54 | one truck per location, in order, with its location; a truck without an entry has material "" and quantity 0.0, a truck with one has its material and quantity |
| Loader.ParseJobSucceeds | app/loader.py:59-71 | a job parses exactly when it is a dict whose text fields are absent or strings, whose bid quantity is falsy or parses, and whose job type is falsy or a string |
| Loader.TextFieldCases | app/loader.py:61-66 | `job.get(k, "").strip()` succeeds exactly for an absent key or a string, and an absent key gives "" |
| Loader.OptionalFieldCases | app/loader.py:65-67 | an absent or falsy bid quantity is 0.0, another one must parse; an absent or falsy job type is "", another one must be a string |
| Loader.ParseJobDefaults | app/loader.py:59-71 | in a parsed job an absent name, material or job type is "", an absent or falsy bid quantity is 0.0, and absent coordinates are None |
| Loader.NightAccessCases | app/loader.py:70 | night access holds for a string exactly when it lower-cases to "yes", and never for an absent, None, boolean or integer value |
| Loader.ParsedJobsPerJob | app/loader.py:58-71 | the job list parses exactly when every job parses, giving the parsed jobs one for one |
| Loader.ParseJobs | app/loader.py:58-71 | the loop computes the parsed job list |
| Loader.LocatedJobs | app/loader.py:74 | `dropna` keeps exactly the jobs with both coordinates, each as often as it occurs, in order |
| Loader.NearbyMatches | app/loader.py:77-93 | matching raises exactly when geopy rejects some truck/job pair; otherwise every match is within 40 miles by the unrounded distance, has the truck's material unless the truck is empty, and carries the distance rounded to 2 places; the matched jobs are exactly the compatible ones, with multiplicity, in table order, and matching a concatenation is matching its parts in turn |
| Loader.NearbyJobs | app/loader.py:82-93 | matching succeeds exactly when every distance does, and then the matched jobs are the table filtered by the test |
| Loader.FindJobsForTruck | app/loader.py:77-93 | the loop computes the truck's `nearby` list, or raises at the first rejected distance |
| Loader.TopCandidatesProperties | app/loader.py:116 | the candidates kept are at most ten, sorted by distance, and are the closest: every dropped candidate is at least as far as every kept one; ties keep table order |
| Seqs.SortByProperties | app/loader.py:116 | the stable sort by a key is sorted, a permutation, and keeps the relative order of equal keys |
| Loader.JobLines | app/loader.py:120-126 | one description line per candidate, numbered from 1 |
| Loader.JobLinesReadBack | app/loader.py:121-126 | the i-th line reads back as number i+1 and the candidate's job name (when the name has no em dash) |
| Loader.JobLineNumber | app/loader.py:123 | a line's leading digits are its index |
| Loader.JobLineName | app/loader.py:123 | the text between ". " and the em dash is the job name |
| Loader.PromptTextShape | app/loader.py:128-159 | the prompt starts with the assistant sentence, ends with the closing brace of the JSON template, and is already stripped |
| Loader.PromptTextLines | app/loader.py:120-159 | the prompt is the truck's lines, the joined job descriptions and the instruction lines, joined by line breaks |
| Loader.PromptHeadOneLine | app/loader.py:128-136 | the truck's nine lines hold no line break when its printed fields hold none |
| Loader.JobLinesOneLine | app/loader.py:121-126 | the job descriptions hold no line break when the candidates' printed fields hold none |
| Loader.PromptJobBlock | app/loader.py:120-159 | split on line breaks, the prompt is the truck's lines ending with "Here are 10 nearby jobs to choose from:", then one description line per candidate in list order, then the instruction lines |
| Loader.JobLinesNames | app/loader.py:121-126 | the description lines read back as the numbers 1, 2, ... and the job names in list order |
| Loader.PromptReadBack | app/loader.py:116-159 | reading the job list back out of the prompt text gives the candidates' names in list order, numbered from 1 (for fields without line breaks and names without an em dash) |
| Loader.PromptsPerTruck | app/loader.py:99-164 | prompts of a truck list are the prompts of its parts in order (the first exception ends both), and a single truck gives a prompt exactly when it has a nearby job |
| Loader.PromptOfTruck | app/loader.py:99-164 | a truck's prompt entry holds its id and the prompt rendered from its ten closest matches |
| Loader.PromptsShorter | app/loader.py:99-104 | the loop succeeds exactly when every truck's matching does, and then gives at most as many prompts as trucks |
| Loader.TruckPrompt | app/loader.py:100-164 | one iteration: an exception from matching, no entry without matches, else the truck's entry |
| Loader.PromptsStep | app/loader.py:99-164 | one more truck appends its entry to the prompts so far, and an exception ends the loop |
| Loader.BuildPrompts | app/loader.py:99-164 | the loop computes the prompt list |
| Loader.RunOutcome | app/loader.py:17-167 | a successful run yields at least one prompt and at most one per reported truck; an empty feed, or an empty job list, ends in an exception (`llm_prompts[0]` on an empty list) |
| Loader.RunRaisesOnRejectedPair | app/loader.py:80-85 | a reported truck and a located job whose coordinates geopy rejects (an "N/A" coordinate, a latitude out of range) end the run in an exception |
| Loader.RunLoader | app/loader.py:17-167 | the script's steps in sequence compute the run |
| Simulator.SkipSpaceRun | app/simulator.py:19 | `\s*` consumes exactly the whitespace run |
| Simulator.LastIndexOfIsLast | app/simulator.py:19 | the greedy `.*}` ends at the last "}" of the text, and there is none when no index is found |
| Simulator.MatchAtShape | app/simulator.py:19 | a match at p is a header `{ \s* "truck"` followed by text up to the last "}" |
| Simulator.HeadersApart | app/simulator.py:19 | two header starts never overlap |
| Simulator.SearchIsFirstMatch | app/simulator.py:19 | `re.search` returns the leftmost position that matches |
| Simulator.SearchFindsLeftmostHeader | app/simulator.py:19 | the match starts at the first header of the text |
| Simulator.SearchFindsHeader | app/simulator.py:19 | a header followed by a "}" is found |
| Simulator.NoHeaderNoBlock | app/simulator.py:19-25 | with no match anywhere the search fails and the result is None |
| Simulator.NoHeaderGivesNone | app/simulator.py:19-25 | a text with no header gives None |
| Simulator.ExtractJsonBlockIs | app/simulator.py:15-25 | the result is `json.loads` of the text from the first header to the last "}" (None where decoding fails) |
| Simulator.CallGroq | app/simulator.py:27-56 | the answer is the fallback or the block extracted from the reply |
| Simulator.CallGroqCases | app/simulator.py:38-56 | a failed request, a non-200 status, an undecodable body, a body without `choices[0].message.content`, or no extractable truthy block gives the fallback; otherwise the extracted block; the answer is always truthy |
| Simulator.KeepTestOfDict | app/simulator.py:91 | a non-empty dict answer is kept exactly when it holds "recommended_jobs", and a fallback is always kept |
| Simulator.FinalScheduleKeeps | app/simulator.py:84-93 | the driver succeeds exactly when every answer's keep test succeeds, and keeps exactly the answers that pass, in order |
| Simulator.AllFallbacksKept | app/simulator.py:84-93 | when no reply yields an answer, the schedule is the fallback of every truck in order |
| Simulator.RunDriver | app/simulator.py:81-93 | the driver loop computes the final schedule |
| Simulator.Enumerate | app/simulator.py:70 | `enumerate(..., start=1)` numbers the jobs from 1 |
| Simulator.TruckBlockShape | app/simulator.py:66-72 | a truck block is its three header lines, one row per job, and a blank line; it raises exactly when a row raises |
| Simulator.FallbackBlock | app/simulator.py:66-72 | a fallback answer gives the header lines and a blank line only |
| Simulator.RowText | app/simulator.py:71 | a row of string fields is the padded number, name and material and the address joined by " \| " |
| Simulator.RowColumns | app/simulator.py:71 | such a row puts the number in a column of at least 8, the name in at least 25, the material in at least 12, each starting the column and padded with spaces |
| Simulator.ScheduleLinesShape | app/simulator.py:61-74 | the lines are the rule, the title and the truck blocks in order; formatting raises exactly when a block raises |
| Simulator.EmptySchedule | app/simulator.py:61-74 | an empty schedule is just the rule and the title |
| Simulator.TruckLines | app/simulator.py:67-72 | the loop over the jobs of one truck computes its block |
| Simulator.ScheduleLinesOf | app/simulator.py:62-72 | the loop over the trucks computes the lines |
| Simulator.FormatScheduleText | app/simulator.py:61-74 | the lines joined by newlines |
| Simulator.AllFallbacksReport | app/simulator.py:81-96 | when no reply yields an answer, the report has one empty block per truck |
| Simulator.RunSimulator | app/simulator.py:81-96 | the driver and the formatting in sequence |
| TeamData.ParseColumnValues | database/Team_Data.py:192-234 | the loop computes the parsed row |
| TeamData.ColumnEntryKey | database/Team_Data.py:204-232 | a column stores under its mapped friendly name, or nothing when unmapped |
| TeamData.ParsedKeys | database/Team_Data.py:201-234 | every key of a parsed row is a friendly name of the mapping |
| TeamData.EntryNamesKey | database/Team_Data.py:206-232 | a column stores under k exactly when its id maps to k, with its value |
| TeamData.LastColumnWins | database/Team_Data.py:203-232 | the last column naming k decides `parsed[k]` |
| TeamData.ParsedKeyOrigin | database/Team_Data.py:203-232 | conversely, every key comes from the last column naming it |
| TeamData.ColumnValueKinds | database/Team_Data.py:216-230 | a mirror column gives its display value or "", a relation column the linked names joined by ", " or "", any other its text or "" |
| TeamData.UnmappedColumnIgnored | database/Team_Data.py:206-209 | an unmapped column does not affect the row |
| Dicts.StoreLatest | database/Team_Data.py:232 | a sequence of `d[k] = v` leaves the last value of every key and the other keys unchanged |
| TeamData.GroupedRows | database/Team_Data.py:284-291 | grouping succeeds exactly when every item in an allowed group parses; each allowed group holds its items' rows in item order |
| TeamData.GroupItems | database/Team_Data.py:284-291 | the loop computes the grouping |
| TeamData.AllowedGroupsMembers | database/Team_Data.py:254 | the allowed groups are exactly the board's titles that are "Schedule" or "Production Review", without repeats |
| TeamData.BoardEntriesShape | database/Team_Data.py:294-325 | a board gives one entry per allowed group, empty or not, each naming the truck |
| TeamData.BoardReport | database/Team_Data.py:294-325 | the loop computes the board's entries |
| TeamData.AllKeysMembers | database/Team_Data.py:297-299 | the key set is the union of the rows' keys |
| TeamData.ColumnsInUseMembers | database/Team_Data.py:301-302 | the columns in use are the desired order restricted to keys that occur, each as often as in the desired order |
| TeamData.ColumnsUsed | database/Team_Data.py:297-302 | the loops compute the columns in use |
| TeamData.ReportEntries | database/Team_Data.py:246-328 | every exported entry is an allowed group of one of the listed trucks |
| TeamData.RunTeamData | database/Team_Data.py:246-328 | the loop over the boards computes the export; a failing board contributes nothing |
| TeamData.ExportFeedsLoader | database/Team_Data.py:30-49 | "Production Review" is exported and the loader's material and quantity columns are friendly names of the mapping |
| MainData.ParseColumnValues | database/Main_Data.py:158-198 | the loop computes the parsed row |
| MainData.SkippedColumn | database/Main_Data.py:162-167 | an empty column or one without a truthy id is skipped |
| MainData.NightColumnStores | database/Main_Data.py:169-179 | the night column raises exactly when its value is truthy and not a string (the `TypeError` of `json.loads` is not caught); otherwise it stores "✅ Yes" when the value decodes to an object with a truthy "checked", else "❌ No" |
| MainData.ClientColumnStores | database/Main_Data.py:184-188 | the client column stores the first linked name, or "No client linked" |
| MainData.LocationColumnStores | database/Main_Data.py:191-194 | a location column stores latitude, longitude and address |
| MainData.TextColumnStores | database/Main_Data.py:181-196 | any other column stores its text under its mapped name, or its id when unmapped |
| MainData.ClientColumnName | database/Main_Data.py:17 | the client column is mapped to "Client" |
| Dicts.LookupFound | database/Main_Data.py:234-240 | a dict literal's value for a key is that of its last occurrence |
| MainData.BuildGroupToCategory | database/Main_Data.py:234-245 | the loop computes the group-to-category table |
| MainData.ScheduledGroupCategory | database/Main_Data.py:243-245 | every group whose title starts with "Jobs to be Scheduled" maps to that category |
| MainData.GroupToCategoryKnown | database/Main_Data.py:234-245 | every group maps to one of the six categories |
| MainData.ItemRowFields | database/Main_Data.py:253-265 | a row has exactly the ten fields, its name, and each other field's parsed value or "N/A" |
| MainData.CategorizedRows | database/Main_Data.py:224-266 | categorising succeeds exactly when every categorised item parses; each of the six categories holds its items' rows in item order |
| Dicts.BucketsRows | database/Main_Data.py:248-266 | bucketing keeps exactly the named buckets, each the rows of its items in order |
| MainData.RunMainData | database/Main_Data.py:224-266 | the script's loops compute the categories |
| SyncJobs.Cells | database/sync_jobs_data.py:54 | a table line gives at least one cell |
| SyncJobs.CellsShape | database/sync_jobs_data.py:54-56 | a line has one more cell than inner bars, and no cell holds a bar or surrounding whitespace |
| Text.SplitCount | database/sync_jobs_data.py:54 | `split` gives one more piece than separators |
| Text.SplitJoin | database/sync_jobs_data.py:54 | joining the pieces of `split` gives back the text |
| Text.SplitOfJoin | app/loader.py:126 | conversely, splitting a join of pieces without the separator gives the pieces back |
| Text.SplitAround | app/loader.py:126 | splitting around a separator gives the pieces before it, then the pieces after it |
| Text.SplitOfNestedJoin | app/loader.py:126-130 | splitting lines joined by line breaks, one of them itself a join of single lines, gives the lines before it, its lines, then the rest split |
| Text.StripCharsIdempotent | database/sync_jobs_data.py:43 | stripping twice is stripping once |
| SyncJobs.ZipRowKeys | database/sync_jobs_data.py:58 | a row has exactly the headers as keys, and a header holds the cell of its last occurrence |
| SyncJobs.ExtractJsonFromMixedFile | database/sync_jobs_data.py:31-64 | the loop computes the sections' rows and the order in which sections first received a row |
| SyncJobs.ScanValid | database/sync_jobs_data.py:42-62 | headers are set only while capturing, and the order lists every section of the data exactly once |
| SyncJobs.TitleLine | database/sync_jobs_data.py:44-47 | a title line starts its section with no headers and no capture and keeps the data |
| SyncJobs.RuleLines | database/sync_jobs_data.py:49-50 | capture starts only at a rule line seen while no headers are set; a rule under headers changes nothing |
| SyncJobs.HeaderLine | database/sync_jobs_data.py:52-54 | the first table line while capturing sets the headers to its cells |
| SyncJobs.TableStep | database/sync_jobs_data.py:55-59 | a later table line records its row exactly when its cell count matches |
| SyncJobs.RecordRows | database/sync_jobs_data.py:59 | recording appends to the current section only |
| SyncJobs.TableLineRows | database/sync_jobs_data.py:52-59 | a table line under headers keeps the section, the headers and the capture, and adds its row when it fits |
| SyncJobs.TableBody | database/sync_jobs_data.py:42-59 | the body of a table adds, to its section only, the rows of the lines that fit, in order |
| SyncJobs.ScanAppends | database/sync_jobs_data.py:42-62 | every section's rows only grow, at their end |
| SyncJobs.JobValuesDefaults | database/sync_jobs_data.py:100-111 | missing or empty coordinates and bid quantity are 0; the night flag holds for "✅ Yes" and not for "❌ No" |
| SyncJobs.AllJobValuesFlat | database/sync_jobs_data.py:71-112 | the nested loops over sections and jobs are one pass over all rows in order |
| SyncJobs.AllJobValuesRaisePersists | database/sync_jobs_data.py:71-112 | an exception in one section ends the sync |
| SyncJobs.SyncJobs | database/sync_jobs_data.py:66-112 | the loops compute the upsert values of every job row, section by section, or raise |
| Py.MapOkPerElement | database/sync_jobs_data.py:75-112 | a loop over values that may raise succeeds exactly when every element does, giving their results in order |
| SyncJobs.VehicleCodeShape | database/sync_jobs_data.py:126-128 | the code is taken from the text before the first "(" and has no surrounding whitespace |
| SyncJobs.ReadLineCases | database/sync_jobs_data.py:124-140 | a line adds an assignment exactly when it is a table line of at least 16 cells under a known vehicle code, taking cells 2, 3, 4, 5, 6 and 8 |
| SyncJobs.HeaderSetsCode | database/sync_jobs_data.py:126-129 | a header line sets the code and adds nothing |
| SyncJobs.NoHeaderNoAssignments | database/sync_jobs_data.py:122-131 | before any vehicle header nothing is collected |
| SyncJobs.SyncJobAssignmentLines | database/sync_jobs_data.py:122-141 | the loop computes the assignments in line order |
| SyncJobs.QuantitiesDefaults | database/sync_jobs_data.py:162 | empty quantity cells are 0, the others must parse |
| Text.StripCharsEnds | database/sync_jobs_data.py:54-56 | a stripped text neither starts nor ends with a stripped character |
| Text.LJustShape | app/simulator.py:71 | `{s:<w}` is s followed by spaces up to width w |
| Text.NatToStringRoundTrip | app/simulator.py:71 | the decimal rendering of a number reads back as that number |
| Py.LastSomeAt | app/loader.py:40-48 | a reverse scan with `break` returns the step of the newest row that yields something |
| Py.FilterOkIsFilter | app/simulator.py:91-92 | a filter whose test may raise succeeds exactly when every test does, keeping the passing elements in order |
| Seqs.DistinctProps | database/Team_Data.py:254 | de-duplication (the keys of the groups dict) keeps exactly the members, without repeats |

## Left out

- The HTTP and GraphQL requests to monday.com and their pagination (Team_Data.py and Main_Data.py `fetch_*`), the Groq request itself, and the telemetry download are not modelled. Their outcomes are parameters: `fetch`, `HttpResult` and the telemetry list.
- The retry loop for "Complexity budget exhausted" (Team_Data.py:264-278) is not modelled. A board's fetch is a single outcome, `Fetched` or `FetchFailed`. A failure is caught by the per-board handler (Team_Data.py:327-328), so the board then contributes nothing.
- `time.time()`, `time.sleep()`, printing, `tabulate` and every file read and write are left out. That includes `truck_schedule_output.txt` and `llm_prompts.json`, the tables printed by Team_Data.py:304-309 and Main_Data.py:269-274, and the `json.load`/`json.dump` of each file. The scripts' inputs and outputs are values.
- Floating point is not modelled. Numbers are reals; `float(str)`, `str(float)` and `json.loads` come through `Py.Host` as functions.
- `Loader.Round2`: `round(x, 2)` is modelled as rounding halves up on exact reals, not Python's rounding of binary floats.
- Loader.Distance: the geodesic distance (geopy) is a parameter. It returns either the miles or an exception. The model does not say which coordinates geopy rejects: it does not model `float()` of a coordinate, the [-90, 90] latitude check or the non-finite check. The only consequence modelled is that any rejected truck/job pair ends the run (`Loader.RunRaisesOnRejectedPair`).
- Loader.Merge: pandas' column types are not modelled (loader.py:32, 73). pandas turns integers in a column that also holds floats into floats, and None into NaN. That changes how the `Location:` line prints a coordinate (34 prints as `34.0`, None as `nan`). The model prints each value as its own JSON type.
- pandas DataFrames are modelled as sequences of records. `iterrows`, `map` and `dropna` become explicit loops and filters.
- The regular expression engine is not modelled in general. The one pattern of `extract_json_block` is written out by hand, with `re.DOTALL`.
- `Text.Lower`: `str.lower()` folds only ASCII letters here. Python folds all of Unicode.
- `Py.Result`: which exception is raised is not recorded. Every handler in the core catches all kinds alike or lets the run end.
- Missing keys and wrong types of the input records are not modelled. These records always have their fields, with the types the code expects:
  - `Loader.Telemetry` and `Loader.HistoryEntry`: a `KeyError` there would end the loader run.
  - `TeamData.BoardItem`: a `KeyError` or `TypeError` in `item["group"]["title"]`, `item["column_values"]` or `item["name"]` (Team_Data.py:285-289) would be caught by the per-board handler (Team_Data.py:327), so that board would contribute nothing.
  - `MainData.BoardItem`: the same errors in `item['group']['id']`, `item['column_values']` or `item['name']` (Main_Data.py:249-255) would be caught at Main_Data.py:282, ending the export before `api_out.json` is written.
- `MainData`: Python's equality of `1`, `1.0` and `True` as dict keys is not modelled. The parsed-row keys are compared as JSON values.
- `get_or_create` (sync_jobs_data.py:21-29) and all SQL are left out: the connection, the upserts, the `ON CONFLICT` handling, and the commit. `SyncJobs.SyncJobs` computes the values each upsert is given, before the id lookups.
- `SyncJobs.SyncJobAssignmentLines` does not model the job lookup by name (sync_jobs_data.py:143-148) or `datetime.strptime` (150-153). Both depend on the database or on the clock library. The model stops at the collected assignment fields.
- `SyncJobs.ExtractJsonFromMixedFile`: the `defaultdict`'s key order is returned as the separate sequence `order`. A section's key is created at its first recorded row, because in the source printing or iterating never touches an absent key.
- `sync_vehicle_status_history`, the other scripts (main.py, push_email.py, webhook server, schema setup, truck_location*.py, visualize_data.py, sync_all_data.py) and `fetch_columns` are not part of this model.
