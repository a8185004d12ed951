# BerthManagement in Dafny

This project models the logic of BerthManagement, a berth-planning tool
for container vessels. It covers three parts.

**The data-preparation scripts.**
- `model/cleanArrivals.py` keeps the arrivals whose cargo (`Tovor`) is `"KONTEJNERJI"`.
- `model/cleanPilotage.py` keeps the pilotage entries whose ship type (`LadjaTipOznaka`) is `"CT"`.
- `model/mergeData.py` joins every pilotage entry with the arrival that has the same visit code (`sifraticanja` = `Ticanje`).
- `model/cleanMerge.py` renames the merged fields to English names and drops the duplicated ones. For a departure (`Akcija` = `"Odvez"`) it replaces the berthing time with an unberthing time of half its value.

**The server's `get_data` handler** (`server/app.py`). It picks the list to serve out of the loaded JSON document, keeps the entries with the wanted `Action`, and returns at most 100 of them or an error body. The object branch and the list branch test different literals: `"Privez"` and `"Privezana"`. The model keeps both.

**The record editor of the web client.**
- `client/src/components/EditableRow.jsx` converts between the stored `"D. M. YYYY HH:MM:SS"` date-times and separate `YYYY-MM-DD` / `HH:MM` inputs, and keeps the row's `editedRecord` state.
- `src/components/RecordTable.jsx` holds the record list and the id of the row being edited.

## How the model is built

JSON values are the datatype `Json.Json`. An object is a sequence of `(key, value)` pairs. Python dict behaviour is modelled on that sequence:
- `Get` returns the last pair for a key, as `json.load` keeps the last of repeated keys.
- `Put` overwrites in place or appends.
- `Pop` removes the key.
- `Update` is `{**a, **b}`.
- `Items` gives `.items()`.

A Python exception is a `Failure` of the `Wrappers.Result` datatype, carrying a `PyOps.PyError`. A script that raises is modelled as the failure of the function from its loaded document to its saved document. `get_data` turns any failure into `{"error": str(e)}`.

Python's `int()`, `str.strip()`, `str(int)` and dict-key equality (`True == 1`) are written out in `PyOps`.

The loops of `cleanMerge.py` and `mergeData.py` are methods with loop invariants. Each is proved equal to a specification function, and the properties are proved about those functions.

The two front-end components are classes whose fields are the React state. Their methods are proved against pure functions, and the properties are proved as lemmas about those functions.

Behaviour worth noting:
- **Token splitting.** The stored date-time is split on single spaces. Runs of spaces yield empty tokens; tabs and other whitespace do not separate tokens.
- **Dot removal.** The first `"."` of the day and month tokens is removed, wherever it stands in the token.
- **Format and parse.** Parsing inverts formatting for well-formed values (`EditableRow.RoundTrip`); formatting a parsed value normalises it (`EditableRow.NormaliseWellFormed`). Tokens after the fourth are dropped (`EditableRow.ExtraTokensIgnored`).
- **Saving an unknown id.** It leaves the records unchanged and reports nothing.
- **Scope.** The record table holds no conflict detection, id allocation, search filter or prediction bookkeeping.

## Model

| member | source | states |
|---|---|---|
| Json.Get | model/cleanMerge.py:53 | `d.get(key)` is None exactly when the key is absent |
| Json.GetLast | model/cleanMerge.py:5 | a loaded object with a repeated key yields the value of its last occurrence |
| Json.Put | model/cleanMerge.py:55 | after `d[key] = v` the key reads back `v`, every other key reads as before, an existing key keeps its position and a new one is appended, and keys stay unique |
| Json.Pop | model/cleanMerge.py:67 | after `d.pop(key, None)` the key is gone, every other key reads as before, and popping an absent key changes nothing |
| Json.Update | model/mergeData.py:21 | `{**a, **b}` has the keys of both, and a key of `b` takes `b`'s value, otherwise `a`'s |
| Json.Items | server/app.py:75 | `.items()` lists every key once, with the value `get` returns for it, in the order of each key's first occurrence in the object as written |
| PyOps.Subscript | model/cleanPilotage.py:9 | `data["data"]` succeeds exactly on an object that has the key; an object without it raises KeyError, any other value raises TypeError |
| PyOps.Iterate | model/mergeData.py:17 | iterating a list yields its items; only lists, dicts and strings can be iterated |
| PyOps.KeyOf | model/mergeData.py:12 | `True` and `False` are used as the dict keys 1 and 0, and every other value as itself |
| PyOps.KeyEquality | model/mergeData.py:12-19 | two hashable values find the same dict entry exactly when Python's `==` holds between them (booleans equal to the integers 1 and 0) |
| PyOps.Strip | model/cleanArrivals.py:12 | `strip()` returns the middle of the string: everything before and after it is whitespace, and it neither starts nor ends with whitespace |
| PyOps.StripUnpadded | model/cleanArrivals.py:12 | `strip()` leaves a string that neither starts nor ends with whitespace unchanged |
| PyOps.PyInt | model/cleanMerge.py:63 | `int(v)` returns an integer unchanged and a boolean as 1 or 0, raises ValueError exactly for a string that is not an integer literal, and raises TypeError for null, a list or a dict |
| PyOps.SeparatorRejected | model/cleanMerge.py:63 | a string holding one of the characters U+001C..U+001F makes `int` raise ValueError, although `strip()` would remove them |
| PyOps.DigitsOf | model/cleanMerge.py:68 | the decimal digits of a natural number denote the number and have no leading zero (0 is the single digit "0") |
| PyOps.IntToString | model/cleanMerge.py:68 | `str(n)` is "-" exactly for negative `n`, followed by the digits of the magnitude with no leading zero; with `IntStringRoundTrip` this fixes the exact string |
| PyOps.IntStringRoundTrip | model/cleanMerge.py:68 | `int(str(n)) == n` for every integer |
| Comprehension.Filter | model/cleanArrivals.py:9-13 | a comprehension with a test that may raise keeps no more items than it is given; its behaviour is stated by the Filter lemmas below |
| Comprehension.FilterFailure | model/cleanArrivals.py:9-13 | a comprehension raises exactly when some test raises, and then with the first such exception |
| Comprehension.FilterSound | model/cleanArrivals.py:9-13 | every kept item passed the test |
| Comprehension.FilterComplete | model/cleanArrivals.py:9-13 | every item that passes is kept, as often as it occurs, and nothing else is added |
| Comprehension.FilterOrder | model/cleanArrivals.py:9-13 | the kept items are an order-preserving subsequence of the input, so never more items |
| Comprehension.FilterIdempotent | model/cleanArrivals.py:9-13 | filtering the result again returns it unchanged |
| Comprehension.MapAll | model/cleanMerge.py:44-76 | an append-per-item loop whose step may raise yields one result per item; its behaviour is stated by MapAllEntries and MapAllAborts |
| Comprehension.MapAllEntries | model/cleanMerge.py:46-76 | an append-per-item loop yields one result per item in order, or the first exception |
| Comprehension.MapAllAborts | model/cleanMerge.py:46-76 | an exception part-way aborts the whole loop with that exception |
| CleanArrivals.CleanArrivals | model/cleanArrivals.py:8-14 | the script: a non-object document raises, and a success is the document `{"data": list}`; the list is stated by KeepsExactlyContainers, AbortsOnBadEntry and Idempotent |
| CleanArrivals.IsContainerCargo | model/cleanArrivals.py:12 | an entry is kept exactly when its `Tovor`, stripped, equals "KONTEJNERJI" (case-sensitive); a missing `Tovor` counts as "" and is dropped; a non-string `Tovor` or a non-object entry raises |
| CleanArrivals.MissingDataIsEmpty | model/cleanArrivals.py:11 | a document without "data" yields an empty list |
| CleanArrivals.AbortsOnBadEntry | model/cleanArrivals.py:9-13 | the script aborts exactly when some entry is not an object or has a non-string `Tovor` |
| CleanArrivals.KeepsExactlyContainers | model/cleanArrivals.py:8-14 | the saved list holds exactly the container arrivals, in input order, and never more entries than the input |
| CleanArrivals.Idempotent | model/cleanArrivals.py:8-14 | running the script on its own output changes nothing |
| CleanPilotage.CleanPilotage | model/cleanPilotage.py:8-10 | the script: a missing "data" raises KeyError, and a success is `{"data": list}` with no more entries than the loaded list; see KeepsExactlyContainerShips |
| CleanPilotage.IsContainerShip | model/cleanPilotage.py:9 | an entry is kept exactly when `LadjaTipOznaka` is exactly "CT" (no trimming or case folding); a non-object entry raises |
| CleanPilotage.MissingDataFails | model/cleanPilotage.py:9 | a document without "data" aborts with KeyError("data") |
| CleanPilotage.AbortsOnNonObject | model/cleanPilotage.py:9 | the script aborts exactly when some entry is not an object |
| CleanPilotage.KeepsExactlyContainerShips | model/cleanPilotage.py:8-10 | the saved list holds exactly the "CT" entries, in input order, and never more entries than the input |
| CleanPilotage.Idempotent | model/cleanPilotage.py:8-10 | filtering twice equals filtering once |
| MergeData.ArrivalKey | model/mergeData.py:12 | `entry["Ticanje"]` files an arrival under its visit code, and raises for a non-object, a missing code or an unhashable code |
| MergeData.BuildIndex | model/mergeData.py:12 | every entry of the built table is an arrival filed under its own visit code |
| MergeData.IndexBuilds | model/mergeData.py:12 | building the table succeeds exactly when every arrival has a usable "Ticanje" |
| MergeData.ArrivalIsIndexed | model/mergeData.py:12 | every arrival's visit code is a key of the table |
| MergeData.IndexKeyHasArrival | model/mergeData.py:12 | every key of the table is the visit code of some arrival |
| MergeData.LastArrivalWins | model/mergeData.py:12 | when several arrivals share a visit code, the last of them is in the table |
| MergeData.Lookup | model/mergeData.py:18-19 | `p.get("sifraticanja") in arrivals_dict` succeeds exactly for an object whose code is hashable; it finds an arrival exactly when the code is a key of the table, and then the arrival filed under that key |
| MergeData.IsMatched | model/mergeData.py:18-19 | a pilotage entry is merged exactly when it is an object whose `sifraticanja` is hashable and a key of the table |
| MergeData.MergeRows | model/mergeData.py:15-22 | the merge loop yields at most one row per pilotage entry; see RowsAreMatchedEntries and MatchedRows |
| MergeData.MergeRecord | model/mergeData.py:21 | the merged record has "Ticanje" plus the arrival's and the pilotage keys; pilotage values win, then arrival values, then the visit code |
| MergeData.RowsAreMatchedEntries | model/mergeData.py:17-22 | the merge loop is the matched pilotage entries, in pilotage order, each merged with its arrival |
| MergeData.MatchedRows | model/mergeData.py:17-23 | one row per pilotage entry whose `sifraticanja` is a key of the table: never more rows than pilotage entries, in pilotage order, and every such entry kept even when several share one arrival |
| MergeData.MergedRecordFields | model/mergeData.py:18-21 | a merged record has the keys of both records plus "Ticanje"; pilotage keys carry pilotage values and other arrival keys carry arrival values; without a pilotage "Ticanje", it holds the arrival's visit code, equal as a dict key to the matched `sifraticanja` |
| MergeData.MergeSpec | model/mergeData.py:5-26 | the script: a success is `{"data": rows}` with no more rows than pilotage entries; see MatchedRows and MergedRecordFields |
| MergeData.MergeEntry | model/mergeData.py:18-22 | one pass of the loop body appends the merged record exactly when the entry's code is in the table |
| MergeData.AppendMerged | model/mergeData.py:15-22 | the loop's final list is that of the specification, or the exception that aborts it |
| MergeData.MergeData | model/mergeData.py:5-22 | the script computes the specified saved document or aborts with the specified exception |
| CleanMergeFields.FieldMapDistinct | model/cleanMerge.py:8-42 | no two renamings that are not skipped share a target name |
| CleanMerge.NonNull | model/cleanMerge.py:53-54 | a value is copied only when present and not None, and then verbatim |
| CleanMerge.Rename | model/cleanMerge.py:47-55 | the renamed entry uses only target names, each once |
| CleanMerge.RenameValue | model/cleanMerge.py:50-55 | each kept target carries its source's value, and is absent when the source is missing or None |
| CleanMerge.RenameKeys | model/cleanMerge.py:50-55 | every renamed key is the target of a renaming that is not skipped |
| CleanMerge.FieldMapping | model/cleanMerge.py:50-55 | over the real field map: kept targets are distinct, each carries its source value, the duplicates never contribute, and keys outside the map are dropped |
| CleanMerge.MappedFields | model/cleanMerge.py:50-55 | "Vessel Code", "Draft", "Berthing Time" and "Action" come from "Ticanje", "GazLadje", "TrajanjePriveza" and "Akcija", never from the skipped copies |
| CleanMerge.TruncHalf | model/cleanMerge.py:64-68 | `int(n / 2)` is the half of `n` rounded toward zero |
| CleanMerge.IsDeparture | model/cleanMerge.py:58 | an entry is a departure exactly when its "Action" is present and is the string "Odvez" |
| CleanMerge.Unberth | model/cleanMerge.py:57-73 | the departure rule always removes "Berthing Time" and cannot fail without one; see the Departure lemmas |
| CleanMerge.CleanEntry | model/cleanMerge.py:47-76 | a cleaned entry is an object with unique keys, drawn from the target names and "Unberthing Time" |
| CleanMerge.NonDepartureUnchanged | model/cleanMerge.py:58-75 | an entry whose Action is not "Odvez" is exactly its renamed form |
| CleanMerge.DepartureEntry | model/cleanMerge.py:47-73 | an "Odvez" entry is the departure rule applied to its renamed fields, so a cleaned departure never keeps "Berthing Time" |
| CleanMerge.DepartureAborts | model/cleanMerge.py:62-70 | the departure rule aborts exactly when the berthing time is present and `int` raises something other than ValueError |
| CleanMerge.DepartureKeepsOthers | model/cleanMerge.py:57-73 | after the departure rule "Berthing Time" is gone and every unrelated field is unchanged |
| CleanMerge.DepartureWithoutBerthingTime | model/cleanMerge.py:59-73 | without a berthing time, no unberthing time is added and "Vessel ETA" stays |
| CleanMerge.DepartureConverted | model/cleanMerge.py:62-68 | a berthing time that converts drops "Vessel ETA" and stores half of it, truncated, as decimal text |
| CleanMerge.DepartureNotANumber | model/cleanMerge.py:62-70 | a berthing time that raises ValueError gives "Unberthing Time" None and keeps "Vessel ETA" |
| CleanMerge.UnberthingTimeReadsBack | model/cleanMerge.py:63-68 | the stored unberthing time reads back, with `int`, as half the berthing time |
| CleanMerge.OneEntryPerRecord | model/cleanMerge.py:46-76 | the saved list holds one cleaned entry per merged record, in the same order, or the script aborts |
| CleanMerge.CleanMergeSpec | model/cleanMerge.py:4-80 | the script: a success is `{"data": list}` with exactly one entry per merged record; see OneEntryPerRecord |
| CleanMerge.RenameFields | model/cleanMerge.py:49-55 | the field-mapping loop computes the specified renamed entry |
| CleanMerge.CleanOne | model/cleanMerge.py:47-76 | one pass of the outer loop computes the specified cleaned entry or exception |
| CleanMerge.CleanMergeScript | model/cleanMerge.py:44-76 | the outer loop computes the specified saved document or aborts with the first exception |
| ServerApp.Serve | server/app.py:78-83 | filtering a list on an action always gives a well-formed response; see ServeRows |
| ServerApp.ServeObject | server/app.py:74-80 | the object branch always gives a well-formed response, and the "No list found" error when no value is a list; see ObjectServesFirstList |
| ServerApp.GetData | server/app.py:68-87 | the handler always answers with `{"data": rows}` of at most 100 rows or `{"error": message}`; see ResponseShape and the lemmas below |
| ServerApp.Take | server/app.py:79 | `filtered[:100]` is the prefix of the filtered list of length 100, or the whole list when it is shorter |
| ServerApp.FirstList | server/app.py:75-76 | the search stops at the first value, in key order, that is a list, and finds none exactly when no value is a list |
| ServerApp.FirstListAt | server/app.py:75-76 | the first list value is the one served, whatever later values hold |
| ServerApp.ServeRows | server/app.py:78-83 | serving fails exactly when an entry is not an object, with the first such entry's message; otherwise it returns the first 100 entries whose Action matches (all of them when fewer match), in order; every match is counted with its multiplicity |
| ServerApp.ObjectServesFirstList | server/app.py:74-79 | for an object, only the first list value is filtered, with the literal "Privez" |
| ServerApp.ObjectWithoutList | server/app.py:80 | an object with no list value yields "No list found in JSON dict values" |
| ServerApp.ListServesPrivezana | server/app.py:81-83 | a top-level list is filtered with the literal "Privezana" |
| ServerApp.OtherShapes | server/app.py:84-87 | another top-level shape yields "Unsupported JSON structure", and a failed read yields its message |
| ServerApp.ResponseShape | server/app.py:70-87 | every response is `{"data": rows}` with at most 100 rows or `{"error": message}`, never a partial result |
| EditableRow.Split | client/src/components/EditableRow.jsx:5 | `split(" ")` yields at least one piece, none containing the separator |
| EditableRow.SplitJoin | client/src/components/EditableRow.jsx:5-20 | splitting a join of separator-free pieces gives back the pieces |
| EditableRow.RemoveFirst | client/src/components/EditableRow.jsx:8-9 | `replace(".", "")` changes nothing without a dot and removes exactly one character otherwise |
| EditableRow.RemoveFirstAfter | client/src/components/EditableRow.jsx:8-9 | only the first dot is removed |
| EditableRow.PadStart2 | client/src/components/EditableRow.jsx:8-9 | `padStart(2, "0")` leaves strings of length 2 or more alone and fills shorter ones with leading zeros |
| EditableRow.Slice5 | client/src/components/EditableRow.jsx:11 | `slice(0, 5)` is a prefix of at most five characters, the whole string when shorter |
| EditableRow.Nth | client/src/components/EditableRow.jsx:19-20 | a part missing from the destructured date renders as "undefined" |
| EditableRow.ParseCustomDateTime | client/src/components/EditableRow.jsx:3-15 | fewer than four tokens (or an empty value) give the empty pair and never a partial one; the time has at most five characters |
| EditableRow.FormatCustomDateTime | client/src/components/EditableRow.jsx:17-21 | the result is empty exactly when the date or the time is empty, and otherwise ends with ":00" |
| EditableRow.DateParts | client/src/components/EditableRow.jsx:19 | a plain year, month and day split back out of "Y-M-D" |
| EditableRow.ParseTokens | client/src/components/EditableRow.jsx:5-14 | a string of four plain tokens parses to year, padded month and day, and the first five characters of the time |
| EditableRow.ExtraTokensIgnored | client/src/components/EditableRow.jsx:5-11 | tokens after the fourth do not change the parsed date and time |
| EditableRow.RoundTrip | client/src/components/EditableRow.jsx:3-21 | a plain date with month and day of two or more digits and a five-character time survive formatting and parsing again |
| EditableRow.NormaliseWellFormed | client/src/components/EditableRow.jsx:3-21 | "D. M. YYYY HH:MM:SS" becomes "DD. MM. YYYY HH:MM:00" after parse and format, and a second pass changes nothing |
| EditableRow.DateTimeEdited | client/src/components/EditableRow.jsx:43-48 | the new value is empty exactly when the new half or the kept half is empty, so a field that did not parse becomes "" |
| EditableRow.DateEditKeepsTime | client/src/components/EditableRow.jsx:43-48 | changing the date keeps the time read from the stored value |
| EditableRow.TimeEditKeepsDate | client/src/components/EditableRow.jsx:43-48 | changing the time keeps the date read from the stored value |
| EditableRow.RowState.constructor | client/src/components/EditableRow.jsx:34 | the edited record starts as a copy of the row's record |
| EditableRow.RowState.HandleChange | client/src/components/EditableRow.jsx:36-39 | the named field takes the new value and no other field changes |
| EditableRow.RowState.HandleDateTimeChange | client/src/components/EditableRow.jsx:43-50 | the field takes the recombined date-time and no other field changes |
| RecordTable.ReplaceById | src/components/RecordTable.jsx:38 | saving keeps the length and order of the list, replaces every record with the saved id and leaves the others unchanged |
| RecordTable.AbsentIdUnchanged | src/components/RecordTable.jsx:38 | saving under an id no record has leaves the list as it was |
| RecordTable.SaveKeepsIds | src/components/RecordTable.jsx:37-41 | saving a row under its own id keeps every id in place, so unique ids stay unique |
| RecordTable.SaveReplacesOne | src/components/RecordTable.jsx:38 | with unique ids, saving replaces exactly the one record with that id |
| RecordTable.SaveIdempotent | src/components/RecordTable.jsx:38 | saving the same record twice is the same as saving it once |
| RecordTable.SingleEditingRow | src/components/RecordTable.jsx:35-53 | with unique ids at most one row is in edit mode |
| RecordTable.Table.constructor | src/components/RecordTable.jsx:34-35 | the table starts with the initial records and no row in edit mode |
| RecordTable.Table.IsEditing | src/components/RecordTable.jsx:53 | a row is in edit mode only when `editId` holds its id |
| RecordTable.Table.HandleSave | src/components/RecordTable.jsx:37-41 | save replaces the records with the saved id and leaves no row in edit mode |
| RecordTable.Table.HandleCancel | src/components/RecordTable.jsx:43-45 | cancel leaves the records unchanged and no row in edit mode |
| RecordTable.Table.Edit | src/components/RecordTable.jsx:54 | edit puts exactly the rows with that id in edit mode and leaves the records unchanged |

## Left out

- File reads and writes, `json.load`/`json.dump` and the `print` calls of the scripts are not modelled. Each script is the function from its loaded document to its saved one, and `get_data` receives the parsed document or the message of the read error. The model also does not capture that `cleanPilotage.py` writes `filter_Pilotage.json` while `mergeData.py` reads `filtered_Pilotage.json`.
- Floating-point JSON numbers are not modelled. Values are null, booleans, integers, strings, lists and objects.
- PyOps.PyInt: does not accept the non-ASCII Unicode digits that Python's `int` accepts, does not model `int` of a float, and does not raise the ValueError Python 3.11 and later raise for a string of more than 4300 digits.
- CleanMerge.TruncHalf: computes `int(n / 2)` exactly, without the rounding of the float division for integers beyond 2^53, and without the OverflowError the float division raises for integers beyond about 2^1024. That OverflowError is not caught by the `except ValueError` at model/cleanMerge.py:69 and would abort the script, where the model succeeds.
- EditableRow.PadStart2, EditableRow.Slice5: lengths are counted in Unicode characters, not in the UTF-16 code units JavaScript's `padStart` and `slice` count, so a token holding a character outside the Basic Multilingual Plane is padded or cut differently.
- PyOps.Message: renders exceptions in a simplified form, without the quoting and escaping that Python's `repr` adds.
- EditableRow.RowState: record fields are strings only. Numeric fields, and calling `split` on a non-string value, are not modelled, and a missing field reads as "", which JavaScript treats the same way.
- JSX rendering, the buttons and the Bootstrap markup of both components are not modelled. Neither are the props EditableRow.jsx only passes through (`onDelete`, `onPredict`, `predictingId`, `isConflict`).
- src/components/EditableRow.jsx is not part of this model. It holds only a one-field state update and the save call.
- model/Model2_2.py, and `predict_berth`, `convert_comma_number` and `convert_to_vessel` in server/app.py, are not part of this model. They are float parsing, `strptime` and a pickled scikit-learn model.
- The FastAPI application setup and routing around `get_data` are not modelled.
