# Think tool thought log

A model of the in-memory thought log of the `think-tool` MCP server
(`server.go`). A `ThinkToolServer` owns an ordered log of timestamped thoughts
and answers four tool calls on it:

- `think` (`HandleThink`) checks that the `thought` argument is a string,
  appends one entry at the end of the log and returns a confirmation. The
  confirmation echoes at most 50 bytes of the thought, followed by `...` when
  the thought is cut.
- `get_thoughts` (`HandleGetThoughts`) renders the log in insertion order with
  1-based numbers. On an empty log it returns "No thoughts have been recorded yet.".
- `clear_thoughts` (`HandleClearThoughts`) empties the log and reports how
  many entries it held.
- `get_thought_stats` (`HandleGetThoughtStats`) reports the count, the
  average length truncated to hundredths, and the first longest entry with
  its length. On an empty log it returns the same fixed message as `get_thoughts`.

The model has two modules:

- `Text` (`text.dfy`) holds byte strings and the `%d` rendering of counts
  (`Decimal`), with its inverse `DigitsValue`.
- `ThinkTool` (`server.dfy`) holds the entry type and the functions that say
  what each handler must return. It also holds the lemmas about those
  functions and the class `ThinkToolServer`.

The class has the field `thoughts: seq<ThoughtEntry>`. Its handlers are
methods that follow the Go loops. The two mutating handlers (`HandleThink`,
`HandleClearThoughts`) may modify only `thoughts`. Their postconditions give
the whole new log in terms of the old one. The two reading handlers have no
`modifies` clause, so they leave the log unchanged. Their results are proved
equal to `Transcript(thoughts)` and `Statistics(thoughts)`.

Modelling choices:

- Strings are byte sequences (`Text.Bytes`), because Go's `len` and
  `thought[:50]` count bytes. Literals are ASCII and are converted by `Text.Ascii`.
- The timestamp `time.Now().Format(time.RFC3339)` is a parameter of
  `HandleThink`, taken as an opaque byte string.
- The argument map is `map<string, Value>`, where a `Value` is either a string
  or some value of another type. The Go type assertion
  `args["thought"].(string)` becomes `ThoughtArgument`. A missing key and a
  non-string value both give `Failure("thought must be a string")`, and the
  log is not touched.
- Statistics are a datatype of four naturals, and the average is in
  hundredths. The code truncates: `float64(int(avgLength*100)) / 100`. Its
  comment calls this rounding to 2 decimal places, which would give 18.67
  for lengths 13, 30, 13. The
  model follows the code, which gives 18.66 (`AverageTruncates`).
- The singular message "Cleared 1 recorded thoughts." is kept as the code
  writes it (`ClearMessageOfOne`).

## Model

| member | source | states |
|---|---|---|
| `Text.Decimal` | server.go:114 | `%d` of a non-negative integer: a non-empty string of decimal digits whose first digit is 0 only for the number 0 (no leading zeros) |
| `Text.DecimalRoundTrip` | server.go:130 | reading the rendered digits back gives the number, so a reported count is exact |
| `Text.DecimalInjective` | server.go:130 | different counts have different renderings |
| `ThinkTool.ThoughtArgument` | server.go:82-85 | the argument is accepted exactly when the key `thought` is present with a string value, and then it is that string |
| `ThinkTool.ConfirmationEchoes` | server.go:95-100 | the confirmation is "Thought recorded: " followed by the first min(len, 50) bytes of the thought; it is prefix + the whole thought when len <= 50, and exactly "..." follows when the thought is longer; its length is at most 18 + 50 + 3 |
| `ThinkTool.ShortConfirmationInjective` | server.go:98-99 | a thought of at most 50 bytes can be recovered from its confirmation |
| `ThinkTool.LongConfirmationForgets` | server.go:96-97 | thoughts longer than 50 bytes that share their first 50 bytes get the same confirmation |
| `ThinkTool.ConfirmationOfShortThought` | server_test.go:51-54 | "This is a test thought" is confirmed as "Thought recorded: This is a test thought" |
| `ThinkTool.RenderedAppend` | server.go:112-120 | rendering a concatenated log renders the first part, then the second part numbered on from the first part's length |
| `ThinkTool.TranscriptInOrder` | server.go:111-122 | in the listing of a non-empty log, entry k (from 0) is block number k + 1 ("Thought #k+1 (ts):\ntext\n\n"); the blocks of all earlier entries come before it and the blocks of all later entries come after it |
| `ThinkTool.BlockShowsEntry` | server.go:113-114 | each rendered block shows the entry's timestamp after "Thought #n (" and then its thought after "):\n" |
| `ThinkTool.TranscriptContainsEntry` | server_test.go:112-116 | every recorded thought and every timestamp occurs in the listing |
| `ThinkTool.TranscriptAfterRecord` | server.go:89-92 | after a record, the listing is the old listing (or nothing, if the log was empty) followed by one new block numbered by the new length |
| `ThinkTool.ClearMessageInjective` | server.go:127-130 | the clear message determines the count it reports |
| `ThinkTool.ClearMessageOfOne` | server_test.go:196-199 | clearing one entry reports "Cleared 1 recorded thoughts." |
| `ThinkTool.LongestScan` | server.go:149-156 | the scan with strict `>` from (0, -1): the length is the maximum thought length; the index is the first entry of that length; the index stays -1 exactly when the maximum is 0 |
| `ThinkTool.Statistics` | server.go:134-164 | no statistics and the fixed empty-log message exactly when the log is empty; otherwise the count is the log length |
| `ThinkTool.AverageHundredths` | server.go:146-161 | the average q in hundredths is the greatest integer with q * count <= 100 * total, so it is truncated and not rounded |
| `ThinkTool.LongestIsFirstMaximum` | server.go:149-163 | the reported length is at least every thought's length; a reported index of 0 comes with length 0; a non-zero reported index is a 1-based position with exactly that length, and every earlier entry is strictly shorter |
| `ThinkTool.AllEmptyGivesIndexZero` | server.go:150-162 | the reported index is 0 if and only if every thought is empty |
| `ThinkTool.StatsAfterRecord` | server.go:89-92 | after one more record: count + 1 and total + its length; the new entry becomes the longest exactly when it is strictly longer than the previous longest length (0 on an empty log), otherwise the longest is unchanged |
| `ThinkTool.TotalLengthBound` | server.go:142-145 | the total length is at most count times any bound on the lengths |
| `ThinkTool.AverageAtMost` | server.go:146-161 | a total of at most count * bound averages to at most 100 * bound hundredths |
| `ThinkTool.AverageAtMostLongest` | server.go:142-163 | the average never exceeds the longest length |
| `ThinkTool.StatsOfUnitTestLog` | server_test.go:145-151 | lengths 13, 29, 13 give count 3, average 18.33, longest index 2, length 29 |
| `ThinkTool.AverageTruncates` | server.go:161 | lengths 13, 30, 13 give count 3, average 18.66 (not 18.67), longest index 2, length 30 |
| `ThinkTool.ThinkToolServer.constructor` | server.go:27-35 | a new server has an empty log; an empty name becomes "think-tool" |
| `ThinkTool.ThinkToolServer.HandleThink` | server.go:81-103 | a bad argument fails with "thought must be a string" and the log is unchanged; otherwise exactly one entry (timestamp, thought) is appended at the end and the confirmation is returned |
| `ThinkTool.ThinkToolServer.HandleGetThoughts` | server.go:106-123 | the result of the two rendering loops is `Transcript` of the log; the log is not modified |
| `ThinkTool.ThinkToolServer.HandleClearThoughts` | server.go:126-131 | the log becomes empty and the message reports the length it had before |
| `ThinkTool.ThinkToolServer.HandleGetThoughtStats` | server.go:134-173 | the result of the summing loop and the longest-search loop is `Statistics` of the log; the log is not modified |

## Left out

- MCP tool registration and descriptions (`registerTools`) are wiring over an external library.
- The MCP server object created in `NewThinkToolServer` is left out. The constructor keeps only the empty log and the default name.
- `Run` and `main` are left out. They are about the transport and process I/O.
- The clock read `time.Now().Format(time.RFC3339)` is left out. The timestamp is an input.
- `json.MarshalIndent` and its error path are left out. The statistics are returned as a `Stats` value, not as JSON text.
- Wrapping results in `mcp.CallToolResult` text content is left out. Results are byte strings.
- ThinkTool.AverageHundredths: computes floor(100 * total / count) exactly. The code uses float64 and computes `int(total / count * 100)`. Rounding in floating point can make that one hundredth lower, for example total 29 over count 100 gives 0.28 and not 0.29. Small logs show it too: 5 thoughts with 23 bytes in all give 4.59 in the code and 460 hundredths in the model.
- Concurrency is left out. The code takes no lock, and handlers are taken to run one at a time.
