# Multi-Agent Energy Analyzer — a Dafny model of its pipeline core

The analyzer is a Streamlit page. It sends an uploaded energy bill through
three language-model agents:

- the **bill analyzer** (agent 1) extracts facts from the PDF;
- the **web researcher** (agent 2) looks up industry benchmarks for the
  bill's rate per kWh;
- the **report generator** (agent 3) compiles both into a report.

Each result is stored in the page's session state under `bill_analysis`,
`web_research` and `final_report`, and the page renders a panel for each.

This project models the deterministic part of that pipeline:

- **Response cleanup** (`PyString`, `Cleanup`). Every agent cleans the
  model's answer before parsing it: `replace("```json", "")`, then
  `replace("```", "")`, then `strip()`. `PyString` models Python's
  left-to-right, non-rescanning `replace(p, "")` and the exact `str.isspace`
  set that a bare `strip()` removes.
- **Answers** (`Delegate`). An answer is a list of content blocks. Agents 1
  and 3 read `content[0].text`. Agent 2 runs together the text of every
  block whose type is "text".
- **Outcome policy** (`Agents`):
  - agents 1 and 3 raise on any failure;
  - agent 2 replaces a parse failure with a fixed fallback record and fails
    only when the service call itself raises;
  - the benchmark query `"energy rate {rate} kWh industry benchmark"` is
    built from the bill's `ratePerKwh`.
- **Orchestration and display** (`Orchestrator`).
  - One button press runs the stages strictly in order. Each result is
    stored as soon as its stage returns. The first exception ends the run
    and is reported.
  - Nothing is rolled back and no key is ever cleared.
  - The research and report panels are nested under the check for the
    bill.

The language-model service, the JSON parser and Python's `str()` rendering
of the rate are parameters. `Orchestrate` is written over injected stage
functions (`Stages`). `Run` wires in the real agents (`StagesOf`).

Facts about the code that the model keeps:

- The code has no "degraded" flag: a fallback research record is stored like
  a real one.
- The code checks no agent's output against a schema: whatever parses is
  stored. Apart from `ratePerKwh`, whose absence ends the run at app.py:148
  before agent 2 is asked, a missing field only shows when the display reads
  it and raises, which stops every panel after it.
- The code does not reset the session at the start of a run. A run that
  fails in agent 2 or 3 leaves the previous run's later results next to the
  new bill. A run that fails because the bill has no `ratePerKwh` stores that
  bill, so its panel raises and nothing after it is shown.

## Model

| member | source | states |
|---|---|---|
| PyString.Strip | app.py:50 | `strip()` leaves no white space at either end and never lengthens the text |
| PyString.StripUnique | app.py:50 | white space, a stripped body, then white space always strips to exactly that body |
| PyString.StripStripped | app.py:50 | stripping text that has no white space at its ends changes nothing |
| PyString.StripKeepsAbsence | app.py:50 | `strip()` cannot create an occurrence of a pattern that the input lacks |
| PyString.RemoveOnlyDeletesPattern | app.py:50 | `replace(p, "")` only deletes: the output's characters are a sub-multiset of the input's, and every character not in `p` keeps its count |
| PyString.RemoveAbsent | app.py:50 | `replace(p, "")` on text without `p` returns the text unchanged |
| PyString.RemoveAfterPlain | app.py:50 | a prefix that holds no first character of `p` passes through `replace` untouched |
| PyString.RemoveFenceLeavesNone | app.py:50 | after `replace("```", "")` no triple backtick is left anywhere, however the backticks were grouped |
| Cleanup.Clean | app.py:50 | the cleaned text contains neither "```" nor "```json", has no white space at its ends, and is no longer than the raw answer |
| Cleanup.FenceFreeIsJsonFenceFree | app.py:50 | text without "```" has no "```json" either |
| Cleanup.CleanIdempotent | app.py:81 | cleaning an already cleaned answer changes nothing |
| Cleanup.CleanKeepsFenceFree | app.py:81 | an answer without "```" and without surrounding white space reaches the parser unchanged, single and double backticks included |
| Cleanup.RemoveClosingFence | app.py:111 | on text without "```", the second `replace` deletes a closing "```" and nothing else, even when the text ends in one or two backticks |
| Cleanup.CleanUnwrapsFence | app.py:111 | "```json", white space, a payload without "```", white space, "```" cleans to exactly the payload, whatever single or double backticks it holds |
| Cleanup.TicksBeforePatternKept | app.py:111 | a run of backticks in front of a pattern that starts with three backticks and then another character is kept, and the pattern after it is deleted |
| Cleanup.FirstPassDoesNotRescan | app.py:111 | the first `replace` keeps backticks that stand before a "```json", deletes that "```json" and goes on after it without rescanning what it emitted |
| Cleanup.FirstPassFormsFence | app.py:111 | three backticks followed by "```jsonjson" come out of the first `replace` as a new "```json", which only the second pass takes apart, so the cleanup leaves "json" |
| Delegate.CollectText | app.py:76-79 | agent 2's loop produces the text blocks' texts, in order, run together |
| Delegate.JoinedTextAppend | app.py:76-79 | the text of two block lists in sequence is the first one's text followed by the second one's |
| Delegate.ToolBlockAddsNothing | app.py:77-79 | a block whose type is not "text" adds nothing, wherever it stands |
| Delegate.TextBlockAddsItsText | app.py:77-79 | a text block adds exactly its text, at its position |
| Delegate.NoTextBlocksNoText | app.py:76-79 | an answer made only of tool blocks gives the empty text |
| Delegate.LeadingTextIsJoinedText | app.py:48 | for an answer whose first block is a text block and whose other blocks are all tool blocks, the first block's text equals the joined text |
| Agents.StrictReadsOnlyFirstBlock | app.py:48-51 | agents 1 and 3 read only the first block: whatever follows a leading text block leaves their outcome unchanged |
| Agents.LeadingToolBlockBreaksOnlyStrict | app.py:48-51 | an answer that starts with a tool block makes agents 1 and 3 raise whatever follows it; agent 2 returns a record, the same as for the answer without that block; when that shorter answer's first block is a text block holding all of its text and the strict agents succeed on it, agent 2 returns what they would have |
| Agents.LenientOutcome | app.py:76-92 | agent 2 fails exactly when the call raises; otherwise it returns the parse of the cleaned joined text, or the fallback record when that does not parse |
| Agents.LenientRecoversWhereStrictFails | app.py:83-92 | reading the same text, agent 2 agrees with the strict agents wherever they succeed, and returns the fallback exactly where they fail to parse |
| Agents.FencedAnswerParsesPayload | app.py:111-112 | a fenced JSON answer whose payload holds no "```" is parsed as its bare payload, and fails only if the payload itself does not parse |
| Agents.QueryRoundTrip | app.py:148 | the rendered rate can be read back out of the benchmark query |
| Agents.QueryOfReadRate | app.py:148 | every text the query reader accepts is the benchmark query of the rate it reads |
| Agents.QueryInjective | app.py:148 | different rendered rates give different queries |
| Agents.DeriveQuery | app.py:148 | the query fails exactly when the bill has no `ratePerKwh`, and otherwise carries the rendered rate |
| Orchestrator.Orchestrate | app.py:135-160 | a run's events follow the fixed stage order; it completes exactly when all six events happen; a failed run ends right after agent 1, 2 or 3 was asked, or right after the bill was stored when the query could not be built |
| Orchestrator.ApplyIsOverwrite | app.py:144-155 | making a trace's writes to the session one by one is the same as overwriting the session with all of them |
| Orchestrator.OrchestrateSession | app.py:141-160 | the session a run leaves is the start session with the run's writes made in order, so it is the start session overwritten by what the run stored |
| Orchestrator.WritesOfInOrder | app.py:143-155 | in an ordered trace a key is written exactly when the trace got past its store event, and it holds the value stored there |
| Orchestrator.OrchestrateStepByStep | app.py:141-160 | each stage runs only after the previous one returned; its result is stored at once; the next stage gets exactly what was stored; the first failure ends the run with that error |
| Orchestrator.OrchestrateWritesInOrder | app.py:141-155 | a key is written exactly when its stage and every earlier stage succeeded |
| Orchestrator.OrchestrateKeepsUnwrittenKeys | app.py:144-160 | a run never deletes a key; keys it did not write keep the values from earlier runs |
| Orchestrator.RunAsksWithStoredResults | app.py:143-154 | agent 2 is asked with exactly the benchmark query of the stored bill's rendered rate, and agent 3 with the stored bill and research |
| Orchestrator.RunFailureCauses | app.py:141-160 | the query stage fails only on a bill without `ratePerKwh`; agent 2 fails only on a raised call; agents 1 and 3 never fail for a missing rate |
| Orchestrator.OrchestratePreservesConsistency | app.py:141-160 | starting from a session in which later results exist only alongside earlier ones, every run leaves such a session |
| Orchestrator.Display | app.py:163-212 | the bill panel is reached exactly when a bill is stored; the research and report panels are reached only when the bill panel rendered, and the report only when the research panel did not raise |
| Orchestrator.FallbackRenders | app.py:87-92 | agent 2's fallback record has every field its panel reads (app.py:185-189) |
| Orchestrator.DisplayOfConsistent | app.py:163-212 | on a session in stage order whose results have every field their panels read, each panel renders exactly when its key is present |
| Orchestrator.OrchestrateHidesOnlyByRaising | app.py:141-212 | a panel reached before a run is reached after it unless an earlier panel now raises |
| Orchestrator.NoRateRunHidesLaterPanels | app.py:148-175 | a run that fails because the bill has no `ratePerKwh` leaves that bill stored; its panel raises at the rate lookup and no research or report panel is shown |
| Orchestrator.CompleteRunShowsEverything | app.py:141-212 | a completed run leaves exactly the three keys, and each panel renders when the new result has the fields it reads |
| Orchestrator.ReportFailureKeepsPartialResults | app.py:153-212 | on a fresh session, a failing report stage leaves the bill and research stored, shows no report, and reaches the research panel, with the stored research, when the bill panel renders |
| Orchestrator.StaleResultsStayVisible | app.py:141-212 | after a complete run, a run that stores a new bill and then fails in agent 2 keeps the old research and report; when the new bill's panel renders, they are displayed as before |

## Left out

- Page layout, headings, metrics and the file uploader (app.py:7, 114-133, 164-212): presentation only. The model keeps, for each panel, whether it is hidden, rendered to the end, or stopped by a raise. It does not keep which elements of a stopped panel were already drawn.
- Building the client and reading the API key (app.py:9-18): configuration. It runs before any stage.
- The calls to `client.messages.create` (app.py:22-46, 55-73, 96-109), including prompts, model name and the web-search tool. They are nondeterministic network calls, so each stage's answer is a parameter (`World`).
- Reading the upload and base64-encoding it (app.py:137-139): byte handling that feeds only agent 1's prompt.
- `json.loads` and `json.dumps`: the parser is an injected `Parser` function, and numbers are kept as their literal text.
- Python's `str()` rendering of the rate inside the f-string: an injected `show` function.
- The success and error banners (app.py:157, 160): the model records the error in `RunResult.error` and does not render it.
- Checks that Streamlit itself makes on the values it is handed, such as `st.metric` given a list (app.py:172-175, 185, 197-211). Streamlit is not part of this model. Only the dictionary lookups and loops of the display code count as raising.
- PyString.Remove: the model requires a non-empty pattern. The empty-pattern behaviour of `replace` is never used, because the cleanup only removes the two fences.
