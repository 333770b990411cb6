# UI-executor step graph and test-case generator, modelled in Dafny

This project models two parts of a small agentic QA workshop repository.

1. **The UI-executor graph** (`src/graph/ui_executor/graph.py`, `build_ui_app`).
   The function drives a graph builder. It registers six nodes (`prepare`, `run`,
   `parse`, `llm_triage`, `approve`, `retry`) and makes `prepare` the entry point.
   It declares the linear chain `prepare -> run -> parse -> llm_triage -> approve`
   and a conditional branch after `approve`: the router `decide_after_approval`
   returns a label, and the path map sends `"retry"` to `retry` and `"end"` to END.
   Finally it declares the back edge `retry -> run`.
   - `UiExecutorGraph.Builder` is a class whose fields the builder calls update in place.
   - `UiExecutorGraph.BuildUiApp` makes the same calls in the same order. It is
     proved to declare a well-formed graph whose edge relation is exactly
     the transition table `StepTable.Transition`, an enum of the six steps plus END.
   - Lemmas about that table prove the topology's properties: sole successors,
     the single back edge, reachability, END only through `"end"`, every cycle
     through `approve` and `retry`, and the shape of every complete path.
   - The router is not modelled. A run is described by the sequence of labels
     the router returns on its successive calls (`StepTable.Drive`).

2. **The test-case generator's `main`** (`src/agents/testcase_agent.py`).
   - It strips the requirement text (Python `str.strip()`, `PyText.Strip`).
   - It builds the two chat messages: the system prompt, then the user template
     filled by `str.format` (`PyText.Format`).
   - It calls the model once, then parses the reply as JSON. On failure it
     appends a fixed reminder and parses exactly once more. If that also fails,
     it raises a RuntimeError carrying the first parse error.
   - Rows are built and the CSV is written only after a successful parse.

   `chat`, `parse_json_safely` and `to_rows` become function parameters.
   `GenerateTestCases` returns the outcome and a log of the foreign calls it
   made (model call, parser calls, CSV write), in order.

`graph.py` declares only the topology: the router's labels are `"retry"` and
`"end"`, and budgets, attempt counters and the approval policy live in the node
bodies in `src/graph/ui_executor/nodes.py`, which are not modelled.

## Model

| member | source | states |
|---|---|---|
| `StepTable.Next` | src/graph/ui_executor/graph.py:35-51 | the unconditional edge of each step: `approve` alone has none; every other edge moves one place along the chain, except that `retry` leads back to `run` |
| `StepTable.Route` | src/graph/ui_executor/graph.py:41-48 | the path map after `approve`: a mapped label is "retry" or "end", and it leads to `retry` or END |
| `StepTable.Transition` | src/graph/ui_executor/graph.py:35-51 | the graph's edge relation: the union of `Next`'s unconditional edges and, out of `approve`, the targets of the path map; every edge climbs one place along the chain or reaches END, except the back edge `retry -> run` |
| `StepTable.NamesDistinct` | src/graph/ui_executor/graph.py:26-31 | two steps have the same registered name exactly when they are the same step |
| `StepTable.RouteLabels` | src/graph/ui_executor/graph.py:41-48 | the approve path map holds exactly the labels "retry" and "end", sending "retry" to `retry` and "end" to END |
| `StepTable.ApproveSuccessors` | src/graph/ui_executor/graph.py:41-48 | `approve` has no unconditional edge; its successors are exactly `retry` and END, both reached through router labels |
| `StepTable.SingleSuccessor` | src/graph/ui_executor/graph.py:35-51 | every step other than `approve` has an unconditional edge, and that edge's target is its only successor |
| `StepTable.EntrySuccessor` | src/graph/ui_executor/graph.py:34-35 | the only successor of the entry point `prepare` is `run` |
| `StepTable.LinearChain` | src/graph/ui_executor/graph.py:36-38 | `run`, `parse` and `llm_triage` each have exactly one successor, forming the chain `run -> parse -> llm_triage -> approve` |
| `StepTable.OnlyBackEdge` | src/graph/ui_executor/graph.py:50-51 | an edge fails to move forward along the chain exactly when it leaves `retry`, and then it leads to `run` |
| `StepTable.EndOnlyFromApprove` | src/graph/ui_executor/graph.py:41-48 | END is a successor of `approve` and of no other step, and only the label "end" maps to it |
| `StepTable.RetryOnlyFromApprove` | src/graph/ui_executor/graph.py:41-51 | `approve` is the one predecessor of `retry` |
| `StepTable.AllReachable` | src/graph/ui_executor/graph.py:26-51 | each of the six registered steps ends some walk that starts at `prepare` |
| `StepTable.FromRunIsPath` | src/graph/ui_executor/graph.py:35-51 | for every k, `run parse llm_triage approve` repeated with `retry` between the passes k times, then END, is a walk of the graph |
| `StepTable.PathFromRunHasShape` | src/graph/ui_executor/graph.py:35-51 | every walk from `run` that reaches END has that shape for some k |
| `StepTable.CompletePathShape` | src/graph/ui_executor/graph.py:19-51 | a sequence is a complete path (from `prepare` to END) exactly when it is `prepare (run parse llm_triage approve retry)^k run parse llm_triage approve END` for some k |
| `StepTable.PrepareOnce` | src/graph/ui_executor/graph.py:34-35 | on a path of that shape `prepare` occurs only at the start |
| `StepTable.CycleThroughApproveAndRetry` | src/graph/ui_executor/graph.py:35-51 | every closed walk of at least one edge passes through both `approve` and `retry` |
| `StepTable.DriveFromRun` | src/graph/ui_executor/graph.py:36-51 | the steps visited from `run` when the router gives a list of answers: every run begins with one pass `run parse llm_triage approve`, and it is still waiting for the router exactly when every answer given was "retry" |
| `StepTable.Drive` | src/graph/ui_executor/graph.py:34-51 | a whole run is `prepare` followed by the run from `run`, with the same status, and it is a walk of the graph whatever the router answers |
| `StepTable.DriveFromRunIsPath` | src/graph/ui_executor/graph.py:41-51 | the steps visited from `run` under any sequence of router answers form a walk that stops at `approve`, or at END once the router answers "end" |
| `StepTable.DriveFromRunStatus` | src/graph/ui_executor/graph.py:41-51 | a run finishes exactly when the first answer other than "retry" is "end"; it then has the stated shape with k equal to the number of leading "retry" answers; an unmapped answer stops it short |
| `StepTable.DriveShape` | src/graph/ui_executor/graph.py:19-51 | a whole run starts at `prepare` and follows the graph; it is a complete path exactly when it finishes, and then it has the stated shape |
| `StepTable.RunVisits` | src/graph/ui_executor/graph.py:36-51 | on a path with k retries, `run` is visited exactly k + 1 times |
| `UiExecutorGraph.Builder.constructor` | src/graph/ui_executor/graph.py:23 | a fresh builder has no nodes, no entry point, no edges and no branches |
| `UiExecutorGraph.Builder.AddNode` | src/graph/ui_executor/graph.py:26-31 | `add_node` appends the name to the registered nodes and changes nothing else |
| `UiExecutorGraph.Builder.SetEntryPoint` | src/graph/ui_executor/graph.py:34 | `set_entry_point` sets the entry point and changes nothing else |
| `UiExecutorGraph.Builder.AddEdge` | src/graph/ui_executor/graph.py:35-38 | `add_edge` adds the edge to the unconditional edges and changes nothing else |
| `UiExecutorGraph.Builder.AddConditionalEdges` | src/graph/ui_executor/graph.py:41-48 | `add_conditional_edges` sets the path map of the source node and changes nothing else |
| `UiExecutorGraph.BuildUiApp` | src/graph/ui_executor/graph.py:18-53 | the builder calls, made in the source's order, declare the step graph (`DeclaresStepTable`). The declared graph is well formed: six distinct names are registered in step order, the entry is `prepare`, and every edge joins registered nodes or END. `approve` has no unconditional edge, and its path map holds exactly the router's labels. Two names are linked exactly when the transition table relates their steps |
| `PyText.IsSpace` | src/agents/testcase_agent.py:42 | the whitespace class of `str.strip()` (Python's `str.isspace`): on ASCII it is tab, newline, vertical tab, form feed, carriage return, space and the separators U+001C..U+001F |
| `PyText.Strip` | src/agents/testcase_agent.py:42 | `str.strip()`: the text between its leading and trailing runs of whitespace; everything removed is whitespace, and the result neither starts nor ends with whitespace |
| `PyText.SkipFrom` | src/agents/testcase_agent.py:42 | the index reached by skipping characters of the class: everything skipped is in the class; the character stopped at is not |
| `PyText.SkipBackTo` | src/agents/testcase_agent.py:42 | the same from the right end, never crossing the left bound |
| `PyText.StripSlice` | src/agents/testcase_agent.py:42 | stripping leaves the slice of the text between its leading and trailing runs of the class; everything removed is in the class, and the result neither starts nor ends with a character of it |
| `PyText.StripIdempotent` | src/agents/testcase_agent.py:42 | stripping an already stripped text changes nothing |
| `PyText.StripKeepsTrimmed` | src/agents/testcase_agent.py:42 | a text that neither starts nor ends with a character of the class is its own strip |
| `PyText.Format` | src/agents/testcase_agent.py:47 | `str.format` with keyword fields: formatting succeeds exactly when every field the template names is given; otherwise it is a KeyError |
| `PyText.FormatPiece` | src/agents/testcase_agent.py:36 | a one-piece template renders as its text, or as its field's argument |
| `TestcaseAgent.FormatParts` | src/agents/testcase_agent.py:47 | the user template renders as `Requirement:\n"""`, then the requirement verbatim, then `"""` |
| `TestcaseAgent.BuildMessages` | src/agents/testcase_agent.py:43-49 | exactly two messages: the system prompt with role `system` first, then role `user` with content `Requirement:\n"""` + the text + `"""` |
| `TestcaseAgent.Nudge` | src/agents/testcase_agent.py:56-58 | the second parse's input: the model's reply whole, followed by the reminder text |
| `TestcaseAgent.FailureMessage` | src/agents/testcase_agent.py:64-66 | the RuntimeError message: the fixed lead, the raw-output path, then `.` and a new line and `Error: `, ending with the first parse error |
| `TestcaseAgent.CallsSnoc` | src/agents/testcase_agent.py:50-68 | appending one call to the log raises that kind's count by one and leaves the other kind's count alone |
| `TestcaseAgent.GenerateTestCases` | src/agents/testcase_agent.py:40-68 | one model call on the messages built from the stripped text; the first parse gets the reply unchanged; if it succeeds, rows are written from its result and no second parse happens; if it fails, the second parse gets the reply plus the reminder; if both fail, a RuntimeError names the raw-output path and carries the first error, and nothing is written; the model is called once and the parser at most twice; the CSV is written, last, exactly when a parse succeeded |

## Left out

- Graph compilation and the LangGraph runtime (`StateGraph`, `compile()`, the state type UIExecState): the builder calls are modelled by the topology they declare. Execution is modelled only by the idealised runs below, not by the library's scheduler, state merging or validation at compile time.
- `StepTable.DriveFromRun`/`StepTable.Drive`: a run visits one step at a time, and the router's answer list stands for its successive calls. A router answer that the path map does not hold becomes the status `Unmapped`, which stops the run short; in LangGraph such an answer makes the run fail with an error. The runtime's recursion limit, which makes a run with too many steps fail, is not modelled either: runs of any length are allowed.
- `UiExecutorGraph.Builder.AddNode`: appends any name; the library's `add_node` rejects a name that is already registered, which `build_ui_app` never does (`BuildUiApp` proves its names distinct).
- `UiExecutorGraph.Builder.AddConditionalEdges`: a second branch on the same source replaces the first path map instead of adding a second branch; `build_ui_app` declares one branch only.
- Node bodies in `src/graph/ui_executor/nodes.py` (prepare_config, execute_tests, parse_results, llm_triage, approval_checkpoint, retry_once, decide_after_approval): nodes.py is not part of this model. The router is abstracted as the sequence of labels it returns, so no retry budget, attempt counter or approval policy is claimed.
- The model call `chat`, the JSON parser `parse_json_safely`, `to_rows` and `pick_requirement` are foreign calls. The first three are opaque function parameters, a parser failure being an error message. `pick_requirement` is replaced by the requirement file's text. Exceptions raised by `chat`, `to_rows` or `pick_requirement` themselves are not modelled.
- File system and console I/O: the output directory created at import (line 12), the read of the requirement file (line 42), the save of the raw reply to `last_raw.json`, the body of `write_csv` (kept only as a logged call), and the two report lines (lines 69-70).
- The directory constants built from the file's location (lines 9-14): the raw-output path is a parameter.
- `PyText.Format`: the user template is held as its parsed pieces (text, field, text); the parsing of `{...}` in a template string, escaped braces and format specifications are not modelled.
- Python exception chaining: the RuntimeError's implicit `__context__` (the second parse error) is not modelled; only its message is.
