# agent-x-LLM pipeline engine, modelled in Dafny

agent-x-LLM turns a one-line project idea into a plan, code, tests,
documentation, a Dockerfile and a GitHub push. Each step is an LLM-backed
agent. This project models the deterministic engine around those agents and
proves what it guarantees:

- the context store that every stage writes into (`ContextTracker`);
- the retry decorator and the LLM gateway it wraps (`query_llm`);
- the planner's answer parser and its fallback plan;
- the orchestrator's plan gate, stage order and final save;
- session persistence (`MemoryManager`);
- the cost estimator and the token ledger;
- the code-text helpers;
- the folder-name sanitiser and the test agent's path derivation;
- the flattening of the context into vector-store chunks.

The agents, the HTTP exchanges and the vector database are parameters of the
model. Each agent either returns a value or raises (`Outcome`). Each HTTP
exchange either raises or yields a status, a text and an optional JSON body
(`HttpExchange`).

Modules:

- `common.dfy`: the Python string operations the core uses.
- `pyvalue.dfy`: Python values, with dicts kept in insertion order.
- `http.dfy`: the HTTP exchange datatype.
- `context_tracker.dfy`
- `retry_handler.dfy`
- `token_tracker.dfy`
- `llm_adapter.dfy`
- `planner_agent.dfy`
- `memory_manager.dfy`
- `cost_estimator.dfy`
- `context_flattening.dfy`
- `file_formatter.dfy`
- `folder_name.dfy`
- `test_agent.dfy`
- `chain_orchestrator.dfy`

Code that updates state in place is modelled as a class or a method with
loop invariants. Each such member is proved against a pure function that
specifies it: for example, `OrchestrateProject` is proved equal to
`Orchestrate`, and `ExtractTasks` to `TaskList`. The properties are then
lemmas about those functions.

Behaviour of the code worth stating explicitly:

- The plan gate only asks for a dict with a `"tasks"` key, so an empty task
  list passes (`EmptyTaskListPasses`).
- A rejected plan or a failing stage saves nothing.
- The cost estimate ignores the plan.
- `used_model` records the requested model even after the planner re-sent the
  request with another one.

A mismatch between two parts of the system, which is not a defect of either
function on its own: the test agent looks for code in
`./generated/<idea stripped, lower-cased, spaces to _>/main.py`, while
`src/main.py` creates `generated/<get_folder_name(idea)>`. These two names
differ whenever the idea holds punctuation (`TestPaths.PunctuationSplitsNames`).

## Model

| member | source | states |
|---|---|---|
| ContextTracking.ContextTracker.constructor | src/core/context_tracker.py:8-14 | a new tracker has no goal, no tasks, no history and no variables |
| ContextTracking.ContextTracker.SetGoal | src/core/context_tracker.py:16-19 | the goal is set; exactly one record ("Goal set", goal) is appended; tasks and variables are unchanged |
| ContextTracking.ContextTracker.LoadContext | src/core/context_tracker.py:21-26 | all four fields are replaced; missing keys default to None/[]/[]/{}; no history record is added |
| ContextTracking.ContextTracker.AddTask | src/core/context_tracker.py:28-31 | the task goes to the end of the list; exactly one "Task added" record is appended; goal and variables are unchanged |
| ContextTracking.ContextTracker.CompleteTask | src/core/context_tracker.py:33-37 | a present task loses only its first occurrence, the other tasks keep their order, and one "Task completed" record is appended; an absent task leaves tasks and history unchanged |
| ContextTracking.RemoveFirstDeletesFirstOccurrence | src/core/context_tracker.py:36 | `list.remove` deletes exactly the first occurrence, keeping order, so the multiset loses one copy |
| ContextTracking.ContextTracker.UpdateVariable | src/core/context_tracker.py:39-42 | the key maps to the value and every other key keeps its value; one "Variable updated" record with "k = v" is appended, also on overwrite |
| ContextTracking.ContextTracker.GetVariable | src/core/context_tracker.py:44-46 | returns the stored value, or None when the key is absent |
| ContextTracking.ContextTracker.GetContext | src/core/context_tracker.py:48-50 | returns the current four fields |
| ContextTracking.ContextTracker.LogEvent | src/core/context_tracker.py:52-57 | one record is appended and earlier records are untouched; nothing else changes |
| ContextTracking.ContextTracker.Reset | src/core/context_tracker.py:59-61 | the tracker is back in its initial state |
| ContextTracking.ContextState.ToValue | src/core/context_tracker.py:9-14 | the context dictionary has exactly the keys current_goal, task_list, history and variables, in that order |
| PyValue.PutGet | src/core/context_tracker.py:41 | after `d[k] = v`, `d.get(k)` is `v` |
| PyValue.PutGetOther | src/core/context_tracker.py:41 | `d[k] = v` leaves every other key's value unchanged |
| PyValue.PutKeys | src/core/context_tracker.py:41 | an overwritten key keeps its position; a new key goes last |
| PyValue.PutDistinct | src/core/context_tracker.py:41 | `d[k] = v` never duplicates a key |
| RetryHandler.Retry | src/core/retry_handler.py:30-44 | a success or a non-allowed exception on the attempt after the leading allowed failures is passed on; otherwise the generic exception naming the function and the configured count is raised after `retries` calls; a sleep follows every allowed failure; `retries <= 0` means no call and the generic exception at once |
| RetryHandler.FirstStop | src/core/retry_handler.py:33-36 | the number of leading allowed failures within the budget; the attempt after them, if inside the budget, is not an allowed failure |
| RetryHandler.FirstStopUnique | src/core/retry_handler.py:33-36 | those properties determine the stopping attempt |
| RetryHandler.DelaysAreGeometric | src/core/retry_handler.py:40-41 | the sleeps are delay, delay·backoff, delay·backoff², … in order |
| RetryHandler.SuccessAfterFailures | src/core/retry_handler.py:31-41 | success on attempt k within the budget, after k−1 allowed failures, comes after exactly k−1 sleeps |
| RetryHandler.AlwaysFailingExhaustsBudget | src/core/retry_handler.py:33-44 | a call that always raises an allowed exception is slept after `retries` times, including after the last attempt |
| RetryHandler.NonRetryableFirstAttempt | src/core/retry_handler.py:36 | a non-allowed exception on the first attempt passes through with no sleep |
| Http.HttpExchange.Json | src/core/llm_adapter.py:55 | `response.json()` returns exactly when the body parses, and otherwise raises a RequestException |
| LlmAdapter.QueryOnce | src/core/llm_adapter.py:26-72 | an attempt raises a RequestException iff the prompt and key are valid and the exchange failed in transport; tokens are logged only after a 200 response with a JSON body; a returned answer is non-empty |
| LlmAdapter.Parsed | src/core/llm_adapter.py:55-72 | after a JSON body, no RequestException is raised; an answer is returned only after its usage was logged |
| LlmAdapter.Extracted | src/core/llm_adapter.py:62-72 | missing or empty choices or content raise a non-retryable error; the answer is truthy |
| LlmAdapter.RetriedIffRequestException | src/core/llm_adapter.py:20-25 | under the gateway's policy an exception is retried exactly when it is a RequestException |
| LlmAdapter.RetriedIffTransportFailure | src/core/llm_adapter.py:49-55 | with a valid prompt and key, an attempt is retried exactly when the exchange raised, was not 200, or its body was not JSON |
| LlmAdapter.RetriedAttemptLogsNothing | src/core/llm_adapter.py:51-59 | a retried attempt never reaches the token ledger |
| LlmAdapter.RetriedAttemptsLogNothing | src/core/llm_adapter.py:51-59 | no attempt before the one that stops the retry loop logged tokens |
| LlmAdapter.QueryLlm | src/core/llm_adapter.py:20-72 | the decorated call: sleeps 2, 4, … after each retried attempt; returns the stopping attempt's outcome or the generic exception after 3 attempts; between 1 and 3 attempts are made; the ledger gains only the stopping attempt's entry, and its total stays the sum of its history |
| LlmAdapter.BlankPromptFailsFast | src/core/llm_adapter.py:28-29 | a blank prompt raises ValueError on the first attempt and is not retried |
| LlmAdapter.MissingKeyFailsFast | src/core/llm_adapter.py:31-32 | a missing or empty key raises KeyError on the first attempt and is not retried |
| LlmAdapter.LlmSchedule | src/core/llm_adapter.py:20-25 | the gateway's sleeps are 2, 4 and 8 seconds |
| LlmAdapter.PersistentOutageExhaustsRetries | src/core/llm_adapter.py:51-53 | three transport failures use the whole budget |
| LlmAdapter.RecoversAfterOneFailure | src/core/llm_adapter.py:51-55 | one transport failure and then a 200 JSON response: two attempts and one 2-second sleep |
| LlmAdapter.UsageLogged | src/core/llm_adapter.py:57-60 | a parsed body whose usage reports t tokens has t logged before the content is extracted |
| LlmAdapter.UsageBlockReports | src/core/llm_adapter.py:57-58 | a body with usage {total_tokens: t} reports t tokens |
| LlmAdapter.NoUsageReportsZero | src/core/llm_adapter.py:57-58 | a body without usage reports 0 tokens |
| LlmAdapter.MalformedBodyStillLogged | src/core/llm_adapter.py:57-65 | a 200 body reporting t tokens with no choices logs t tokens, then raises a ValueError that is not retried |
| LlmAdapter.MalformedBodyWithoutUsage | src/core/llm_adapter.py:57-65 | the same body without usage logs 0 tokens and raises the ValueError |
| LlmAdapter.AnswerIsFirstContent | src/core/llm_adapter.py:57-72 | a 200 body reporting t tokens yields exactly the first choice's message content, with t logged |
| LlmAdapter.TypicalAnswer | src/core/llm_adapter.py:57-72 | the usual answer with usage {total_tokens: t} returns the first content and logs t |
| TokenTracking.TokenTracker.constructor | src/utils/token_tracker.py:7-10 | a new ledger has total 0 and an empty history |
| TokenTracking.TokenTracker.LogUsage | src/utils/token_tracker.py:12-24 | the total grows by exactly `tokens`; one entry with that model and token count is appended; the total stays the sum of the history |
| TokenTracking.TokenTracker.GetSummary | src/utils/token_tracker.py:27-32 | reports the current total and history, and the total is the history's sum |
| TokenTracking.TokenTracker.Reset | src/utils/token_tracker.py:34-37 | back to total 0 and an empty history |
| TokenTracking.TokensSumAppend | src/utils/token_tracker.py:15-24 | appending an entry adds its tokens to the history's sum |
| TokenTracking.TokensSumConcat | src/utils/token_tracker.py:15-24 | the sum over two histories in turn is the sum of their sums |
| PlannerAgent.MatchTaskLine | src/agents/planner_agent.py:105-107 | a matched task is stripped |
| PlannerAgent.BulletLineMatches | src/agents/planner_agent.py:105-107 | blanks, `-` or `*`, at least one blank and a task match, giving the stripped task |
| PlannerAgent.NumberedLineMatches | src/agents/planner_agent.py:105-107 | blanks, digits and a dot, at least one blank and a task match, giving the stripped task |
| PlannerAgent.ProseLineDoesNotMatch | src/agents/planner_agent.py:105-106 | a line whose first non-blank character is not `-`, `*` or a digit does not match |
| PlannerAgent.MarkerWithoutBlankDoesNotMatch | src/agents/planner_agent.py:105-106 | a marker (`-`, `*` or digits and a dot) not followed by a blank, such as `-x`, `1.x` or `**bold**`, never matches |
| PlannerAgent.BoldHeadingDoesNotMatch | src/agents/planner_agent.py:105-106 | the heading "**Phase 1**" is not a task line |
| PlannerAgent.MatchedLineShape | src/agents/planner_agent.py:105-107 | conversely, every matching line is blanks, a marker, at least one blank and a task, and its match is that task stripped |
| PlannerAgent.CollectStep | src/agents/planner_agent.py:104-108 | each line adds its task, if it matched, at the end of the list |
| PlannerAgent.CollectCount | src/agents/planner_agent.py:104-108 | there are never more tasks than lines |
| PlannerAgent.ParsedSnoc | src/agents/planner_agent.py:104-108 | one more line appends its match, if any, after the tasks of the earlier lines |
| PlannerAgent.ParsedAllMatch | src/agents/planner_agent.py:104-108 | when every line matches, the tasks are exactly the matches, in line order |
| PlannerAgent.ParsedThree | src/agents/planner_agent.py:104-108 | three matching lines give their three tasks in line order |
| PlannerAgent.TaskList | src/agents/planner_agent.py:102-112 | the task list is never empty |
| PlannerAgent.CollectTasks | src/agents/planner_agent.py:104-108 | the loop collects exactly the matched lines' tasks, stripped, in line order |
| PlannerAgent.ExtractTasks | src/agents/planner_agent.py:102-112 | the parsing loop builds the matched tasks in line order, or `[raw.strip()]` when no line matched |
| PlannerAgent.TaskListStripped | src/agents/planner_agent.py:103-112 | every task is stripped |
| PlannerAgent.NumberedAnswerExample | src/agents/planner_agent.py:102-112 | the answer "1. Do A" gives the tasks ["Do A"] |
| PlannerAgent.MixedAnswerExample | src/agents/planner_agent.py:102-112 | the answer "1. Do A\n2. Do B\n- Do C" gives the tasks ["Do A", "Do B", "Do C"], in that order |
| PlannerAgent.ProseAnswerExample | src/agents/planner_agent.py:110-112 | the answer "just prose" gives the single task "just prose" |
| PlannerAgent.FallbackPlanOn | src/agents/planner_agent.py:23-40 | the tracker gains "structured_plan" and a "Fallback plan used" event; the result is the five-task plan for the goal |
| PlannerAgent.FallbackRunRecorded | src/agents/planner_agent.py:23-40 | the fallback plan is a structured plan for the goal, recorded as "structured_plan", and the history ends with "Fallback plan used" |
| PlannerAgent.PlanValueStructured | src/agents/planner_agent.py:114-117 | a plan built from a non-empty task list has exactly the keys goal and tasks, the user's goal, and string tasks |
| PlannerAgent.TasksRunRecorded | src/agents/planner_agent.py:114-123 | a parsed plan is recorded as "structured_plan", and the history ends with "Plan generated" |
| PlannerAgent.GeneratePlan | src/agents/planner_agent.py:43-127 | `generate_plan` on the planner's tracker leaves the plan and the state that the response-shape cases determine |
| PlannerAgent.PlanAlwaysStructured | src/agents/planner_agent.py:43-127 | whatever the network does, the result is a structured plan for the goal; it is recorded and the earlier history is kept |
| PlannerAgent.DeprecationAnswerTwiceFallsBack | src/agents/planner_agent.py:76-83 | the request is re-sent at most once; a second 400 leads to the fallback plan |
| PlannerAgent.UsedModelIsRequestedModel | src/agents/planner_agent.py:76-79 | after a re-sent request succeeds, "used_model" still names the model first asked for (line 119) |
| ChainOrchestrator.GateIsStructure | src/core/chain_orchestrator.py:43-44 | a plan passes the gate iff it is a dict holding "tasks" |
| ChainOrchestrator.EmptyTaskListPasses | src/core/chain_orchestrator.py:43-44 | `{"tasks": []}` passes the gate |
| ChainOrchestrator.PlannerPlanPassesGate | src/core/chain_orchestrator.py:52-53 | every plan `generate_plan` returns passes the gate |
| ChainOrchestrator.RejectedPlanChangesNothing | src/core/chain_orchestrator.py:53-55 | a rejected plan ends the run with the context and the session files unchanged and nothing stored |
| ChainOrchestrator.OrchestrateProject | src/core/chain_orchestrator.py:47-118 | the run on the module-level tracker and memory produces exactly the context, files, stored chunks and ending of `Orchestrate` |
| ChainOrchestrator.RunAnalyses | src/core/chain_orchestrator.py:77-95 | stages 5 to 8 on the tracker agree with `Analyses` |
| ChainOrchestrator.RunDelivery | src/core/chain_orchestrator.py:97-118 | stages 9 to 11, the vector store and the save on the tracker and memory agree with `Delivery` |
| ChainOrchestrator.OpeningLog | src/core/chain_orchestrator.py:56-75 | stages 1 to 4 log their events in order, the cost estimate's variable update second; a raising code writer stops the log after that update |
| ChainOrchestrator.AnalysesLog | src/core/chain_orchestrator.py:77-95 | stages 5 to 8 log a prefix of their four events, all four exactly when none raised; variables are unchanged |
| ChainOrchestrator.PushLog | src/core/chain_orchestrator.py:108-111 | the GitHub stage logs the variable update, then the push |
| ChainOrchestrator.DeliveryLog | src/core/chain_orchestrator.py:97-115 | stages 9 to 11 log a prefix of their events, all of them exactly when the chunks reach the vector store |
| ChainOrchestrator.DeliverySaves | src/core/chain_orchestrator.py:113-118 | a file is written only when the run completes, and then the stored chunks are the final context's |
| ChainOrchestrator.AfterDebuggingLog | src/core/chain_orchestrator.py:77-115 | stages 5 to 11 log a prefix of their eight events, all of them exactly when the chunks were stored |
| ChainOrchestrator.AfterDebuggingSaves | src/core/chain_orchestrator.py:77-118 | stages 5 to 11 write a file only on completion |
| ChainOrchestrator.StagesLog | src/core/chain_orchestrator.py:56-115 | past the gate, a run logs at least the planning events and a prefix of the stage events |
| ChainOrchestrator.RunLogsStagesInOrder | src/core/chain_orchestrator.py:50-118 | every run logs the first k stage events in stage order: k = 0 iff the plan was rejected, and all of them iff the chunks were stored |
| ChainOrchestrator.CostEstimateRecorded | src/core/chain_orchestrator.py:60-62 | every run past the gate stores the 52-week, 8-person, 539500 USD estimate as "project_cost_estimate" |
| ChainOrchestrator.DeliveryKeepsVariables | src/core/chain_orchestrator.py:97-115 | stages 9 to 11 change no variable but "github_repo" |
| ChainOrchestrator.GithubRepoIsPushResult | src/core/chain_orchestrator.py:108-111 | "github_repo" holds what the GitHub stage returned for the debugged code, docs and Dockerfile, and the push is logged with that value |
| ChainOrchestrator.SavedOnlyOnCompletion | src/core/chain_orchestrator.py:53-118 | the session file is written iff the run completes; then the stored chunks are the final context's, and loading the session gives back that context |
| ChainOrchestrator.LaterStagesSeeDebuggedCode | src/core/chain_orchestrator.py:74-109 | two runs whose debugger outputs agree end identically, whatever the generated code was |
| ChainOrchestrator.AfterDebuggingIgnoresWriter | src/core/chain_orchestrator.py:74-109 | stages 5 to 11 do not depend on the code writer or the debugger |
| ChainOrchestrator.FullRunCompletes | src/core/chain_orchestrator.py:47-118 | with stages that never raise, a plan that passes the gate completes the run, and the saved session loads back as the final context |
| ChainOrchestrator.AfterDebuggingCompletes | src/core/chain_orchestrator.py:77-118 | with stages that never raise, stages 5 to 11 complete |
| ChainOrchestrator.AsWrittenNeverCompletes | src/core/chain_orchestrator.py:84 | as written, no run completes or saves; a run that passes unit tests stops with NameError for run_integration_tests |
| MemoryManagement.PosixJoin | src/core/memory_manager.py:23 | `os.path.join`: an absolute name replaces the directory; otherwise one `/` separates them |
| MemoryManagement.SessionPathInjective | src/core/memory_manager.py:23 | with a relative save directory, distinct session ids name distinct files |
| MemoryManagement.MemoryManager.constructor | src/core/memory_manager.py:9-15 | the manager keeps its directory and whatever files it already held |
| MemoryManagement.MemoryManager.SaveContext | src/core/memory_manager.py:17-26 | the session's file is overwritten with the context's snapshot; no other file changes; the context is not modified |
| MemoryManagement.MemoryManager.LoadContext | src/core/memory_manager.py:28-45 | a fresh tracker holding the saved fields, or an empty tracker when no file exists |
| MemoryManagement.SaveLoadRoundTrip | src/core/memory_manager.py:17-45 | save, then load of the same session, gives back the four fields |
| MemoryManagement.MissingSessionLoadsEmpty | src/core/memory_manager.py:42-45 | a session nobody saved loads as an empty tracker |
| MemoryManagement.SaveKeepsOtherSessions | src/core/memory_manager.py:23-25 | saving one session leaves what every other session loads unchanged |
| MemoryManagement.DefaultSessionPath | src/core/memory_manager.py:9-17 | the default session lives at "memory/latest.json" |
| CostEstimator.Truncate | src/utils/cost_estimator.py:56 | `int(x)` truncates toward zero |
| CostEstimator.RatesAligned | src/utils/cost_estimator.py:24-39 | the salary table lists the roles of the headcount table in the same order |
| CostEstimator.RolesHaveRates | src/utils/cost_estimator.py:48-50 | every role has a salary rate, so the lookup never raises |
| CostEstimator.WeeksTotal | src/utils/cost_estimator.py:15-22 | the phases add up to 52 weeks |
| CostEstimator.HeadcountTotal | src/utils/cost_estimator.py:24-30 | the roles add up to 8 people |
| CostEstimator.CostSumAligned | src/utils/cost_estimator.py:48-50 | with aligned tables, looking up each rate by name gives the side-by-side sum |
| CostEstimator.CostTotal | src/utils/cost_estimator.py:33-50 | the team costs 41500 USD a month |
| CostEstimator.FixedEstimate | src/utils/cost_estimator.py:45-57 | the tables give 52 weeks, 8 people and 539500 USD |
| CostEstimator.SumWeeks | src/utils/cost_estimator.py:45-46 | the weeks loop adds up every phase's weeks |
| CostEstimator.CostTeam | src/utils/cost_estimator.py:48-51 | the role loop adds up the headcount and, for every role, its rate times its count times the months |
| CostEstimator.EstimateCost | src/utils/cost_estimator.py:3-57 | the two loops yield the table estimate, 52 weeks, 8 people and 539500 USD, for every plan |
| FileFormatter.CleanCodeOutput | src/codegen/file_formatter.py:4-17 | the cleaned code is stripped |
| FileFormatter.MarginStepIsCommonPrefix | src/codegen/file_formatter.py:16 | each step of dedent's margin loop is the longest common prefix of two indents |
| FileFormatter.MarginExists | src/codegen/file_formatter.py:16 | dedent finds a margin iff some line holds text |
| FileFormatter.MarginIsCommonIndent | src/codegen/file_formatter.py:16 | the margin is a prefix of the indent of every line that holds text |
| FileFormatter.CommonPrefixGreatest | src/codegen/file_formatter.py:16 | a common prefix of two indents is a prefix of their longest common prefix |
| FileFormatter.MarginIsLongest | src/codegen/file_formatter.py:16 | every string that prefixes the indent of each line holding text also prefixes the margin |
| FileFormatter.DedentKeepsLines | src/codegen/file_formatter.py:16 | dedent keeps the number of lines, empties blank lines, and removes the same margin from every other line |
| FileFormatter.DedentWidthIsLongest | src/codegen/file_formatter.py:16 | dedent removes the longest common indent: no common prefix of the text lines' indents is longer than the width removed |
| FileFormatter.DedentWithoutMargin | src/codegen/file_formatter.py:16 | when some line with text has no indent, dedent only empties the blank lines |
| FileFormatter.WrapLines | src/codegen/file_formatter.py:27-31 | a wrapped block's lines are the opening fence with the tag, the stripped code's lines, and the closing fence |
| FileFormatter.CleanWrapRoundTrip | src/codegen/file_formatter.py:4-31 | cleaning a block wrapped with the "python" tag, or with none, gives what cleaning the bare code gives |
| FileFormatter.FindWrappedBlock | src/codegen/file_formatter.py:24 | a wrapped, fence-free snippet at the head of a text is the first block found |
| FileFormatter.ExtractWrapped | src/codegen/file_formatter.py:19-25 | extraction from consecutive "python" blocks gives every snippet back, cleaned, in order |
| FileFormatter.NoFenceNoBlocks | src/codegen/file_formatter.py:24 | a text without a fence has no block |
| FileFormatter.TruncateKeepsFirstLines | src/codegen/file_formatter.py:37-39 | long code becomes its first max_lines lines plus a "..." line, max_lines + 1 lines in all |
| FileFormatter.TruncatedLines | src/codegen/file_formatter.py:37-39 | long code keeps the first lines of the stripped code (Python slice bounds) followed by "..." |
| FileFormatter.TruncateShortCode | src/codegen/file_formatter.py:37-40 | short enough code comes back unchanged and unstripped |
| FolderName.FolderNameIsJoinedWords | src/main.py:5-10 | the folder name is the lower-cased input's maximal runs of `[a-z0-9]`, joined by single underscores |
| FolderName.FolderNameShape | src/main.py:7-10 | the name holds only `[a-z0-9_]`, never two underscores in a row, and no leading or trailing underscore |
| FolderName.FolderNameKeepsAlnums | src/main.py:7-9 | the input's letters and digits survive, lower-cased and in order |
| FolderName.FolderNameEmpty | src/main.py:8-10 | an input without letters or digits gives the empty name |
| FolderName.ReplaceRunsShape | src/main.py:8 | the substitution turns each maximal run of other characters into one underscore |
| FolderName.WordsKeepAlnums | src/main.py:8 | the runs hold every letter and digit of the text, in order |
| FolderName.NoWords | src/main.py:8-10 | there are no runs iff the text has no letter or digit |
| FolderName.WordsOfStripped | src/main.py:7 | stripping blanks does not change the runs |
| TestPaths.GenerateTestsFor | src/agents/test_agent.py:54-62 | a missing path gives the not-found message; an existing one is handed to the test generator |
| TestPaths.SafePathShape | src/agents/test_agent.py:56 | the name keeps the stripped idea's length, has no space, lower-cases capitals, turns spaces into `_`, and keeps all other characters |
| TestPaths.SafePathEnds | src/agents/test_agent.py:56 | neither end of the name is blank |
| TestPaths.SafePathIdempotent | src/agents/test_agent.py:56 | deriving the name twice gives the same name |
| TestPaths.TestFilePathParts | src/agents/test_agent.py:57 | the path is "./generated/" + name + "/main.py", and the name can be read back from it |
| TestPaths.TestFilePathInjective | src/agents/test_agent.py:57 | two ideas share a path iff they share a name |
| TestPaths.NotFoundMessage | src/agents/test_agent.py:59-60 | the not-found message starts with the failure marker and ends with the path |
| TestPaths.PunctuationSplitsNames | src/agents/test_agent.py:56 | an idea holding punctuation gets a name other than the folder `get_folder_name` creates for it |
| ContextFlattening.StoreContextVector | src/vector_store/weaviate_adapter.py:60-72 | the flattening loop builds exactly the chunks of every entry, in key order |
| ContextFlattening.AppendValueChunks | src/vector_store/weaviate_adapter.py:65-72 | the loop body yields one chunk for a scalar, one per element for a list or dict, and none for None |
| ContextFlattening.FlattenCount | src/vector_store/weaviate_adapter.py:64-72 | each entry contributes exactly its chunk count |
| ContextFlattening.ListChunks | src/vector_store/weaviate_adapter.py:67-69 | a list at key k gives "k[i]: item" at position i, i from 0 |
| ContextFlattening.DictChunks | src/vector_store/weaviate_adapter.py:70-72 | a dict at key k gives "k.sub: val" per entry, in order |
| ContextFlattening.FlattenSources | src/vector_store/weaviate_adapter.py:64-72 | every chunk has source "context" |
| ContextFlattening.FlattenConcat | src/vector_store/weaviate_adapter.py:64 | chunks follow key order: those of the first entries come first |
| ContextFlattening.ContextChunks | src/vector_store/weaviate_adapter.py:64-72 | a context without a goal gives the task chunks, then the history chunks, then the variable chunks |

## Left out

- HTTP: requests and responses are parameters (`HttpExchange`, one per attempt). The endpoint, headers, payload and prompts are not modelled.
- Time: `time.sleep` is recorded as the sequence of delays. Timers, timestamps and console or log output are not modelled.
- File I/O: JSON files are modelled as a map from path to saved dictionary, and `json.dump` then `json.load` is taken to give back the same dictionary. The timestamped snapshot file that `orchestrate_project` writes to `outputs/` (src/core/chain_orchestrator.py:119-121) is not modelled.
- The agents and the vector database are parameters. This covers `generate_plan` inside the orchestrator (the concrete planner is modelled separately and linked by `PlannerPlanPassesGate`), the code writer, debugger, test, security, performance, docs, Docker and GitHub agents, and `WeaviateAdapter.add_documents`.
- `generate_tests` itself is a parameter of `TestPaths.GenerateTestsFor`; only the path derivation is modelled.
- The token ledger's dollar cost, `round(..., 4)` and timestamps are not modelled. The gateway's `cost_per_1k_tokens` is therefore unused.
- The cost estimator's float arithmetic is modelled with exact reals; every value involved is exact in binary floating point.
- Python floats are absent from `PyValue.Value`. The flattening's `float` branch is unreachable for the contexts modelled here.
- `str()` and `repr()` of values do not escape quotes inside strings.
- `str.lower` is modelled on ASCII letters only, and `\d` on ASCII digits only. Python's own `strip` whitespace set is modelled.
- `textwrap.dedent` is modelled for spaces and tabs as the standard library treats them: blank lines are emptied and the longest common leading whitespace is removed.
- A token count that is not an int makes the gateway raise `TypeError` before logging. `response.json()` failing is modelled as a `RequestException`, which is how `requests` reports it.
- `LlmAdapter.QueryLlm`: the API key is a parameter instead of an environment read.
- `LlmAdapter.Parsed`: a boolean `total_tokens` is logged as the int 1 or 0, while the source's ledger entry holds the bool itself as `tokens_used`. The running total is the same.
- The planner's catch-all handler (src/agents/planner_agent.py:125-127) is modelled through its effect: every response shape that raises on the way to the answer leads to the fallback plan.
- `MemoryManagement.SessionPathInjective`: proved for a relative save directory only (the default "memory" is one). With an absolute directory, a session id starting with `/` can name another session's file.

## Findings

| source | as written | input that shows it | evidently intended | confidence | as-written member | corrected member |
|---|---|---|---|---|---|---|
| src/core/chain_orchestrator.py:84 | `run_integration_tests` (line 84) and `push_to_github` (line 109) are called but never imported or defined (lines 13-32), so reaching stage 6 raises `NameError` | any prompt whose plan passes the gate and whose code, debugging and unit-test stages return | stage 6 and stage 11 call integration-test and GitHub agents, and a run whose stages all succeed saves its context | not executed | ChainOrchestrator.AsWrittenNeverCompletes | ChainOrchestrator.FullRunCompletes |
