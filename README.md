# Fabric Data Agent client front ends — a Dafny model

This project models the session and response-handling core of the three
front ends of the Fabric Data Agent client: the interactive terminal client
(`InteractiveFabricClient`), the Streamlit web chat, and the example script.
The data-agent client itself (`FabricDataAgentClient`) is not part of this
model: it is an opaque capability whose construction, simple ask and
detailed run either yield a value or fail with a message. These outcomes are
parameters of the operations that use them.

Modules, one per concern:

- `Common` — `Option`, `Fallible` (a value or an exception message),
  `Outcome` (client construction), the `Client` handle, and `FirstWhere`, the
  first-match search that every `for ...: if ...: ...; break` loop performs.
- `Text` — the Python string operations the front ends use: `isspace`,
  `strip()` emptiness, `split()`, `' '.join`, `lower()`, `split('\n')` and the
  `s[:n] + "..."` display truncation, with their round trips.
- `Payload` — the run-details payload as an explicit schema; every field may be absent.
- `Previews` — classifying a preview block as a markdown table or as rows,
  and finding the first non-empty block (a loop proved against a function).
- `Repl` — the terminal client: the closed `Command` type and command table,
  `parse_command`, the dispatch loop, and the `InteractiveClient` class with
  its `client`, `connected` and in-place `history`. Also the
  detailed-analysis preview, history view, statistics and exit summary.
- `WebChat` — the web chat: the answer-extraction scan (a loop proved against
  a function), the `ChatSession` class with its session-state bag
  (`client`, `authenticated`, `chat_history`, `current_question`), the
  Connect, Reconnect, Clear Chat and Ask actions, the sidebar statistics and
  configuration display, and the newest-first history view.
- `Script` — the example script: the placeholder check, the report of a
  detailed run, the last-assistant reply, the preview chosen by index, and
  the fallback loop with its `preview_shown` flag.
- `Agreement` — where the web chat's answer and the script's reply agree, and where they differ.

Behaviours of the code that the model keeps, although a reader might expect
otherwise:

- The web chat's answer scan does not stop at the first assistant message.
  It passes over assistant messages with no content, or whose first content
  item is not a dict with a `text` key. It stops at the first one that has
  such an item, even when that `text` has no `value` (`WebChat.ScanSkips`,
  `WebChat.NoValueStillStops`).
- The terminal client drops a failed query: nothing is appended to history.
  Only the web chat records failures, as error entries.
- The connection is a flag, not a four-state machine. After a failed
  construction, the terminal client is disconnected but keeps its previous
  client object. The web chat changes nothing on failure.
- The web chat's "Successful" count treats an error entry with an empty
  message as successful (`not chat.get('error')`).

## Model

| member | source | states |
|---|---|---|
| Repl.CommandFor | interactive_example_usage.py:33-45 | exactly the eleven keys are known; `exit` and `quit` (and only they) map to the exit handler |
| Repl.CommandTableComplete | interactive_example_usage.py:33-45 | every command's key maps back to that command |
| Repl.ParseCommand | interactive_example_usage.py:433-442 | blank input gives `(None, [])`; otherwise the command is the lower-cased first `split()` token and the args are the remaining tokens in order |
| Repl.ParseCommandOfJoin | interactive_example_usage.py:433-442 | parsing a command word joined with argument tokens gives back the lower-cased word and exactly those arguments |
| Repl.Interpret | interactive_example_usage.py:466-475 | a blank line is skipped; a non-blank line invokes a handler exactly when its parsed command is a key, and then the mapped handler with the parsed args; otherwise that parsed name is reported unknown |
| Repl.InterpretOfJoin | interactive_example_usage.py:469-472 | a line built from a command word and tokens invokes the command its lower-cased word names |
| Repl.ExitAliases | interactive_example_usage.py:43-44 | any line, however spaced, whose first token lower-cases to `exit` or `quit` invokes the exit handler with the remaining tokens |
| Repl.ExitAnyCase | interactive_example_usage.py:43-44 | every upper-, lower- or mixed-case spelling of `exit` or `quit` lower-cases to a key of the exit handler |
| Repl.ParsedArgsQuestionNotBlank | interactive_example_usage.py:127-134 | a question joined from parsed arguments is never blank, so only a typed question can be rejected |
| Repl.KindsPartition | interactive_example_usage.py:302-304 | simple count plus detailed count equals the number of entries |
| Repl.SessionStats | interactive_example_usage.py:302-313 | total = simple + detailed; the average exists exactly when history is non-empty and times the count gives the total time |
| Repl.ShowEntry | interactive_example_usage.py:263-279 | numbering, 'Simple'/'Detailed' title, question cut to 50 and answer to 100 characters plus "...", the response time, and the SQL count `len(sql_queries)` only when `sql_queries` is present |
| Repl.ShowHistory | interactive_example_usage.py:254-280 | one line per entry, in insertion order, numbered from 1 |
| Repl.ExitSummary | interactive_example_usage.py:423-431 | the query count is reported exactly when history is non-empty |
| Repl.ShowPreview | interactive_example_usage.py:214-230 | a table shows the non-blank lines among its first 10 split lines, in order, and notes `len(lines)-10`; rows show at most 5, numbered 1..5, and note `len-5` |
| Repl.SixRowsExample | interactive_example_usage.py:226-229 | six rows show five and note one more |
| Repl.Analyse | interactive_example_usage.py:193-236 | the "Detailed Analysis Results" report: the status and step count only when their keys are present (a missing `data` counts no steps), the main query only when it is non-empty, the preview given, and every generated query in order |
| Repl.FirstPreview | interactive_example_usage.py:209-231 | only the first non-empty preview block is displayed, none when all are empty |
| Repl.InteractiveClient.constructor | interactive_example_usage.py:29-32 | starts with no client, disconnected, empty history |
| Repl.InteractiveClient.ConnectClient | interactive_example_usage.py:99-119 | empty tenant or URL leaves client and flag untouched; success connects with the new client; a failure disconnects and keeps the old client |
| Repl.InteractiveClient.AskQuestion | interactive_example_usage.py:121-163 | not connected or blank question: history unchanged; a reply appends exactly one 'simple' entry with the question; a failure appends nothing and is reported |
| Repl.InteractiveClient.DetailedAnalysis | interactive_example_usage.py:165-252 | same guards; a result appends exactly one 'detailed' entry and reports the first non-empty preview; a failure appends nothing |
| Repl.InteractiveClient.ClearHistory | interactive_example_usage.py:282-288 | history is empty afterwards, and the reply tells whether it already was |
| Repl.InteractiveClient.Step | interactive_example_usage.py:466-475 | blank or unknown input changes nothing; a known command runs exactly its handler: the reply and new state of connect, ask and detailed are those of `ConnectClient`, `AskQuestion` and `DetailedAnalysis`; history, status and samples report the state before the call; only connect touches the connection and only ask/detailed/clear touch history |
| Repl.InteractiveClient.Run | interactive_example_usage.py:460-480 | each consumed line is interpreted in order; the loop stops right after the first exit command or at end of input, and reports the summary of the final history |
| Previews.Classify | interactive_example_usage.py:216 | a single string containing both a newline and a pipe is a table kept verbatim; anything else is rows kept as given |
| Previews.FirstNonEmpty | interactive_example_usage.py:214-230 | the index of the first non-empty block; none exactly when all blocks are empty |
| Previews.FindFirstNonEmpty | interactive_example_usage.py:214-230 | the scan with `break` returns that same index |
| Previews.FirstNonEmptyIgnoresLater | demo_chat_app.py:347-356 | blocks after the first non-empty one never affect the choice |
| Previews.TableExample | demo_chat_app.py:349-351 | the block `["col1\|col2\nval1\|val2"]` is a table holding the string unchanged |
| Previews.Capped | example_usage.py:105-108 | at most `limit` lines, in order, with `len-limit` noted when over |
| Text.Words | interactive_example_usage.py:435 | `split()` yields whitespace-free non-empty tokens, and none exactly for blank input |
| Text.WordsOfSingleToken | interactive_example_usage.py:435 | a whitespace-free non-empty string splits to itself |
| Text.WordsSplitAtSpace | interactive_example_usage.py:435 | any whitespace character cuts the string: the tokens of the whole are the tokens before it followed by the tokens after it |
| Text.WordsJoinWords | interactive_example_usage.py:128 | splitting `' '.join(tokens)` gives back the tokens |
| Text.Lower | interactive_example_usage.py:439 | lower-casing keeps the length and maps each letter |
| Text.Truncate | demo_chat_app.py:137 | a string within the limit is unchanged; a longer one is its first n characters plus "..." |
| Text.JoinOnSplitOn | example_usage.py:99 | the split lines of a table joined back with newlines are the table |
| Text.NonBlank | example_usage.py:100-102 | exactly the non-blank lines are kept |
| Text.NonBlankConcat | example_usage.py:100-102 | the filter works line by line: it distributes over concatenation, so order and repeats are kept |
| Text.NonBlankSingle | example_usage.py:100-102 | a single line is kept exactly when it is not blank |
| WebChat.AnswerFrom | demo_chat_app.py:261-272 | the default answer unless the scan stopped at a message carrying a `value`, which is then the answer |
| WebChat.ExtractAnswer | demo_chat_app.py:261-272 | the loop with `break` computes that answer |
| WebChat.NoAssistantKeepsDefault | demo_chat_app.py:261-263 | without assistant messages (or without messages at all) the answer is the non-empty default |
| WebChat.ScanSkips | demo_chat_app.py:264-268 | non-assistant messages, and assistant messages whose first content item is not a dict with `text`, are passed over |
| WebChat.OnlyFirstStopConsulted | demo_chat_app.py:268-272 | the scan stops at the first assistant message with a dict `text` item; nothing after it is read |
| WebChat.NoValueStillStops | demo_chat_app.py:269-272 | a `text` without `value` still ends the scan, leaving the default |
| WebChat.SuccessCount | demo_chat_app.py:169 | counts entries with no error or an empty error; equals the entry count exactly when all succeeded |
| WebChat.SuccessCountAppend | demo_chat_app.py:169 | appending an entry raises "Successful" by one exactly when it succeeded |
| WebChat.SessionStats | demo_chat_app.py:166-170 | Questions is the history length and Successful is at most Questions |
| WebChat.WebPreview | demo_chat_app.py:347-356 | a table is shown as its markdown; rows show their first five lines; there is never an omitted note |
| WebChat.CardOf | demo_chat_app.py:312-356 | errors show the question and error text; other entries show the question, answer and response time; detailed entries add the retrieval query when present and the web preview of the first non-empty block |
| WebChat.ChatView | demo_chat_app.py:312 | the history shown newest first, in exact reverse of insertion |
| WebChat.ChatViewAppend | demo_chat_app.py:295 | a newly appended entry is shown first, above all earlier ones |
| WebChat.ConfigDisplay | demo_chat_app.py:136-152 | each value is shown only when set; tenant cut to 8 and URL to 50 characters plus "..." when longer |
| WebChat.ChatSession.constructor | demo_chat_app.py:91-96 | no client, not authenticated, empty history, no pending question |
| WebChat.ChatSession.Connect | demo_chat_app.py:189-205 | empty tenant or URL, or a failed construction, change nothing; success sets both client and authenticated |
| WebChat.ChatSession.Reconnect | demo_chat_app.py:172-175 | drops client and flag; the history is kept |
| WebChat.ChatSession.ClearChat | demo_chat_app.py:177-179 | empties the history; the connection is kept |
| WebChat.ChatSession.ChooseSample | demo_chat_app.py:211-222 | a Quick Start button pre-fills its sample question |
| WebChat.ChatSession.DefaultQuestion | demo_chat_app.py:228 | the question box starts with the pending question, or empty |
| WebChat.ChatSession.AskQuestion | demo_chat_app.py:245-305 | processed exactly when Ask is pressed and the question is not blank; then the pending question is cleared and exactly one entry is appended: answer, time and (detailed only) details, or the error message |
| Script.Assistants | example_usage.py:67 | exactly the assistant messages are kept |
| Script.AssistantsConcat | example_usage.py:67 | filtering distributes over concatenation |
| Script.LastAssistant | example_usage.py:66-70 | none exactly when there is no assistant message; otherwise an assistant message of the list |
| Script.LatestAssistantChosen | example_usage.py:66-70 | the latest assistant message is chosen, not the first |
| Script.ReplyText | example_usage.py:71-82 | nothing for empty content; else attribute `text.value`, then dict `text.value`, then `text` itself, then the item itself (`str(content[0])`) |
| Script.AgentReplyOf | example_usage.py:66-82 | no reply section exactly when there is no assistant message; otherwise the last one's text |
| Script.ShowPreview | example_usage.py:97-108 | a table prints its non-blank split lines, in order, with no limit; rows print at most 10 and note `len-10` |
| Script.TablePrintedWhole | example_usage.py:97-102 | a table without blank lines is printed whole, and its lines rejoin to the markdown |
| Script.PreviewAtIndex | example_usage.py:90-110 | index = stored index (default 1) - 1; in-range non-empty blocks are shown, in-range empty ones reported, out-of-range ones say nothing |
| Script.FallbackDisplay | example_usage.py:119-141 | the first non-empty block is shown; none exactly when all are empty |
| Script.FallbackPreview | example_usage.py:119-141 | the loop computes that display, and `preview_shown` holds exactly when some block was non-empty |
| Script.SourceOf | example_usage.py:85-143 | the retrieval query itself when present, with the preview at its index; else only the first generated query with the fallback preview; else "no lakehouse source" |
| Script.AnalyseRun | example_usage.py:60-145 | an `error` key short-circuits to the error alone; otherwise a missing status, steps or messages field (or a missing `data` in them) always fails, with the message of the first `KeyError` raised in source order (`'run_status'`, `'run_steps'`, `'data'`, `'messages'`, `'data'`); a complete error-free run is always analysed, with its status, step count, message count, reply and source |
| Script.RunExample | example_usage.py:18-30 | a placeholder configuration stops the script; client failures end it with their message; a configured run that the client returns is analysed, and a `KeyError` ends the script with its message |
| Script.PlaceholderStopsEarly | example_usage.py:22-30 | with a placeholder configured, the client's behaviour cannot affect the outcome |
| Agreement.OneAssistantAgreement | demo_chat_app.py:261-272 | with one assistant message carrying a text value, the web answer and the script reply are both that value |
| Agreement.TwoAssistantsDiverge | example_usage.py:66-70 | with two such messages the web chat shows the first and the script the last |

## Left out

- `FabricDataAgentClient` is not part of this model. Its construction (with browser authentication), `ask`, `get_run_details` and `get_raw_run_response` are parameters: an `Outcome` or a `Fallible` value.
- Rendering: ANSI colours, banners, the help, samples and configuration texts, Streamlit CSS, widgets and `st.rerun`, the indentation and numbering format of printed lines, and `json.dumps` output. Displays are modelled as the lines shown and the omitted-line count.
- Input and environment: `input`, `getpass`, `os.getenv`, `st.secrets` (`get_secret_or_env`). The credentials, the typed question and the button states are parameters. For the same reason, the startup "Connect now?" prompt of `run` and the environment section of `show_status` are not modelled.
- Time: response times are abstract natural numbers, the average is a `real`, and timestamps, `strftime`, the thinking animation and `time.sleep` are left out.
- Process control: `sys.exit` ends `Run`, which then returns. `KeyboardInterrupt` and the `main` entry points are not modelled. End of input (`EOFError`) is the end of the given lines.
- The example script's simple ask and raw-response calls only print their results. Their failures are folded into the single `run` outcome of `Script.RunExample`.
- Payloads whose shape does not match the schema are not modelled, such as a message that is not a dict, where Python raises inside the handlers.
- `Text.Lower` lower-cases ASCII letters only, not the rest of Unicode.
- Repl.InteractiveClient.Run: it states which lines are consumed, how each is interpreted and the final summary, not the session state after the whole run.
