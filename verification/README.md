# Students evaluation Lambdas in Dafny

This project models the two AWS Lambda handlers of the students-evaluation system.

- **Action-group lookup** (`cdk/lib/lambda/lambda_function.py`, module `ActionGroup`). A Bedrock agent calls this handler with a "function call" event. The handler:
  - picks `students_id` and `period` out of the name/value parameter list;
  - queries the `students-evaluation` table, or answers with a fixed text;
  - wraps the text body in an envelope that echoes `actionGroup`, `function` and `messageVersion`.

  A `KeyError` becomes status 400 and any other exception becomes 500. The handler only reads the table, so the model is made of pure functions:
  - the table is a value: the items under each `(students_id, period)` key, and whether every query raises. `ActionGroup.Query` defines how this injected table answers `table.query(...)`;
  - `json.dumps` is an injected function that may raise.
- **Scheduled orchestration loop** (`cdk/lib/lambda/call-agent-function.py`, module `Orchestration`). This handler reads a start id, a period and a loop count, with defaults `"1"`, `"2025-01"` and `3`. Then, for each id in turn, it:
  - prompts the evaluation agent;
  - concatenates the decoded `chunk.bytes` of the agent's event stream (module `AgentStream`);
  - stores the answer and a sanitised ISO timestamp (module `Timestamps`) under `(str(id), period)`.

  After the loop it publishes one success notice when `SNS_TOPIC_ARN` is set, and returns status 200. Any exception stops the run where it is: the earlier writes stay, and the status is 500. When `SNS_TOPIC_ARN` is set, one failure notice is published first; if that publish raises, its exception leaves the handler.

  This handler changes state, so it is modelled imperatively:
  - the table and the notification topic are classes with mutable fields (module `Services`);
  - the handler is a method with a loop;
  - `RunSpec` states the whole effect of a run as a function of its inputs, and `HandleRun` is proved to have exactly that effect;
  - the properties of a run are lemmas about `RunSpec`.

The shared modules:
- `Values`: `Option`, `Result` and JSON scalars.
- `Records`: the table key and items.
- `PyInt`: Python's `int(text)` and `str(n)`, with `int(str(n)) == n` proved.
- `PyRepr`: Python's `repr` of a string, which `str(e)` shows for an `int()` `ValueError` (cut to 200 characters) and for a missing environment variable's `KeyError`. It is proved to lose nothing.

External services are parameters:
- The agent is a function from the prompt to its event stream. An event is a chunk (with or without bytes), another event, or an error.
- The clock is a function from the iteration number to the ISO timestamp read in that iteration.
- The environment variables are an `Env` value.
- The table's rejections (the keys whose `update_item` raises) are fixed when the table is created. So are the topic's two outages: the error publishing the success notice raises, and the error publishing a failure notice raises.

## Model

| member | source | states |
|---|---|---|
| ActionGroup.FindParameter | cdk/lib/lambda/lambda_function.py:40-41 | The value of the first parameter named `key`. `None` when every parameter has another name. `KeyError('name')` when a parameter scanned before the match has no name. `KeyError('value')` when the match has no value. Any error it raises is `KeyError('name')` or `KeyError('value')`. |
| ActionGroup.GetStudentEvaluation | cdk/lib/lambda/lambda_function.py:93-133 | Raises exactly when the query raises. Gives the "not found" message exactly when the query returns no item. Otherwise gives the inputs unchanged and `data` equal to exactly the items returned. |
| ActionGroup.ResponseBody | cdk/lib/lambda/lambda_function.py:38-62 | Any function other than `get-data-from-dynamodb` gets the "not implemented" text naming it. When both parameter scans succeed and `students_id` or `period` is missing or empty, the body is the "both required" text. |
| ActionGroup.Handle | cdk/lib/lambda/lambda_function.py:29-91 | A missing `actionGroup` or `function` gives 400 with `Error: '<key>'`. A normal response echoes both fields unchanged, with `messageVersion` defaulting to 1. Every error response is a 400 or the 500 "Internal server error". An unknown function gets the "not implemented" envelope. |
| ActionGroup.ScanKeyError | cdk/lib/lambda/lambda_function.py:40-85 | A `KeyError` from the scan for `students_id`, or from the scan for `period` after the `students_id` scan succeeded (found or not), is answered with exactly 400 and `Error: 'name'` or `Error: 'value'`. |
| ActionGroup.NoParametersNeedsBoth | cdk/lib/lambda/lambda_function.py:33-48 | An event without `parameters` that asks for the data gets a normal response with the "both required" body. |
| ActionGroup.TableUntouchedUnlessBothGiven | cdk/lib/lambda/lambda_function.py:38-62 | Two different tables give the same response unless all of these hold: the function is `get-data-from-dynamodb`, both lookups succeed, and both values are non-empty. |
| ActionGroup.DataPath | cdk/lib/lambda/lambda_function.py:49-56 | With both values present, the body is the serialised evaluation data for exactly those values. A query or serialisation error gives the 500 response. |
| PyInt.Digits | cdk/lib/lambda/call-agent-function.py:68 | The decimal text of a natural number is non-empty, all ASCII digits, and starts with `0` only for 0. |
| PyInt.Show | cdk/lib/lambda/call-agent-function.py:68 | `str(n)` is non-empty and starts with `-` exactly when `n` is negative. |
| PyInt.ShowChars | cdk/lib/lambda/call-agent-function.py:68 | `str(n)` contains only digits and the minus sign. |
| PyInt.Parse | cdk/lib/lambda/call-agent-function.py:23-25 | `int(text)` accepts exactly one or more ASCII digits, optionally preceded by `+` or `-`. It returns their decimal value, negated after `-`. |
| PyInt.DigitsValue | cdk/lib/lambda/call-agent-function.py:68 | Reading the digits of `n` back as a decimal number gives `n`. |
| PyInt.ParseShow | cdk/lib/lambda/call-agent-function.py:25 | `int(str(n)) == n` for every integer of at most 4300 digits, the range in which CPython converts both ways by default. |
| PyInt.ShowInjective | cdk/lib/lambda/call-agent-function.py:66-70 | Different ids have different decimal texts, so different iterations address different keys. |
| AgentStream.FirstFault | cdk/lib/lambda/call-agent-function.py:52 | No error exactly when the stream has no error event. Otherwise the error is the message of the first error event. |
| AgentStream.TextAppend | cdk/lib/lambda/call-agent-function.py:48-58 | The answer of two consecutive parts of a stream is the concatenation of their answers, in order. |
| AgentStream.ThreeChunks | cdk/lib/lambda/call-agent-function.py:48-58 | Chunks "a", "b", "c" give "abc", and a stream without chunks gives "". |
| AgentStream.ReadCompletion | cdk/lib/lambda/call-agent-function.py:48-58 | The `agent_response +=` loop gives the in-order concatenation of the chunk bytes, skipping events without a chunk or without bytes. An error event raises that event's error. |
| Timestamps.Replace | cdk/lib/lambda/call-agent-function.py:63 | `s.replace(from, to)` keeps the length and maps each position independently. |
| Timestamps.Sanitise | cdk/lib/lambda/call-agent-function.py:63 | The stored date has the length of the ISO text and contains no `:` and no `.`. Those characters become `_` and every other character is kept. |
| Timestamps.SanitiseIdempotent | cdk/lib/lambda/call-agent-function.py:63 | Sanitising a sanitised date changes nothing. |
| Services.Stamped | cdk/lib/lambda/call-agent-function.py:66-76 | `SET agent_evaluation, evaluation_date` sets those two attributes and keeps every other attribute of an existing item. A missing item is created with just its key attributes and the two set. |
| Services.SetEvaluation | cdk/lib/lambda/call-agent-function.py:66-76 | An update adds its key to the table and replaces only that key's item. Every other key is unchanged. |
| Services.EvaluationTable.UpdateEvaluation | cdk/lib/lambda/call-agent-function.py:66-76 | `update_item` raises the rejection for a rejected key and leaves the table as it was. Otherwise the table becomes `SetEvaluation` of the old one. |
| Services.NotificationService.Publish | cdk/lib/lambda/call-agent-function.py:85-89 | `publish` appends the notice to the topic's log. If the topic fails for that kind of notice, it raises that outage and leaves the log unchanged. |
| Orchestration.ToInt | cdk/lib/lambda/call-agent-function.py:23-25 | `int(v)` keeps an integer. A string converts exactly when `int(text)` accepts it. The only error is the `ValueError` naming the string. |
| Orchestration.ToIntShow | cdk/lib/lambda/call-agent-function.py:23-25 | Reading an id back from its own text gives the id, so an integer `students_id` and its text agree. |
| PyRepr.QuoteFor | cdk/lib/lambda/call-agent-function.py:108-115 | `repr` of a string quotes it with `"` exactly when it holds a `'` and no `"`, and with `'` otherwise. |
| PyRepr.EscapeChar | cdk/lib/lambda/call-agent-function.py:108-115 | Inside the quotes, `repr` writes a backslash escape exactly for the backslash, the chosen quote, tab, newline, carriage return and the other ASCII control characters. |
| PyRepr.Repr | cdk/lib/lambda/call-agent-function.py:108-115 | `repr(s)` starts and ends with the chosen quote and is at least two characters longer than `s`. |
| PyRepr.UnescapeHeadChar | cdk/lib/lambda/call-agent-function.py:108-115 | The escape of one character reads back as that character, whatever follows it. |
| PyRepr.EscapePlain | cdk/lib/lambda/call-agent-function.py:88 | Printable ASCII without the backslash and the chosen quote is written as it is. |
| PyRepr.ReprPlain | cdk/lib/lambda/call-agent-function.py:88 | Printable ASCII without quotes or backslashes is shown between single quotes, unchanged. |
| PyRepr.UnescapeEscape | cdk/lib/lambda/call-agent-function.py:108-115 | Reading back the escapes of a text gives the text. |
| PyRepr.UnquoteRepr | cdk/lib/lambda/call-agent-function.py:108-115 | `repr` loses nothing: the text between its quotes reads back as the string. |
| PyRepr.ReprInjective | cdk/lib/lambda/call-agent-function.py:108-115 | Different strings have different `repr`s. |
| PyRepr.ReprDoubleQuoted | cdk/lib/lambda/call-agent-function.py:108-115 | `repr("it's")` is `"it's"`: a text holding a `'` and no `"` is put between double quotes, unescaped. |
| PyRepr.ReprNewline | cdk/lib/lambda/call-agent-function.py:108-115 | `repr("a\n")` is `'a\n'`: a newline is written as a backslash escape. |
| Orchestration.DescribeDistinct | cdk/lib/lambda/call-agent-function.py:100-117 | `str(e)` of an `int()` error is the `ValueError` text followed by `repr` of the literal cut to 200 characters; a missing variable prints as `repr` of its name. Two such errors with the same text are the same error, provided each literal's `repr` fits in the 200 characters. |
| Orchestration.DescribeClipped | cdk/lib/lambda/call-agent-function.py:100-117 | Past the 200-character cut `str(e)` no longer tells literals apart: two literals whose `repr`s share their first 200 characters give the same text. |
| Orchestration.ReadBounds | cdk/lib/lambda/call-agent-function.py:20-25 | With no fields the bounds are start 1 and count 3. `int(loop_count)` is converted before `int(students_id)`, so its error is the one raised. Otherwise the bounds are the two converted values. |
| Orchestration.PromptDistinct | cdk/lib/lambda/call-agent-function.py:28 | Within one period, different ids give different prompts. |
| Orchestration.IterationOutcome | cdk/lib/lambda/call-agent-function.py:28-76 | An iteration succeeds exactly when all of these hold: both agent variables are set, the stream for its prompt has no error, and its key is not rejected. The stored evaluation is the stream's answer, and the stored date has no `:` or `.`. |
| Orchestration.Processed | cdk/lib/lambda/call-agent-function.py:27-81 | The loop completes a prefix of the iterations, all successful. When it stops early, it stops at an iteration that raises. |
| Orchestration.ProcessedStopsAt | cdk/lib/lambda/call-agent-function.py:27-81 | If iteration `m` is the first to raise (or `m` is the count and none raises), exactly `m` iterations complete. |
| Orchestration.KeysDistinct | cdk/lib/lambda/call-agent-function.py:66-80 | Different iterations write different keys. |
| Orchestration.Ids | cdk/lib/lambda/call-agent-function.py:77-80 | After `m` iterations `results` holds `m` ids, and id `k` is `str(start+k)`. |
| Orchestration.LaterKeyUnwritten | cdk/lib/lambda/call-agent-function.py:66-80 | No iteration before `k` writes the key of iteration `k`. |
| Orchestration.AppliedStep | cdk/lib/lambda/call-agent-function.py:66-76 | One iteration changes no key but its own. |
| Orchestration.AppliedElsewhere | cdk/lib/lambda/call-agent-function.py:27-81 | After `m` iterations, a key that none of them addresses holds what it held before the run, or stays absent. |
| Orchestration.AppliedLast | cdk/lib/lambda/call-agent-function.py:66-76 | A completed iteration leaves its key holding the item from before the run, stamped with its answer and date. |
| Orchestration.AppliedKept | cdk/lib/lambda/call-agent-function.py:27-81 | The iterations after `k` leave the key of iteration `k` as iteration `k` left it. |
| Orchestration.AppliedAt | cdk/lib/lambda/call-agent-function.py:27-81 | After `m` iterations, the key of each completed one holds its earlier item stamped with that iteration's answer and date. |
| Orchestration.AppliedRun | cdk/lib/lambda/call-agent-function.py:27-81 | After `m` successful iterations, all their keys are stamped, and every key none of them addresses is unchanged. |
| Orchestration.MalformedInput | cdk/lib/lambda/call-agent-function.py:20-117 | For a non-integer start id or loop count, the error is the `int()` `ValueError`, and nothing is written. The status is 500 with that error. A failure notice carrying the period, the raw start id and `str(e)` is published exactly when a topic is configured and can publish. When that publish raises, its exception leaves the handler. |
| Orchestration.RunWrites | cdk/lib/lambda/call-agent-function.py:27-117 | After a run with well-formed bounds in which `m` iterations complete, these hold. The key of each completed iteration holds its earlier item stamped with its answer and date. Every key no completed iteration addresses is unchanged, including the key of every later iteration. This holds whether the run ends with 200 or 500. |
| Orchestration.CompletedRun | cdk/lib/lambda/call-agent-function.py:27-117 | When no iteration raises, all `loop_count` iterations complete. Without a topic, or when the success publish goes through, the status is 200 with the processed ids. A success notice carrying those ids is published exactly when a topic is configured and accepts it. If the success publish raises, the `except` branch handles it: status 500 and one failure notice with the publish error, or the second publish error leaving the handler. |
| Orchestration.CompletedIds | cdk/lib/lambda/call-agent-function.py:77-97 | The ids of a completed run are exactly `loop_count` ids `str(start+k)`, in ascending order. |
| Orchestration.FailedRun | cdk/lib/lambda/call-agent-function.py:27-117 | When iteration `m` is the first to raise, exactly `m` iterations complete. No success notice is sent. The status is 500 with that iteration's exception. Exactly one failure notice with `str(e)` and the raw start id is sent when a topic is configured and can publish. If it cannot, the publish exception leaves the handler. |
| Orchestration.ReportFailure | cdk/lib/lambda/call-agent-function.py:99-117 | The `except` branch publishes one failure notice when a topic is configured and returns 500. If that publish raises, the exception leaves the handler. |
| Orchestration.RunIteration | cdk/lib/lambda/call-agent-function.py:28-80 | One loop body either raises the iteration's exception and leaves the table unchanged, or writes the iteration's entry under its key. |
| Orchestration.ProcessStudents | cdk/lib/lambda/call-agent-function.py:26-81 | The `for` loop runs the iterations in order and stops at the first that raises. It returns that exception, the ids processed so far, and the table with those iterations' writes. |
| Orchestration.HandleRun | cdk/lib/lambda/call-agent-function.py:15-117 | The handler's outcome, final table and published notices are exactly those `RunSpec` gives for its inputs. |
| Orchestration.ReprShow | cdk/lib/lambda/call-agent-function.py:88 | `repr(str(n))` is the decimal text of `n` between single quotes, which is how the list repr of the results shows each id. |
| Orchestration.JoinQuotedAppend | cdk/lib/lambda/call-agent-function.py:88 | Listing two non-empty runs of ids joins their renderings with `, `. |
| Orchestration.DefaultIdList | cdk/lib/lambda/call-agent-function.py:88 | The success message lists ids `1, 2, 3` as `['1', '2', '3']`, and no ids as `[]`. |

## Left out

- `print` and `logger` output and the `uuid` session id: they do not affect any result.
- `time.sleep(30)` and the host's execution time-out: the model has no time. A run the host ends mid-loop keeps its earlier writes and sends no notice, and the model does not capture such a run.
- UTF-8 decoding of `chunk.bytes`: a chunk's bytes are given already decoded. A decoding error, or an error raised by `invoke_agent` itself, is represented by an error event in the stream.
- The exact `json.dumps` text of the action-group body: it is an injected function of the evaluation data that may raise. The JSON body of the orchestration handler's return value is modelled by its contents: the ids, or the error.
- Event fields of other JSON types: a float or boolean `loop_count`, a `null` `parameters` list, and non-string parameter values. They are not representable in the model's event types.
- PyRepr.EscapeChar: characters outside ASCII that Python's `repr` escapes as non-printable (`\x..`, `\u....`, `\U........`) are kept as they are. Deciding which ones are printable needs the Unicode database. ASCII characters are escaped as Python does.
- PyInt.Parse: `int(text)` is modelled as an optional sign followed by ASCII digits. Surrounding whitespace, `_` separators and non-ASCII digits, which Python also accepts, are rejected.
- PyInt.Parse: CPython's default limit of 4300 digits for integer string conversion (`sys.set_int_max_str_digits`) is not modelled. For a longer `students_id` or `loop_count`, `int()` raises a `ValueError` and the run ends in the `except` branch with nothing written. The model instead accepts the text and converts it.
- PyInt.Show: the same limit applies to `str(current_id)`, which raises once an id exceeds 4300 digits. The model renders every integer, so `ParseShow` and the runs built on `Show` hold in the model for ids of any length, but in the program only up to 4300 digits.
- Orchestration.HandleRun: `datetime.now()` is the clock parameter, indexed by iteration, and `os.environ` is the `Env` value.
- An exception raised by `json.dumps(event)` at the first line of the orchestration handler, before `period` is bound, is not modelled. The events the scheduler sends are JSON.
- The semantics of DynamoDB, Bedrock and SNS beyond what the handlers observe: a query returns items or raises, `update_item` writes or raises, and `publish` delivers or raises.
- The message texts of the notices (`Orchestration.MessageText`, `Orchestration.Subject`) are defined but not proved about beyond the id list rendering. A notice is kept structurally: topic, period, ids or start id, and error text.
- `streamlit.py`, `students-evaluate-app/streamlit.py` and `project-management-agent/agent.py` are not part of this model. They are user interface and a thin wrapper around a foreign agent library.
