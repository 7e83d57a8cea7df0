# Solidity audit agent: selection, collection and webhook decisions

The agent audits Solidity contracts in two modes. In local mode it clones
a repository and lists its `.sol` files. It then optionally asks the user
which of them to audit, reads them, sends them to the auditing service and
saves the result. In server mode it runs a webhook. The webhook
acknowledges each task notification at once and queues a background job.
That job fetches the task's contracts, audits them and posts the findings
back.

This project models the decision logic of both modes:

- `Text`: the parts of Python's `str.strip`, `str.split(",")` and `int()`
  that index parsing relies on. Each comes with an inverse formatter and a
  round-trip lemma.
- `Local` (`agent/local.py`):
  - the interactive selection, a loop over input lines;
  - the tolerant contract-collection loop;
  - `save_audit_results`;
  - the branches of `process_local`.
- `Server` (`agent/server.py`):
  - the webhook-secret predicate;
  - fetching the contracts;
  - the findings payload and its reader;
  - posting the results;
  - the `process_notification` pipeline;
  - the webhook endpoint over a background-task list.
- `Auditor`: the finding and response records of the auditing service
  (`agent/services/auditor.py:12-21`).

Some things the source touches become parameters instead:

- The user's input is a finite sequence of lines. Running out of lines
  gives `None`: `input()` raises `EOFError`, which escapes
  `select_files_interactively`; `process_local` logs it and re-raises it.
- File reads, opening the output file, the auditor and the HTTP client are
  oracles passed in as functions.

Behaviour worth noting, as the code has it:

- **No webhook secret check.** The webhook's secret-check dependency is
  commented out (`agent/server.py:138`). So `Server.Webhook` takes no
  header and accepts every notification. `Server.VerifyWebhookSecret`
  models the predicate on its own.
- **Local mode always ends in an exception.** `process_local` passes the
  auditor's response object, not a string, to `save_audit_results`
  (`agent/local.py:171-174`). There `f.write` raises `TypeError`, which is
  re-raised. So as written, every local run that finds at least one
  contract ends with an exception after the audit. `Local.ProcessLocal`
  states this (`outcome != Completed`).
- **Duplicates are kept.** Indices are typed as a list, and repeats give
  repeated files. The selection is therefore a subset of the listed files,
  but not a sub-multiset (`Local.OrderAndRepeatsExample`).
- **Severity is free text.** The schema describes severity levels but does
  not enforce them.

## Model

| member | source | states |
|---|---|---|
| Text.Strip | agent/local.py:52 | the stripped text is what remains of `s` after removing whitespace (the full `str.isspace` set) from both ends: it is empty exactly when `s` is all whitespace, and otherwise it starts and ends with non-whitespace |
| Text.StripUnpadded | agent/local.py:57 | stripping text with no whitespace at either end returns it unchanged |
| Text.StripPadded | agent/local.py:57 | stripping any whitespace padding around unpadded text recovers that text |
| Text.Split | agent/local.py:57 | splitting on `,` gives at least one piece, and no piece contains the separator |
| Text.SplitFirstPrefix | agent/local.py:57 | the first piece of a split is a prefix of the line |
| Text.JoinSplit | agent/local.py:57 | joining the pieces of a split gives back the original line |
| Text.SplitPrefix | agent/local.py:57 | a separator-free prefix is glued onto the first piece of the rest |
| Text.SplitJoin | agent/local.py:57 | splitting a join of separator-free pieces gives back exactly those pieces |
| Text.ParseInt | agent/local.py:57 | `int()` on a stripped token: success needs a non-empty token with no whitespace at either end; a run of at most 4300 ASCII digits parses to its decimal value (leading zeros allowed); a negative result needs a leading `-` |
| Text.ParseIntAccepts | agent/local.py:57 | `int()` succeeds exactly on an optional `+`/`-` followed by one to 4300 ASCII digits (CPython's default digit limit), so `"1a"`, `"+"`, `"1.5"`, `"0x1"` and longer numerals fail; a signed digit run parses to its value with that sign |
| Text.NatToDigits | agent/local.py:57 | decimal digits whose value is `n`, with no leading zero unless `n` is 0 |
| Text.IntToString | agent/local.py:57 | a non-empty numeral with no comma and no surrounding whitespace |
| Text.ParseIntToString | agent/local.py:57 | parsing the numeral of any integer within the digit limit, including 0 and negatives, gives that integer; the numeral of any larger integer fails to parse |
| Local.ParseTokens | agent/local.py:57 | a parsed line has one index per token |
| Local.ParseTokensDefined | agent/local.py:57 | the tokens parse exactly when every stripped token is an integer |
| Local.ParseTokensValues | agent/local.py:57 | when the tokens parse, index i is the value of token i |
| Local.ParseTokensMeaning | agent/local.py:57 | the tokens parse exactly when every stripped token is an integer, and index i is then the value of token i (token order kept) |
| Local.ParseIndices | agent/local.py:57 | a line that parses gives at least one index, and a blank line never parses |
| Local.ParseFormatIndices | agent/local.py:57 | a comma-separated list of any non-empty sequence of integers within the digit limit parses back to that sequence |
| Local.BlankTokenRejects | agent/local.py:57-75 | one empty or whitespace-only token makes the whole line unparsable |
| Local.NonNumericTokenRejects | agent/local.py:57-75 | one token that is not an integer makes the whole line unparsable |
| Local.EmptyTokenExample | agent/local.py:57-75 | `"1,,2"` is rejected |
| Local.WordExample | agent/local.py:57-75 | `"a"` is rejected |
| Local.Pick | agent/local.py:58-64 | the files picked by a list of indices number at most the indices |
| Local.PickListed | agent/local.py:60-62 | every picked file is among the listed files |
| Local.PickConcat | agent/local.py:60-64 | indices are handled one by one: picking from a concatenation concatenates the picks |
| Local.PickInOrder | agent/local.py:60-62 | when every index is in `1..len(all_files)`, the pick has one entry per index, and entry i is `all_files[k_i - 1]` (order kept, repeats kept) |
| Local.SkipOutOfRange | agent/local.py:61-64 | removing an out-of-range index (0, negative or too large) changes nothing: it is skipped without affecting the rest of the line |
| Local.PickFiles | agent/local.py:58-64 | the append loop computes exactly `Pick` |
| Local.Judge | agent/local.py:52-72 | a line ends the dialogue as blank exactly when it is all whitespace (so `strip()` leaves nothing); a line that picks files picks at least one |
| Local.JudgeAccepts | agent/local.py:52-75 | a non-blank line is unparsable exactly when its indices do not parse; a line picks files exactly when its indices parse and name at least one listed file, and then it picks what those indices name |
| Local.Verdicts | agent/local.py:49-75 | one verdict per input line |
| Local.VerdictAt | agent/local.py:49-75 | verdict i is the verdict on line i |
| Local.Prompt | agent/local.py:49-75 | the loop over the verdicts on the input: a result consumes at least one verdict and never more than there are |
| Local.Select | agent/local.py:41-75 | the selection as a function of the input lines: it never reads past the input, and with files listed it reads at least one line before returning |
| Local.SelectFilesInteractively | agent/local.py:41-75 | the `while True` loop computes exactly `Select`: the selection it returns and the number of lines it read, or `None` when the lines run out |
| Local.PromptStep | agent/local.py:49-75 | one loop iteration: a final line returns its choice after one line; any other line is consumed and the question is asked again |
| Local.PromptStopsAtFirstFinalLine | agent/local.py:49-75 | a result exists exactly when some line ends the dialogue; it is the first such line, its choice is returned, and every earlier line was rejected |
| Local.SelectSomeIffFinalLine | agent/local.py:49-75 | with files listed, a selection is made exactly when some input line ends the dialogue; otherwise the input runs out |
| Local.SelectStopsAtFirstFinalLine | agent/local.py:49-75 | with files listed, a selection comes from the first line that ends the dialogue, and every earlier line was rejected |
| Local.SelectFirstLine | agent/local.py:49-75 | with files listed, the first line either ends the dialogue with its choice or is consumed before the question is asked again |
| Local.NoFilesNoQuestions | agent/local.py:41-43 | an empty file list returns `[]` without reading any line |
| Local.BlankLineEnds | agent/local.py:52-54 | a blank or whitespace-only line returns `[]` after one line |
| Local.PickingLineEnds | agent/local.py:57-70 | a line whose indices parse and name at least one listed file returns the files they name after one line |
| Local.RejectedLineAsksAgain | agent/local.py:66-75 | a line that does not parse, or names no file in range, is consumed and the question is asked again |
| Local.FinalLineChoice | agent/local.py:52-70 | a final line chooses only listed files; its choice is empty exactly when the line is blank, and otherwise it is what its indices pick |
| Local.SelectionFacts | agent/local.py:52-70 | every selected file is listed; with files listed, the result is empty exactly when the last line read was blank, and otherwise it is the pick of that line's indices, so a result from a non-blank line is non-empty |
| Local.OrderAndRepeatsExample | agent/local.py:57-62 | `"2,1,2"` over `[A.sol, B.sol]` selects `[B.sol, A.sol, B.sol]` |
| Local.OutOfRangeExample | agent/local.py:61-72 | `"7"` over two files is consumed and the question is asked again |
| Local.OutOfRangeLine | agent/local.py:61-72 | `"7"` over two files parses but names no file |
| Local.RepeatingLine | agent/local.py:57-62 | `"2,1,2"` over two files picks `[B.sol, A.sol, B.sol]` |
| Local.RepeatingLineParses | agent/local.py:57 | `"2,1,2"` parses to `[2, 1, 2]` |
| Local.SingleDigitToken | agent/local.py:57 | a one-digit token parses to its digit's value |
| Local.Readable | agent/local.py:101-117 | at most one file per path |
| Local.ReadableSound | agent/local.py:102-113 | each collected file has a selected path and that path's read content |
| Local.ReadableConcat | agent/local.py:101-117 | paths are handled one by one, in order |
| Local.ReadableComplete | agent/local.py:102-113 | every selected path whose read succeeds is collected with its content |
| Local.ReadableAll | agent/local.py:101-117 | when every read succeeds, the result pairs each path with its content, in order |
| Local.OneUnreadableFile | agent/local.py:114-115 | a failed read is skipped, and the remaining files are still collected |
| Local.CollectContracts | agent/local.py:101-117 | the read loop computes exactly `Readable` over the selected paths |
| Local.Contracts | agent/local.py:96-117 | without interactive selection a list is always produced; every collected file has a listed path and its read content |
| Local.FindSolidityContracts | agent/local.py:96-117 | selection followed by the read loop computes exactly `Contracts` |
| Local.SaveAuditResults | agent/local.py:119-133 | saving succeeds exactly when the file opens and the argument is text; an open failure and a non-text argument are both raised |
| Local.ProcessLocal | agent/local.py:156-180 | an ended input raises with no calls; no contracts returns early with no calls; otherwise the contracts are audited, the response object is passed to the save, and the run ends raised |
| Server.SecretConfigured | agent/server.py:29 | the configured secret is truthy as in Python: `None` and `""` are false, any other string is true |
| Server.VerifyWebhookSecret | agent/server.py:27-31 | with no secret (None or empty) every header, even a missing one, is accepted; with a secret, a header is accepted exactly when it equals the secret; acceptance is `True`, rejection is 401 "Invalid webhook secret" |
| Server.MissingHeaderRejected | agent/server.py:29-30 | with a secret configured, a missing header is rejected with 401 |
| Server.ApiKeyHeaders | agent/server.py:50 | the only header is `X-API-Key`, carrying the configured platform key |
| Server.ContractsRequest | agent/server.py:48-51 | the GET goes to the contracts URL with the API-key header |
| Server.FetchSolidityFiles | agent/server.py:33-60 | a non-null result is the decoded body of a 2xx reply; a 2xx reply with a decodable body gives that body; a transport failure gives null, and nothing is raised |
| Server.Dump | agent/server.py:74 | a record with exactly the keys title, description, severity and file_path, which reads back as the same finding |
| Server.LoadFinding | agent/server.py:74 | a dumped record reads back only from an object whose `title` field is that title |
| Server.DumpAll | agent/server.py:74 | one record per finding, in order, with record i reading back as finding i |
| Server.BuildPayload | agent/server.py:74-75 | the payload has exactly the keys `task_id` and `findings`; `task_id` is the given task; `findings` has one entry per finding |
| Server.LoadFindings | agent/server.py:74 | reading records back gives one finding per record |
| Server.ReadPayload | agent/server.py:75 | a payload reads back only when it carries its task id under `task_id` |
| Server.LoadDumpedFindings | agent/server.py:74 | the dumped records of any list of findings read back as that list |
| Server.ReadBuiltPayload | agent/server.py:74-75 | reading a built payload back gives the same task id and the same findings, in the same order |
| Server.FindingsRequest | agent/server.py:82-89 | the POST goes to the callback URL, carries the payload, and has a JSON content type and the application's API key |
| Server.SendAuditResults | agent/server.py:62-106 | the send reports delivered exactly on a 2xx reply, a network error exactly on a transport failure, and an HTTP error with its status otherwise; it never raises |
| Server.Truthy | agent/server.py:124 | a failed fetch (`None`) and an empty list of files are falsy; a non-empty list of files is truthy |
| Server.ProcessNotification | agent/server.py:108-136 | the fetch comes first; without truthy content nothing else happens; otherwise the content is audited, a failed auditor set-up is caught, and a successful audit is posted once to the findings URL for the task; no exception escapes |
| Server.BackgroundTasks.AddTask | agent/server.py:153-157 | appends exactly the given task to the queue |
| Server.Webhook | agent/server.py:138-159 | enqueues exactly one `process_notification` task, with the notification and the application configuration, and acknowledges `{"status": "processing", "task_id": ...}` with no secret check |

## Left out

- Cloning the repository and finding files by glob (git, temporary directories, the filesystem). The list of relative paths is a parameter. `os.path.join` with the repository path is folded into the read oracle.
- Output from `print` and from the `input` prompt, and all logging. The model has no output text.
- Logging set-up in `process_local` and `start_server`, uvicorn start-up, the `/health` endpoint, and the unused `TaskContent` model.
- Writing the audit file. Only the open failure and the `f.write` type check are modelled. Both are re-raised.
- The auditing service (`agent/services/auditor.py`): the OpenAI request, `json.loads` and pydantic validation. It is an oracle. `None` stands for an exception while setting up the auditor. `audit_files` itself catches its own errors and returns an empty response.
- The prompt templates, `main.py` argument dispatch, and loading the configuration from the environment.
- Text.ParseInt: models only an optional sign followed by ASCII digits, with CPython's default limit of 4300 digits. Python's `int()` also accepts underscores between digits and non-ASCII decimal digits, and a changed `sys.set_int_max_str_digits` setting (or a CPython release without the limit) accepts longer numerals.
- Server.Json: numbers are integers only. JSON floats and their truthiness are not modelled.
- httpx details: timeouts, redirects, the async client and the exact exception classes. A status outside 2xx stands for `raise_for_status` failing.
- FastAPI's real background execution and concurrency. A background task is only an append to the task list. Running a task is `Server.ProcessNotification`.
