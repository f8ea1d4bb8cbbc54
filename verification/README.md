# A verified model of the worker's process drivers

This project models the core of the agent worker in Dafny. The worker drives
two long-lived external processes and has two small text helpers besides:

- **The kernel executor** (`worker/core/kernel_exec.py`). It runs code on a
  persistent Jupyter kernel. It stamps each request with a message id, reads
  the shell reply, and then drains the interleaved iopub stream. Only the
  messages whose parent is its own request count. It assembles a result in
  which exactly one of `output` and `error` is set. Around it sits a
  supervisor over the PID file and the connection file:
  - `start_kernel` clears both files, spawns, records the pid and polls for
    readiness at most 50 times;
  - `stop_kernel` kills the recorded process and deletes both files;
  - `run` reuses a live kernel, restarts once when connecting fails, and
    turns every exception into an error result.
- **The Pi RPC session** (`worker/core/pi_rpc.py`). It builds the Pi command
  line and speaks line-delimited JSON over Pi's standard streams:
  - a request counter stamps every command with a decimal id;
  - `_send_and_wait` discards every line but the response to that id;
  - `prompt` counts `turn_start` events up to `agent_end`, then asks for
    the messages and then for the session statistics; a malformed
    `message_update` event raises on the way;
  - `close` terminates the process and kills it after the grace period.
- **The GitHub helpers** (`worker/libs/github.py`). They post-process `gh`
  output: colour codes removed, empty output read as `[]`. They flatten
  `author` and `labels`, map comments, changed files and reviews to
  fixed-key records, and split commit output into JSON lines.
- **The SDK listing** (`worker/libs/sdk.py`): the one-line description of a
  docstring and the aligned tool table.

Modules, one file each:

| file | module | holds |
|---|---|---|
| `wrappers.dfy` | `Wrappers` | `Option` and `Result` |
| `strings.dfy` | `Strings` | Python's `strip`, `rstrip(chars)`, `join`, `split`, `splitlines` and `str` of a natural number |
| `ansi.dfy` | `Ansi` | the `\x1b\[[0-9;]*m` substitution shared by the executor and the GitHub helpers |
| `json.dfy` | `JsonValues` | decoded JSON values, `dict.get` and truthiness |
| `kernel_exec.dfy` | `KernelExec` | the executor and its supervisor |
| `pi_rpc.dfy` | `PiRpc` | the command lines and the `PiRPC` session |
| `github.dfy` | `GitHub` | the GitHub helpers |
| `sdk.dfy` | `Sdk` | the listing helpers |

Each core file is modelled in the source's own form:
- State that the source updates in place becomes a class:
  - the kernel client's queues and sent requests;
  - the supervisor's record files, live processes and event trace;
  - the `PiRPC` fields;
  - the dict that `_normalize_item` rewrites.
- Every read loop becomes a `while` or `for` loop proved against a
  specification function, among them `_drain_iopub`, the iopub loop of `execute_code`,
  `_send_and_wait`, the event loop of `prompt`, the readiness loop of
  `start_kernel`, the scan of `_first_line` and the line loop of `list()`.
- The pure parts stay functions, with lemmas relating them.

Inputs from the outside world become parameters:
- the shell replies and iopub messages each kernel will send, as `Replies`.
  Every client connected to that kernel starts from them, as the queues of a
  `KernelClient` (reading an empty queue is the read timeout);
- the readiness of each poll, as a sequence of `Attempt`s;
- whether the connection file loads, the pid of the spawned kernel, and the
  set of live processes;
- the lines Pi will write, and whether it exits in time;
- the completed `gh` process and the `json.loads` function.

Three behaviours of the code worth knowing:
- `execute_code` keeps the **last** `execute_result` it sees, so a later
  empty text hides an earlier non-empty one.
- Stdout made of whitespace only gives the output `""`, not `"(no output)"`.
- A shell reply that does not come within its wait raises `queue.Empty`,
  whose text is empty. `run` turns this into `{output: None, error: ""}`.

## Model

| member | source | states |
|---|---|---|
| `Ansi.StripAnsi` | worker/libs/github.py:51-53 | The result is never longer than the input, and text without an ESC character comes back unchanged. |
| `Ansi.StripDropsSgr` | worker/core/kernel_exec.py:70 | A colour sequence `ESC [ params m` in front of any text is removed completely. |
| `Ansi.StripKeepsPlain` | worker/libs/github.py:51-53 | A prefix without ESC is kept verbatim whatever follows it. |
| `Ansi.StripColored` | worker/core/kernel_exec.py:70 | Stripping pieces of plain text, each behind a colour sequence, gives back exactly the concatenated plain text. |
| `JsonValues.GetAttr` | worker/core/pi_rpc.py:172 | `.get` succeeds exactly on a dict, giving the value or the default; on anything else it raises `'T' object has no attribute 'get'`. |
| `KernelExec.RequestIdsDistinct` | worker/core/kernel_exec.py:173 | Different requests of one client carry different message ids. |
| `KernelExec.Consumed` | worker/core/kernel_exec.py:185-207 | The loop reads up to and including the first idle status of its own execution, and all messages when none comes; it never stops earlier. |
| `KernelExec.DrainCollectsStdout` | worker/core/kernel_exec.py:185-195 | The collected stdout chunks are exactly the `stdout` stream texts of this execution read before its idle status, in arrival order. Stderr and other executions' output are never collected. |
| `KernelExec.DrainIgnoresForeign` | worker/core/kernel_exec.py:188-190 | Draining the whole stream gives the same stdout, result value and error as draining only the messages of this execution. |
| `KernelExec.DrainSplits` | worker/core/kernel_exec.py:185-207 | A prefix without this execution's idle status is drained first, and the rest continues from its accumulators. |
| `KernelExec.DrainKeepsError` | worker/core/kernel_exec.py:200-202 | Without an error message of this execution, the error the shell reply set survives the drain. |
| `KernelExec.LastErrorWins` | worker/core/kernel_exec.py:200-202 | The last iopub error of the execution decides the error text: its traceback joined by newlines with colour codes removed, replacing any earlier error. |
| `KernelExec.DrainKeepsResult` | worker/core/kernel_exec.py:197-198 | Without an execute result of this execution, the result value survives the drain. |
| `KernelExec.LastResultWins` | worker/core/kernel_exec.py:197-198 | The last execute result of the execution decides the result value: its `text/plain`, or `""` without one, replacing any earlier value. |
| `KernelExec.EmptyResultHidesEarlier` | worker/core/kernel_exec.py:197-198 | A later execute result without `text/plain` turns an earlier `"42"` into `""`. |
| `KernelExec.Assemble` | worker/core/kernel_exec.py:209-218 | Exactly one of output and error is set. The error is set iff a non-empty error was collected. The output is `"(no output)"`, the right-stripped stdout, the result value, or both joined by a newline, as each is present. |
| `KernelExec.ExecuteOutcome` | worker/core/kernel_exec.py:172-218 | A missing shell reply raises; otherwise the result has exactly one field set. |
| `KernelExec.ExecutionIsolated` | worker/core/kernel_exec.py:188-190 | Two iopub streams with the same messages of this execution give the same result, however other executions' messages are interleaved. |
| `KernelExec.ShellErrorSuppressesOutput` | worker/core/kernel_exec.py:180-182 | An error in the shell reply, with no iopub error after it, gives the error result with the cleaned traceback and no output. |
| `KernelExec.KernelClient.Execute` | worker/core/kernel_exec.py:173 | The request is appended to those sent, and its id is that of its position. |
| `KernelExec.KernelClient.GetShellMsg` | worker/core/kernel_exec.py:179 | Takes the next shell reply; an empty queue is a timeout and takes nothing. |
| `KernelExec.KernelClient.GetIopubMsg` | worker/core/kernel_exec.py:187 | Takes the next iopub message; an empty queue is a timeout and takes nothing. |
| `KernelExec.KernelClient.StartChannels` | worker/core/kernel_exec.py:135 | The channels are open afterwards. |
| `KernelExec.KernelClient.StopChannels` | worker/core/kernel_exec.py:243 | The channels are closed afterwards. |
| `KernelExec.DrainIopub` | worker/core/kernel_exec.py:146-158 | Consumes exactly the messages up to and including the first idle status of `msg_id`, or all of them, and never raises. |
| `KernelExec.CollectIopub` | worker/core/kernel_exec.py:184-207 | The loop's stdout parts, result value and error equal the drain of the iopub stream from the shell reply's error, and it consumes exactly `Consumed` messages. |
| `KernelExec.ExecuteCode` | worker/core/kernel_exec.py:172-218 | Sends the request and returns `Execution` of the client state before the call, that is `ExecuteOutcome` of its next shell reply and iopub stream. It consumes one shell reply and the iopub messages through its idle status (`Answered`); on a shell timeout the queues are untouched. |
| `KernelExec.CodeOutcome` | worker/core/kernel_exec.py:236-242 | What the code of `run` gives on a client: with a `cwd` the directory change is executed first and its result discarded, then the code. It fails, with the empty timeout text, iff a shell reply it waits for never comes; a success has exactly one field set. |
| `KernelExec.ChangeDirDiscarded` | worker/core/kernel_exec.py:236-237 | With a `cwd`, whatever the directory change's shell reply says (an error included), the outcome of the code is the same. |
| `KernelExec.FirstReady` | worker/core/kernel_exec.py:106-120 | The index of the first poll whose handshake succeeds, bounded by 50, with every earlier poll failing. |
| `KernelExec.PollsMade` | worker/core/kernel_exec.py:106-127 | `start_kernel` polls at least once and at most 50 times. |
| `KernelExec.StartsUpSawConnectionFile` | worker/core/kernel_exec.py:107-120 | A kernel that starts up has had its connection file seen by the poll that answered. |
| `KernelExec.StartupHandshake` | worker/core/kernel_exec.py:108-120 | Sends the startup request and opens the channels. It succeeds iff the shell reply comes, and then the client is `Answered`: one reply and the iopub messages through idle are consumed. On failure the queues are untouched. |
| `KernelExec.Supervisor.StopKernel` | worker/core/kernel_exec.py:161-169 | Without a PID record nothing changes. Otherwise the recorded process is signalled, and then both record files are deleted, so `is_kernel_alive` no longer holds. |
| `KernelExec.Supervisor.StartKernel` | worker/core/kernel_exec.py:84-127 | The record is cleared before the spawn, and the new pid is written before the first poll, so afterwards `is_kernel_alive` holds. It succeeds iff `StartsUp`: a poll answers within 50 attempts and the new kernel's startup reply comes. The client returned is fresh, open, has sent only the startup request and is `Answered` on the new kernel. On failure it raises the startup timeout and leaves the PID record in place. |
| `KernelExec.Supervisor.PollReady` | worker/core/kernel_exec.py:106-127 | Makes exactly `PollsMade` polls, each ready poll with a fresh client on the new kernel, and succeeds iff `StartsUp`. The client returned has sent only the startup request and has consumed its reply and the iopub messages through idle; the rest of the kernel's iopub stream is left. The connection file is marked once a poll sees it. |
| `KernelExec.ConnectToKernel` | worker/core/kernel_exec.py:130-143 | A fresh client on the kernel. It succeeds iff the connection file loads and the warm-up reply comes; the client has then sent only the warm-up request and is `Answered` (the warm-up output drained). An unreadable file gives its error and a missing reply the timeout. |
| `KernelExec.Supervisor.EnsureKernel` | worker/core/kernel_exec.py:224-234 | A live kernel with a connection file is kept, record and connection file unchanged, when connecting to it works, and the client is `Answered` on the running kernel. A failed connect leads to exactly one stop and one start. Any other state leads to one start. After a start the connection file is present iff a poll saw it. Success iff the kernel is reused or the new one `StartsUp`; the client is always fresh and open. |
| `KernelExec.Supervisor.Run` | worker/core/kernel_exec.py:221-247 | The result is `Caught` of `CodeOutcome` on the client `Answered` on the reused kernel, or on the new one when it `StartsUp`. A kernel that does not start gives the startup timeout as the error. Any exception becomes `{output: None, error: str(e)}`. The PID record, the connection file, the live processes and the trace afterwards are stated for reuse, restart and fresh start. |
| `KernelExec.RunTwice` | worker/core/kernel_exec.py:221-234 | After a `run` that reused the kernel or started one that answers, the next `run` reuses it: its result comes from that kernel, nothing is spawned and the record stays as the first call left it. |
| `KernelExec.RunOnKernel` | worker/core/kernel_exec.py:236-244 | The result is `Caught` of `CodeOutcome` on the client state, so exactly one field is set. When the code ran, the requests sent are the directory change (with a `cwd`) and then the user code, and the channels are closed. |
| `PiRpc.ModelOrDefault` | worker/core/pi_rpc.py:37 | A given model is used; an absent or empty one becomes `anthropic/claude-haiku-4.5`. |
| `PiRpc.ExtensionFlags` | worker/core/pi_rpc.py:28-29 | Two flags per extension, `-e` then the extension, in the given order. |
| `PiRpc.InteractiveCommand` | worker/core/pi_rpc.py:19-30 | The command is the executable, `--model` and the model, followed by the option flags. |
| `PiRpc.RpcCommand` | worker/core/pi_rpc.py:53-62 | The command is the executable, `--mode rpc --no-session --model` and the model, followed by the option flags. |
| `PiRpc.ParseExtensionFlags` | worker/core/pi_rpc.py:28-29 | Reading the `-e` pairs back gives every extension, complete and in order. |
| `PiRpc.ParseToolFlagsBack` | worker/core/pi_rpc.py:24-29 | Reading the tool flags back shows that `--no-tools` wins over a tool list and an empty tool list is not passed. |
| `PiRpc.OptionFlagsRoundTrip` | worker/core/pi_rpc.py:55-62 | Reading the option flags back gives the system prompt when non-empty, `--no-tools` over `--tools`, and all extensions in order. |
| `PiRpc.WithPromptRoundTrip` | worker/core/pi_rpc.py:55-56 | With a system prompt, the flags read back with that prompt in front of the tool and extension flags. |
| `PiRpc.WithoutPromptRoundTrip` | worker/core/pi_rpc.py:57-62 | Without a system prompt, the tool and extension flags read back alone. |
| `PiRpc.FirstResponse` | worker/core/pi_rpc.py:99-107 | The index of the first line that is the response to the id, with no line before it being one. |
| `PiRpc.ResponseSkipsOthers` | worker/core/pi_rpc.py:102-108 | Lines that are not the response to this id, stale responses included, change neither the response found nor what is left. |
| `PiRpc.ResponseIsFirst` | worker/core/pi_rpc.py:99-107 | A response found answers this id. None is found iff no line answers it. |
| `PiRpc.MessagesFrom` | worker/core/pi_rpc.py:168-173 | Without a successful response the messages are `[]`. |
| `PiRpc.StatsFrom` | worker/core/pi_rpc.py:175-180 | Without a successful response the statistics are `{}`. |
| `PiRpc.ResponsesExtracted` | worker/core/pi_rpc.py:168-180 | A successful response gives back exactly its messages and its statistics; a failed one gives `[]` and `{}`. |
| `PiRpc.StreamEndIsFirst` | worker/core/pi_rpc.py:157-161 | The stream ends at an `agent_end`, and no `agent_end` comes before it. |
| `PiRpc.StreamEndAt` | worker/core/pi_rpc.py:116-161 | An index with no `agent_end` before it, holding one or at the end of the lines, is where the stream ends. |
| `PiRpc.TurnsAfter` | worker/core/pi_rpc.py:123-124 | Lines without `agent_end` add their `turn_start` events to the turns of what follows. |
| `PiRpc.TurnsBefore` | worker/core/pi_rpc.py:157-161 | Once `agent_end` has come, nothing after it changes the turn count. |
| `PiRpc.TurnsIgnoreOtherEvents` | worker/core/pi_rpc.py:129-155 | An event that is neither `turn_start` nor `agent_end`, such as a text delta, tool call or thinking summary, never changes the turn count. |
| `PiRpc.AgentEndStopsStream` | worker/core/pi_rpc.py:157-161 | After `agent_end` nothing more is read, and the turns are the `turn_start` events before it. |
| `PiRpc.FirstRaise` | worker/core/pi_rpc.py:129-155 | The index of the first event whose handling raises, with no event before it raising. |
| `PiRpc.RaiseEndsStream` | worker/core/pi_rpc.py:129-155 | The first raising `message_update` before any `agent_end` ends the stream with its error, and nothing after it is read. |
| `PiRpc.AgentEndEndsStream` | worker/core/pi_rpc.py:157-161 | When nothing before the first `agent_end` raises, the stream gives the `turn_start` events before it and reads nothing after it. |
| `PiRpc.QuietRaisesLess` | worker/core/pi_rpc.py:140-153 | A quiet session raises only where a displaying one raises the same error: the display code only adds failures. |
| `PiRpc.NullAssistantEventRaises` | worker/core/pi_rpc.py:130-131 | A `message_update` whose `assistantMessageEvent` is `null` raises `'NoneType' object has no attribute 'get'`. |
| `PiRpc.PiRPC.constructor` | worker/core/pi_rpc.py:36-46 | The model defaults, the other options are kept, the counter starts at 0, nothing is sent yet. |
| `PiRpc.PiRPC.Start` | worker/core/pi_rpc.py:53-62 | The process is started with `RpcCommand` and its input is open. |
| `PiRpc.PiRPC.Send` | worker/core/pi_rpc.py:84-91 | The counter rises by exactly 1. The command is written stamped with the decimal string of the new value, which is returned. |
| `PiRpc.PiRPC.ReadLine` | worker/core/pi_rpc.py:93-97 | Takes the next line, or nothing at end of stream. |
| `PiRpc.PiRPC.SendAndWait` | worker/core/pi_rpc.py:99-107 | Sends one stamped command and returns the first response to its id, or none at end of stream. Every line before that response is consumed. |
| `PiRpc.PiRPC.GetMessages` | worker/core/pi_rpc.py:168-173 | Sends `get_messages` and returns `MessagesFrom` the response to it. |
| `PiRpc.PiRPC.GetSessionStats` | worker/core/pi_rpc.py:175-180 | Sends `get_session_stats` and returns `StatsFrom` the response to it. |
| `PiRpc.PiRPC.StreamTurns` | worker/core/pi_rpc.py:115-161 | The result is `StreamOutcome`: the `turn_start` events before the first `agent_end`, or the error of the first `message_update` before it that raises. The lines are consumed through `agent_end`, or through the event that raised, and none after it. |
| `PiRpc.PiRPC.Prompt` | worker/core/pi_rpc.py:110-166 | Sends the prompt and streams its events. When the stream raises, that error is returned and nothing more is sent. Otherwise it sends `get_messages` and then `get_session_stats`, with ids n+1, n+2, n+3, and returns their answers and the turn count. An error from reading the messages ends it before the statistics. |
| `PiRpc.PiRPC.Abort` | worker/core/pi_rpc.py:182-183 | Sends exactly one `abort` command and reads nothing. |
| `PiRpc.PiRPC.Close` | worker/core/pi_rpc.py:185-198 | Without a process nothing happens. Otherwise the input is closed. A running process gets terminate, and kill only when it outlives the grace period. |
| `PiRpc.SentIdsDistinct` | worker/core/pi_rpc.py:84-91 | The ids of the commands of one session are pairwise distinct. |
| `GitHub.Head3` | worker/libs/github.py:64 | At most the first three arguments, as a prefix. |
| `GitHub.GhOutput` | worker/libs/github.py:56-66 | Fails iff the exit code is non-zero, with the first three arguments and the stripped stderr in the message. Otherwise it gives the stripped stdout, never longer than it, and unchanged apart from stripping when it holds no ESC. |
| `GitHub.GhJson` | worker/libs/github.py:69-74 | Empty output gives `[]`; other output is decoded; a failing command fails. |
| `GitHub.GhJsonBlank` | worker/libs/github.py:69-73 | Output made only of whitespace gives `[]`. |
| `GitHub.NormalizeAuthor` | worker/libs/github.py:79-80 | A dict `author` becomes its `login` or `""`. Any other author and every other key is unchanged, and no key is added. |
| `GitHub.LabelNames` | worker/libs/github.py:82 | One name per label, same length and order, `""` when missing; the first label that is not a dict raises. |
| `GitHub.NormalizeLabels` | worker/libs/github.py:81-82 | A non-empty label list whose first element is a dict becomes the list of names; any other `labels` value is untouched. |
| `GitHub.NormalizeItem` | worker/libs/github.py:77-83 | Rewrites the same dict in place and returns it, with fields equal to `Normalize` of the old fields. When a later label raises, the author is already rewritten. |
| `GitHub.NormalizeTouchesOnlyAuthorAndLabels` | worker/libs/github.py:77-83 | The keys stay the same, and every key other than `author` and `labels` keeps its value. |
| `GitHub.NormalizeIdempotent` | worker/libs/github.py:77-83 | Normalising an already normalised item changes nothing, when logins and label names are not dicts. |
| `GitHub.Record` | worker/libs/github.py:118-122 | A non-dict element raises. A dict element gives a record iff the shape has no author or its `author` is a dict, else the author's `.get` raises. The record has exactly the shape's keys, each taken from the element or defaulted to `""` or `0`, and the author is the login of the element's `author`. |
| `GitHub.MapRecords` | worker/libs/github.py:144-147 | One record per element, same length and order, or the error of the first element that fails. |
| `GitHub.Records` | worker/libs/github.py:149-152 | A list maps element by element to records of the shape. `None`, booleans and numbers are not iterable. |
| `GitHub.RecordOfEmpty` | worker/libs/github.py:143-152 | An element with none of the keys gives the record of defaults. |
| `GitHub.RecordNullAuthor` | worker/libs/github.py:120 | An `author` that is `null` raises. |
| `GitHub.NormalizeList` | worker/libs/github.py:118-122 | A present key is replaced by its records; an absent key leaves the dict alone. |
| `GitHub.GetIssue` | worker/libs/github.py:112-123 | The issue's comments become records and then the item is normalised. A non-object output raises the error of its first failing step (`NotADict` over `comments`). |
| `GitHub.GetPr` | worker/libs/github.py:137-153 | Files then reviews become records and then the item is normalised. A non-object output raises the error of its first failing step (`NotADict` over `files` then `reviews`). |
| `GitHub.NotADictIndexes` | worker/libs/github.py:118-121 | When a non-dict output holds one of the keys the getter looks for, it fails on indexing that key. |
| `GitHub.NotADictNormalises` | worker/libs/github.py:123 | When a list or string output holds none of the keys, the getter fails in `_normalize_item`. |
| `GitHub.PullRequestListWithReviews` | worker/libs/github.py:143-151 | A list holding `"reviews"` but not `"files"` fails on indexing at the reviews step. |
| `GitHub.IssueCommentsShaped` | worker/libs/github.py:118-123 | The comments returned have exactly the keys `author`, `body` and `createdAt`. |
| `GitHub.PullRequestListsShaped` | worker/libs/github.py:143-153 | Files have exactly `path`, `additions` and `deletions`, and reviews exactly `author`, `state` and `body`. |
| `GitHub.NonBlank` | worker/libs/github.py:170 | Only lines that are not blank, all taken from the input, no more of them than the input has. |
| `GitHub.NonBlankLine` | worker/libs/github.py:170 | A single line is kept iff it is not blank. |
| `GitHub.NonBlankAppend` | worker/libs/github.py:170 | The kept lines of a concatenation are the kept lines of each part, in order. |
| `GitHub.NonBlankFilters` | worker/libs/github.py:170 | A blank line is dropped and a non-blank line is kept in its place, wherever it stands, so the filter keeps exactly the non-blank lines in order. |
| `GitHub.NonBlankKeepsAll` | worker/libs/github.py:170 | Lines none of which is blank are all kept, in order. |
| `GitHub.CommitLines` | worker/libs/github.py:167-170 | Empty output gives no lines; every line kept is a single non-blank line of the stripped output. |
| `GitHub.ListCommits` | worker/libs/github.py:158-170 | One decoded object per kept line, in order; a failing command fails. |
| `GitHub.CommitLinesRoundTrip` | worker/libs/github.py:167-170 | Output of JSON lines joined by newlines gives those lines back one for one. |
| `GitHub.ListCommitsLines` | worker/libs/github.py:158-170 | A run that printed one JSON line per commit lists the decoding of each line, in order. |
| `Sdk.FirstNonBlankIs` | worker/libs/sdk.py:31-34 | The first line that is not blank is where the scan stops. |
| `Sdk.FindText` | worker/libs/sdk.py:31-35 | The loop stops at the first line that is not blank after stripping, or at the end. |
| `Sdk.FirstLine` | worker/libs/sdk.py:27-35 | A missing or empty docstring gives `"(no description)"`; otherwise the description of its stripped lines. |
| `Sdk.DescribeFirst` | worker/libs/sdk.py:31-34 | The description is the first line that is not blank, stripped and without its trailing dots. |
| `Sdk.DescribeAllBlank` | worker/libs/sdk.py:35 | When every line is blank there is no description. |
| `Sdk.DescriptionHasNoFinalDot` | worker/libs/sdk.py:34 | A description never ends with a dot. It is empty iff the first line that is not blank is made only of dots. |
| `Sdk.AllBlankHasNoDescription` | worker/libs/sdk.py:29-35 | A docstring of whitespace only gives `"(no description)"`. |
| `Sdk.OneLineDescription` | worker/libs/sdk.py:31-34 | A one-line docstring is described by itself, stripped and without its trailing dots. |
| `Sdk.LongestName` | worker/libs/sdk.py:76 | No name is longer than the width. |
| `Sdk.LongestNameAttained` | worker/libs/sdk.py:76 | Some name has exactly the width. |
| `Sdk.PadRight` | worker/libs/sdk.py:79 | The name, then spaces up to the width; a longer name is kept whole. |
| `Sdk.Rows` | worker/libs/sdk.py:78-79 | One line per tool, in input order. |
| `Sdk.RowShape` | worker/libs/sdk.py:79 | Two spaces, the name, spaces up to the width, two spaces, the description. |
| `Sdk.RowLayout` | worker/libs/sdk.py:76-79 | Every line of a listing has that layout at the longest name's width, so the descriptions line up. |
| `Sdk.RowIsOneLine` | worker/libs/sdk.py:79 | A line has no newline when the name and the description have none. |
| `Sdk.List` | worker/libs/sdk.py:69-80 | The loop appends one line per tool and joins them with newlines; no tools gives `"No tools found in libs/"`. |
| `Sdk.ListingLines` | worker/libs/sdk.py:76-80 | The listing splits back at newlines into exactly one line per tool, in input order. |
| `Sdk.EmptyListing` | worker/libs/sdk.py:73-74 | The listing is `"No tools found in libs/"` iff no tool was found. |

## Left out

- Operating-system primitives are left out: the Windows `ctypes` calls, `os.kill`, signals and the reading of the PID file. Liveness is a set of pids, and killing removes the pid from it.
- subprocess.Popen, `asyncio.create_subprocess_exec` and `jupyter_client` are external libraries. The model replaces them with message queues, line sequences and outcome parameters.
- Sleeps and read timeouts are not modelled: a timeout is the end of a queue, and the five-second startup bound is the 50-poll counter.
- JSON encoding and decoding are not modelled: messages and lines are Dafny values, and `json.loads` is a parameter. A Pi line that is not a JSON object is not modelled.
- Logging (`_log`, `log.*`) and every `print` in `prompt` only display and write files, so they are left out. The exceptions raised while evaluating their arguments are modelled by `PiRpc.UpdateError`.
- `print_stats` formats floating-point costs, so it is left out.
- main/argparse of the executor, `worker/demo.py` and `agent.py` are command-line plumbing. They are not part of this model.
- `PiRPC.__aenter__`/`__aexit__` only call `start` and `close`, and the asynchronous scheduling is not modelled: a single sequential caller is assumed.
- `PiRPC.__init__` also takes `cwd` and `log_dir`; they only affect the working directory and logging.
- PiRpc.PiRPC.Send, ReadLine, SendAndWait, GetMessages, GetSessionStats, StreamTurns, Prompt and Abort require a started session. Used before `start`, the source raises `AttributeError` on the missing process; that path is not modelled.
- `list_repos`, `search_issues`, `list_prs`, `list_runs`, `get_checks`, `_discover_modules` and `help` are left out. They are `gh` pass-throughs, or rely on `importlib`/`inspect` reflection.
- The executor's request code strings built with `repr` are named by the `Request` datatype rather than spelled out.
- KernelExec.RequestId: the client's message ids are `msg_` and a counter, standing in for the library's unique ids.
- KernelExec.Supervisor.PollReady: every poll's client sees the same replies of the new kernel, so a startup reply that times out on one poll times out on every later one.
- GitHub.GetIssue and GitHub.GetPr take the decoded `gh` output rather than the `gh` run. Their arguments beyond the first three (the repository and the JSON field list) are not modelled.
- GitHub.NotADict and PiRpc.ThinkingError: some exception texts differ between Python versions (indexing a string by a string, slicing a dict); the model uses the wording of Python 3.12.
- Dict key order is not modelled: a dict is a map.
- PiRpc.StatsFrom and PiRpc.MessagesFrom state only the default cases in their own contracts. The success cases are stated by `PiRpc.ResponsesExtracted`.
