/** The persistent Python kernel executor: running one piece of code on a
    long-lived Jupyter kernel and collecting only the messages that belong to
    it, and supervising that kernel through its PID and connection records.

    The kernel is seen through a client holding two queues of messages it
    will deliver: shell replies and iopub (broadcast) messages. Reading from
    an exhausted queue is the read timeout. The operating system is a set of
    live process ids. */
module KernelExec {
  import opened Wrappers
  import opened Strings
  import Ansi

  // ---------------------------------------------------------------------
  // Messages

  /** The reply on the shell channel to an execute request. An absent
      `traceback` key reads as the empty list. */
  datatype ShellReply = ShellReply(status: string, traceback: seq<string>)

  /** The content of an iopub message, by message type. `ExecuteResult` holds
      the MIME bundle `data`; `Other` is any type the executor does not look at. */
  datatype Content =
    | Stream(name: string, text: string)
    | ExecuteResult(data: map<string, string>)
    | ErrorTrace(traceback: seq<string>)
    | Status(executionState: string)
    | Other(msgType: string)

  /** An iopub message; `parentId` is the `msg_id` of its parent header, when it has one. */
  datatype IopubMsg = IopubMsg(parentId: Option<string>, content: Content)

  /** What the client sends to the kernel. The code strings the source builds
      with `repr` are named by what they do. */
  datatype Request =
    | Startup              // put the worker directory on the kernel's import path
    | Warmup               // `pass`, to warm the iopub subscription
    | ChangeDir(path: string)
    | UserCode(code: string)

  /** The message id the client stamps on its `n`-th request. */
  function RequestId(n: nat): string {
    "msg_" + Decimal(n)
  }

  lemma {:induction false} RequestIdsDistinct(a: nat, b: nat)
    requires a != b
    ensures RequestId(a) != RequestId(b)
  {
    if RequestId(a) == RequestId(b) {
      assert Decimal(a) == RequestId(a)[4..];
      assert Decimal(b) == RequestId(b)[4..];
      DecimalInjective(a, b);
    }
  }

  // ---------------------------------------------------------------------
  // Collecting the messages of one execution

  /** An error trace as shown to the caller: the lines joined by newlines and
      the colour codes removed. */
  function CleanTrace(traceback: seq<string>): string {
    Ansi.StripAnsi(Join(traceback, "\n"))
  }

  predicate IsOwn(id: string, m: IopubMsg) {
    m.parentId == Some(id)
  }

  /** The status message that ends the execution `id`. */
  predicate IsIdleFor(id: string, m: IopubMsg) {
    IsOwn(id, m) && m.content.Status? && m.content.executionState == "idle"
  }

  /** The messages of `msgs` that belong to execution `id`, in arrival order. */
  function Own(id: string, msgs: seq<IopubMsg>): (r: seq<IopubMsg>)
    decreases |msgs|
  {
    if msgs == [] then []
    else if IsOwn(id, msgs[0]) then [msgs[0]] + Own(id, msgs[1..])
    else Own(id, msgs[1..])
  }

  /** The three accumulators of `execute_code`. */
  datatype Collected = Collected(stdoutParts: seq<string>, resultValue: Option<string>, error: Option<string>)

  /** The effect of one message that belongs to the execution and is not its idle status. */
  function Absorb(c: Collected, content: Content): Collected {
    match content
    case Stream(name, text) => if name == "stdout" then c.(stdoutParts := c.stdoutParts + [text]) else c
    case ExecuteResult(data) => c.(resultValue := Some(if "text/plain" in data then data["text/plain"] else ""))
    case ErrorTrace(traceback) => c.(error := Some(CleanTrace(traceback)))
    case _ => c
  }

  /** The accumulators once the drain loop ends: it stops at the first idle
      status of `id`, or when the stream runs dry. */
  function Drain(id: string, c: Collected, msgs: seq<IopubMsg>): Collected
    decreases |msgs|
  {
    if msgs == [] then c
    else if IsIdleFor(id, msgs[0]) then c
    else if !IsOwn(id, msgs[0]) then Drain(id, c, msgs[1..])
    else Drain(id, Absorb(c, msgs[0].content), msgs[1..])
  }

  /** How many messages the drain loop reads: up to and including the first
      idle status of `id`, or all of them when there is none. */
  function Consumed(id: string, msgs: seq<IopubMsg>): (n: nat)
    ensures n <= |msgs|
    ensures msgs != [] ==> n > 0
    ensures forall i | 0 <= i && i + 1 < n :: !IsIdleFor(id, msgs[i])
    ensures 0 < n && !IsIdleFor(id, msgs[n - 1]) ==> n == |msgs|
    decreases |msgs|
  {
    if msgs == [] then 0
    else if IsIdleFor(id, msgs[0]) then 1
    else 1 + Consumed(id, msgs[1..])
  }

  /** The texts of the stdout stream messages of `id`, in arrival order: the
      reference against which `Drain` is checked. */
  function StdoutOf(id: string, msgs: seq<IopubMsg>): seq<string>
    decreases |msgs|
  {
    if msgs == [] then []
    else
      var m := msgs[0];
      var here := if IsOwn(id, m) && m.content.Stream? && m.content.name == "stdout" then [m.content.text] else [];
      here + StdoutOf(id, msgs[1..])
  }

  /** The collected stdout is exactly the stdout chunks of this execution read
      before its idle status, in arrival order: stderr chunks and the chunks of
      other executions are never collected. */
  lemma {:induction false} DrainCollectsStdout(id: string, c: Collected, msgs: seq<IopubMsg>)
    ensures Drain(id, c, msgs).stdoutParts == c.stdoutParts + StdoutOf(id, msgs[..Consumed(id, msgs)])
    decreases |msgs|
  {
    if msgs == [] {
    } else if IsIdleFor(id, msgs[0]) {
      assert msgs[..1] == [msgs[0]];
      assert StdoutOf(id, msgs[..1]) == [] + StdoutOf(id, []);
    } else {
      var c' := if IsOwn(id, msgs[0]) then Absorb(c, msgs[0].content) else c;
      DrainCollectsStdout(id, c', msgs[1..]);
      var n := Consumed(id, msgs);
      assert msgs[..n][0] == msgs[0];
      assert msgs[..n][1..] == msgs[1..][..n - 1];
    }
  }

  /** Messages of other executions change nothing: draining the whole stream
      gives the same accumulators as draining only the messages of `id`. */
  lemma {:induction false} DrainIgnoresForeign(id: string, c: Collected, msgs: seq<IopubMsg>)
    ensures Drain(id, c, msgs) == Drain(id, c, Own(id, msgs))
    decreases |msgs|
  {
    if msgs != [] {
      if IsOwn(id, msgs[0]) {
        var own := Own(id, msgs);
        assert own[0] == msgs[0] && own[1..] == Own(id, msgs[1..]);
        DrainIgnoresForeign(id, Absorb(c, msgs[0].content), msgs[1..]);
      } else {
        DrainIgnoresForeign(id, c, msgs[1..]);
      }
    }
  }

  /** A prefix without the idle status of `id` is drained first, then the rest. */
  lemma {:induction false} DrainSplits(id: string, c: Collected, pre: seq<IopubMsg>, rest: seq<IopubMsg>)
    requires forall i | 0 <= i < |pre| :: !IsIdleFor(id, pre[i])
    ensures Drain(id, c, pre + rest) == Drain(id, Drain(id, c, pre), rest)
    decreases |pre|
  {
    if pre == [] {
      assert pre + rest == rest;
    } else {
      assert (pre + rest)[0] == pre[0];
      assert (pre + rest)[1..] == pre[1..] + rest;
      var c' := if IsOwn(id, pre[0]) then Absorb(c, pre[0].content) else c;
      DrainSplits(id, c', pre[1..], rest);
    }
  }

  /** Draining messages that hold no error and no idle status of `id` keeps the error. */
  lemma {:induction false} DrainKeepsError(id: string, c: Collected, msgs: seq<IopubMsg>)
    requires forall i | 0 <= i < |msgs| :: !(IsOwn(id, msgs[i]) && msgs[i].content.ErrorTrace?)
    ensures Drain(id, c, msgs).error == c.error
    decreases |msgs|
  {
    if msgs != [] && !IsIdleFor(id, msgs[0]) {
      var c' := if IsOwn(id, msgs[0]) then Absorb(c, msgs[0].content) else c;
      DrainKeepsError(id, c', msgs[1..]);
    }
  }

  /** The last error message of the execution before its idle status decides
      the error text, whatever came before it (an earlier error included). */
  lemma {:induction false} LastErrorWins(id: string, c: Collected, pre: seq<IopubMsg>, traceback: seq<string>, post: seq<IopubMsg>)
    requires forall i | 0 <= i < |pre| :: !IsIdleFor(id, pre[i])
    requires forall i | 0 <= i < |post| :: !(IsOwn(id, post[i]) && post[i].content.ErrorTrace?)
    ensures Drain(id, c, pre + [IopubMsg(Some(id), ErrorTrace(traceback))] + post).error == Some(CleanTrace(traceback))
  {
    var e := IopubMsg(Some(id), ErrorTrace(traceback));
    assert pre + [e] + post == pre + ([e] + post);
    DrainSplits(id, c, pre, [e] + post);
    var c' := Drain(id, c, pre);
    assert ([e] + post)[1..] == post;
    DrainKeepsError(id, Absorb(c', e.content), post);
  }

  /** Draining messages that hold no execute result and no idle status of `id` keeps the result value. */
  lemma {:induction false} DrainKeepsResult(id: string, c: Collected, msgs: seq<IopubMsg>)
    requires forall i | 0 <= i < |msgs| :: !(IsOwn(id, msgs[i]) && msgs[i].content.ExecuteResult?)
    ensures Drain(id, c, msgs).resultValue == c.resultValue
    decreases |msgs|
  {
    if msgs != [] && !IsIdleFor(id, msgs[0]) {
      var c' := if IsOwn(id, msgs[0]) then Absorb(c, msgs[0].content) else c;
      DrainKeepsResult(id, c', msgs[1..]);
    }
  }

  /** The last execute result of the execution before its idle status decides
      the result value: its `text/plain`, or `""` without one, replacing any
      earlier value. */
  lemma {:induction false} LastResultWins(id: string, c: Collected, pre: seq<IopubMsg>, data: map<string, string>, post: seq<IopubMsg>)
    requires forall i | 0 <= i < |pre| :: !IsIdleFor(id, pre[i])
    requires forall i | 0 <= i < |post| :: !(IsOwn(id, post[i]) && post[i].content.ExecuteResult?)
    ensures Drain(id, c, pre + [IopubMsg(Some(id), ExecuteResult(data))] + post).resultValue
            == Some(if "text/plain" in data then data["text/plain"] else "")
  {
    var e := IopubMsg(Some(id), ExecuteResult(data));
    assert pre + [e] + post == pre + ([e] + post);
    DrainSplits(id, c, pre, [e] + post);
    var c' := Drain(id, c, pre);
    assert ([e] + post)[1..] == post;
    DrainKeepsResult(id, Absorb(c', e.content), post);
  }

  /** A later execute result without `text/plain` hides an earlier non-empty one. */
  lemma {:induction false} EmptyResultHidesEarlier(id: string, c: Collected)
    ensures var earlier := IopubMsg(Some(id), ExecuteResult(map["text/plain" := "42"]));
      Drain(id, c, [earlier, IopubMsg(Some(id), ExecuteResult(map[]))]).resultValue == Some("")
  {
    var earlier := IopubMsg(Some(id), ExecuteResult(map["text/plain" := "42"]));
    assert !IsIdleFor(id, earlier);
    LastResultWins(id, c, [earlier], map[], []);
    assert [earlier] + [IopubMsg(Some(id), ExecuteResult(map[]))] + [] == [earlier, IopubMsg(Some(id), ExecuteResult(map[]))];
  }

  /** The two results of an execution: exactly one of them is set. */
  datatype ExecResult = ExecResult(output: Option<string>, error: Option<string>)

  const NoOutput := "(no output)"

  /** The final assembly of `execute_code`. A non-empty error wins over all
      output; otherwise the right-stripped stdout text comes first and a
      non-empty result value follows it on a new line. */
  function Assemble(c: Collected): (r: ExecResult)
    ensures (r.output == None) != (r.error == None)
    ensures r.error.Some? <==> c.error.Some? && c.error.value != ""
    ensures r.error.Some? ==> r.error == c.error
    ensures r.output.Some? ==>
      var hasResult := c.resultValue.Some? && c.resultValue.value != "";
      && (c.stdoutParts == [] && !hasResult ==> r.output.value == NoOutput)
      && (c.stdoutParts != [] && !hasResult ==> r.output.value == RStrip(Concat(c.stdoutParts)))
      && (c.stdoutParts == [] && hasResult ==> r.output.value == c.resultValue.value)
      && (c.stdoutParts != [] && hasResult ==>
            r.output.value == RStrip(Concat(c.stdoutParts)) + "\n" + c.resultValue.value)
  {
    if c.error.Some? && c.error.value != "" then ExecResult(None, c.error)
    else
      var parts :=
        (if c.stdoutParts != [] then [RStrip(Concat(c.stdoutParts))] else [])
        + (if c.resultValue.Some? && c.resultValue.value != "" then [c.resultValue.value] else []);
      assert |parts| == 2 ==> Join(parts, "\n") == parts[0] + "\n" + parts[1];
      ExecResult(Some(if parts != [] then Join(parts, "\n") else NoOutput), None)
  }

  /** The error a shell reply reports, if any. */
  function ShellError(reply: ShellReply): Option<string> {
    if reply.status == "error" then Some(CleanTrace(reply.traceback)) else None
  }

  /** `str()` of the exception raised when a read on a channel times out (`queue.Empty`). */
  const TimeoutMessage := ""

  /** What `execute_code` returns for the request `id`, given its shell reply
      (none: the 30-second wait timed out and the exception escapes) and the
      iopub messages that follow. */
  function ExecuteOutcome(id: string, reply: Option<ShellReply>, msgs: seq<IopubMsg>): (r: Result<ExecResult>)
    ensures r.Failure? <==> reply.None?
    ensures r.Success? ==> (r.value.output == None) != (r.value.error == None)
  {
    if reply.None? then Failure(TimeoutMessage)
    else Success(Assemble(Drain(id, Collected([], None, ShellError(reply.value)), msgs)))
  }

  /** Message isolation: two iopub streams that hold the same messages of this
      execution, however the messages of other executions are interleaved
      with them, give the same result. */
  lemma {:induction false} ExecutionIsolated(id: string, reply: Option<ShellReply>, a: seq<IopubMsg>, b: seq<IopubMsg>)
    requires Own(id, a) == Own(id, b)
    ensures ExecuteOutcome(id, reply, a) == ExecuteOutcome(id, reply, b)
  {
    if reply.Some? {
      var c := Collected([], None, ShellError(reply.value));
      DrainIgnoresForeign(id, c, a);
      DrainIgnoresForeign(id, c, b);
    }
  }

  /** An error reported by the shell reply suppresses all output unless an
      iopub error of the same execution replaces it. */
  lemma {:induction false} ShellErrorSuppressesOutput(id: string, reply: ShellReply, msgs: seq<IopubMsg>)
    requires reply.status == "error" && CleanTrace(reply.traceback) != ""
    requires forall i | 0 <= i < |msgs| :: !(IsOwn(id, msgs[i]) && msgs[i].content.ErrorTrace?)
    ensures ExecuteOutcome(id, Some(reply), msgs) == Success(ExecResult(None, Some(CleanTrace(reply.traceback))))
  {
    DrainKeepsError(id, Collected([], None, ShellError(reply)), msgs);
  }

  // ---------------------------------------------------------------------
  // A client's view of a kernel

  /** What a kernel will say to a client that connects to it: the replies
      that will come on its shell channel and the messages on its iopub
      channel. */
  datatype Replies = Replies(shell: seq<ShellReply>, iopub: seq<IopubMsg>)

  /** How many requests a client has sent, and what is still to come on its
      two channels. */
  datatype ClientState = ClientState(sent: nat, shell: seq<ShellReply>, iopub: seq<IopubMsg>)

  /** A client that has just connected to a kernel. */
  function Connected(kernel: Replies): ClientState {
    ClientState(0, kernel.shell, kernel.iopub)
  }

  /** The next shell reply, or none when the wait for it times out. */
  function NextReply(shell: seq<ShellReply>): Option<ShellReply> {
    if shell == [] then None else Some(shell[0])
  }

  /** The client after its next request is answered on the shell channel and
      the iopub messages are read through that request's idle status. */
  function Answered(s: ClientState): ClientState
    requires s.shell != []
  {
    ClientState(s.sent + 1, s.shell[1..], s.iopub[Consumed(RequestId(s.sent), s.iopub)..])
  }

  /** What `execute_code` gives as the next request of a client in state `s`. */
  function Execution(s: ClientState): Result<ExecResult> {
    ExecuteOutcome(RequestId(s.sent), NextReply(s.shell), s.iopub)
  }

  /** `if cwd:` */
  predicate ChangesDir(cwd: Option<string>) {
    cwd.Some? && cwd.value != ""
  }

  /** What the second half of `run` gives on a ready client: the directory
      change when `cwd` is non-empty, whose result is dropped although a
      missing reply to it raises, and then the code itself. */
  function CodeOutcome(s: ClientState, cwd: Option<string>): (r: Result<ExecResult>)
    ensures r.Failure? <==> s.shell == [] || (ChangesDir(cwd) && |s.shell| == 1)
    ensures r.Failure? ==> r.error == TimeoutMessage
    ensures r.Success? ==> (r.value.output == None) != (r.value.error == None)
  {
    if ChangesDir(cwd) then
      if s.shell == [] then Failure(TimeoutMessage) else Execution(Answered(s))
    else Execution(s)
  }

  /** The handler of `run`: a raised exception becomes an error result whose
      text is `str()` of the exception. */
  function Caught(o: Result<ExecResult>): ExecResult {
    match o
    case Success(v) => v
    case Failure(e) => ExecResult(None, Some(e))
  }

  /** Only whether the directory change is answered matters: what its reply
      and its iopub messages say does not reach the result of `run`. */
  lemma {:induction false} ChangeDirDiscarded(n: nat, a: ShellReply, b: ShellReply, shell: seq<ShellReply>,
                                              iopub: seq<IopubMsg>, cwd: Option<string>)
    requires ChangesDir(cwd)
    ensures CodeOutcome(ClientState(n, [a] + shell, iopub), cwd) == CodeOutcome(ClientState(n, [b] + shell, iopub), cwd)
  {
    assert ([a] + shell)[1..] == shell == ([b] + shell)[1..];
  }

  // ---------------------------------------------------------------------
  // The kernel client

  /** A client connected to the kernel: the requests it has sent and the
      replies still waiting on its shell and iopub channels. */
  class KernelClient {
    var requests: seq<Request>
    var shell: seq<ShellReply>
    var iopub: seq<IopubMsg>
    var channelsOpen: bool

    /** The client's position: requests sent and what is left to read. */
    function State(): ClientState
      reads this
    {
      ClientState(|requests|, shell, iopub)
    }

    constructor (shell: seq<ShellReply>, iopub: seq<IopubMsg>)
      ensures this.shell == shell && this.iopub == iopub
      ensures requests == [] && !channelsOpen
    {
      this.shell := shell;
      this.iopub := iopub;
      requests := [];
      channelsOpen := false;
    }

    method StartChannels()
      modifies this`channelsOpen
      ensures channelsOpen
    {
      channelsOpen := true;
    }

    method StopChannels()
      modifies this`channelsOpen
      ensures !channelsOpen
    {
      channelsOpen := false;
    }

    /** `kc.execute`: sends the request and returns its message id. */
    method Execute(req: Request) returns (id: string)
      modifies this`requests
      ensures requests == old(requests) + [req]
      ensures id == RequestId(|old(requests)|)
    {
      id := RequestId(|requests|);
      requests := requests + [req];
    }

    /** `kc.get_shell_msg`: the next shell reply, or none on timeout. */
    method GetShellMsg() returns (reply: Option<ShellReply>)
      modifies this`shell
      ensures reply == (if old(shell) == [] then None else Some(old(shell)[0]))
      ensures shell == (if old(shell) == [] then [] else old(shell)[1..])
    {
      if shell == [] {
        reply := None;
      } else {
        reply := Some(shell[0]);
        shell := shell[1..];
      }
    }

    /** `kc.get_iopub_msg`: the next iopub message, or none on timeout. */
    method GetIopubMsg() returns (msg: Option<IopubMsg>)
      modifies this`iopub
      ensures msg == (if old(iopub) == [] then None else Some(old(iopub)[0]))
      ensures iopub == (if old(iopub) == [] then [] else old(iopub)[1..])
    {
      if iopub == [] {
        msg := None;
      } else {
        msg := Some(iopub[0]);
        iopub := iopub[1..];
      }
    }
  }

  /** `_drain_iopub`: reads iopub messages up to the idle status of `id` and
      no further; a timeout also ends it, without an error. */
  method DrainIopub(kc: KernelClient, id: string)
    modifies kc`iopub
    ensures kc.iopub == old(kc.iopub)[Consumed(id, old(kc.iopub))..]
  {
    ghost var msgs := kc.iopub;
    while true
      invariant |kc.iopub| <= |msgs| && kc.iopub == msgs[|msgs| - |kc.iopub|..]
      invariant Consumed(id, msgs) == |msgs| - |kc.iopub| + Consumed(id, kc.iopub)
      decreases |kc.iopub|
    {
      var m := kc.GetIopubMsg();
      if m.None? {
        break;
      }
      if IsIdleFor(id, m.value) {
        break;
      }
    }
  }

  /** One step of the drain loop on the message at index `k`. */
  lemma {:induction false} DrainStep(id: string, c: Collected, msgs: seq<IopubMsg>, k: nat)
    requires k < |msgs|
    ensures msgs[k..] == [msgs[k]] + msgs[k + 1..]
    ensures IsIdleFor(id, msgs[k]) ==> Drain(id, c, msgs[k..]) == c && Consumed(id, msgs[k..]) == 1
    ensures !IsIdleFor(id, msgs[k]) ==> Consumed(id, msgs[k..]) == 1 + Consumed(id, msgs[k + 1..])
    ensures !IsIdleFor(id, msgs[k]) && !IsOwn(id, msgs[k]) ==> Drain(id, c, msgs[k..]) == Drain(id, c, msgs[k + 1..])
    ensures !IsIdleFor(id, msgs[k]) && IsOwn(id, msgs[k]) ==>
      Drain(id, c, msgs[k..]) == Drain(id, Absorb(c, msgs[k].content), msgs[k + 1..])
  {
    assert msgs[k..][1..] == msgs[k + 1..];
  }

  /** The message loop of `execute_code`: starting from the error the shell
      reply reported, reads the iopub messages of `id` up to its idle status,
      skipping those of other executions, and collects stdout chunks, the
      result value and the error. */
  method CollectIopub(kc: KernelClient, id: string, shellError: Option<string>)
    returns (stdoutParts: seq<string>, resultValue: Option<string>, error: Option<string>)
    modifies kc`iopub
    ensures Collected(stdoutParts, resultValue, error) == Drain(id, Collected([], None, shellError), old(kc.iopub))
    ensures kc.iopub == old(kc.iopub)[Consumed(id, old(kc.iopub))..]
  {
    stdoutParts, resultValue, error := [], None, shellError;
    ghost var msgs := kc.iopub;
    ghost var start := Collected(stdoutParts, resultValue, error);
    ghost var k := 0;
    while true
      invariant k <= |msgs| && kc.iopub == msgs[k..]
      invariant Drain(id, Collected(stdoutParts, resultValue, error), msgs[k..]) == Drain(id, start, msgs)
      invariant Consumed(id, msgs) == k + Consumed(id, msgs[k..])
      decreases |msgs| - k
    {
      ghost var before := Collected(stdoutParts, resultValue, error);
      var m := kc.GetIopubMsg();
      if m.None? {
        break;
      }
      var msg := m.value;
      DrainStep(id, before, msgs, k);
      k := k + 1;
      if msg.parentId != Some(id) {
        continue;
      }
      if IsIdleFor(id, msg) {
        break;
      }
      match msg.content {
        case Stream(name, text) =>
          if name == "stdout" {
            stdoutParts := stdoutParts + [text];
          }
        case ExecuteResult(data) =>
          resultValue := Some(if "text/plain" in data then data["text/plain"] else "");
        case ErrorTrace(traceback) =>
          error := Some(CleanTrace(traceback));
        case Status(_) =>
        case Other(_) =>
      }
      assert Collected(stdoutParts, resultValue, error) == Absorb(before, msg.content);
    }
  }

  /** `execute_code`: sends `req`, reads its shell reply, then drains the
      iopub messages that belong to it until its idle status. A shell reply
      that never comes raises, and the iopub channel is then left untouched. */
  method ExecuteCode(kc: KernelClient, req: Request) returns (r: Result<ExecResult>)
    modifies kc`requests, kc`shell, kc`iopub
    ensures kc.requests == old(kc.requests) + [req]
    ensures r == Execution(old(kc.State()))
    ensures r.Success? ==> (r.value.output == None) != (r.value.error == None)
    ensures old(kc.shell) == [] ==> kc.shell == [] && kc.iopub == old(kc.iopub)
    ensures old(kc.shell) != [] ==> kc.State() == Answered(old(kc.State()))
  {
    var id := kc.Execute(req);
    assert id == RequestId(|old(kc.requests)|);
    var reply := kc.GetShellMsg();
    if reply.None? {
      return Failure(TimeoutMessage);
    }
    assert reply == Some(old(kc.shell)[0]) && kc.iopub == old(kc.iopub);
    var shellError: Option<string> := None;
    if reply.value.status == "error" {
      shellError := Some(CleanTrace(reply.value.traceback));
    }
    var stdoutParts, resultValue, error := CollectIopub(kc, id, shellError);
    r := Success(Assemble(Collected(stdoutParts, resultValue, error)));
  }

  // ---------------------------------------------------------------------
  // The supervisor

  /** What one readiness poll of `start_kernel` finds: no connection file yet,
      a connection file whose handshake fails, or a kernel that answers. */
  datatype Attempt = NotWritten | HandshakeFails | HandshakeOk

  /** The effects of the supervisor on the outside world, in order. */
  datatype SupervisorEvent =
    | RecordCleared        // the PID file and the connection file are deleted
    | Spawned(pid: int)    // a detached kernel process is started
    | PidWritten(pid: int) // the PID file now holds `pid`
    | Polled               // one readiness attempt
    | Signalled(pid: int)  // termination is requested for `pid`

  const MaxAttempts: nat := 50
  const StartupTimeout := "Kernel failed to start within 5 seconds"
  /** Stands for the text of whatever exception loading the connection file
      raises; `run` only logs it before restarting, so its wording never
      reaches a result. */
  const ConnectionUnreadable := "connection file could not be loaded"

  /** The poll at index `i`: polls beyond the given ones find nothing. */
  function AttemptAt(attempts: seq<Attempt>, i: nat): Attempt {
    if i < |attempts| then attempts[i] else NotWritten
  }

  /** The index of the first answering poll at or after `from`, or `MaxAttempts`. */
  function FirstReady(attempts: seq<Attempt>, from: nat): (n: nat)
    requires from <= MaxAttempts
    ensures from <= n <= MaxAttempts
    ensures n < MaxAttempts ==> AttemptAt(attempts, n) == HandshakeOk
    ensures forall j | from <= j < n :: AttemptAt(attempts, j) != HandshakeOk
    decreases MaxAttempts - from
  {
    if from == MaxAttempts then from
    else if AttemptAt(attempts, from) == HandshakeOk then from
    else FirstReady(attempts, from + 1)
  }

  /** How many polls `start_kernel` makes: up to the first answering one when
      the startup request is answered, all fifty otherwise. */
  function PollsMade(attempts: seq<Attempt>, replyComes: bool): (n: nat)
    ensures 1 <= n <= MaxAttempts
  {
    var k := FirstReady(attempts, 0);
    if replyComes && k < MaxAttempts then k + 1 else MaxAttempts
  }

  /** Whether one of the first `n` polls saw the connection file. */
  function SawConnectionFile(attempts: seq<Attempt>, n: nat): bool {
    if n == 0 then false else SawConnectionFile(attempts, n - 1) || AttemptAt(attempts, n - 1) != NotWritten
  }

  function Polls(n: nat): (r: seq<SupervisorEvent>)
    ensures |r| == n && forall i | 0 <= i < n :: r[i] == Polled
  {
    seq(n, _ => Polled)
  }

  /** The events of one `start_kernel`: the old record goes first, and the
      new pid is on disk before the first poll. */
  function StartEvents(pid: int, polls: nat): seq<SupervisorEvent> {
    [RecordCleared, Spawned(pid), PidWritten(pid)] + Polls(polls)
  }


  /** `start_kernel` is ready: a poll answers within fifty, and the new
      kernel answers the startup request. */
  predicate StartsUp(kernel: Replies, attempts: seq<Attempt>) {
    FirstReady(attempts, 0) < MaxAttempts && kernel.shell != []
  }

  /** A kernel that starts up has written its connection file: the poll that
      answered found it. */
  lemma {:induction false} StartsUpSawConnectionFile(kernel: Replies, attempts: seq<Attempt>)
    requires StartsUp(kernel, attempts)
    ensures SawConnectionFile(attempts, PollsMade(attempts, kernel.shell != []))
  {
    var k := FirstReady(attempts, 0);
    assert PollsMade(attempts, true) == k + 1;
    assert AttemptAt(attempts, k) == HandshakeOk;
  }

  /** The body of one answered readiness poll: the startup request is sent and,
      when its shell reply comes, its iopub messages are drained. A missing
      reply raises, which the poll loop swallows. */
  method StartupHandshake(kc: KernelClient) returns (ok: bool)
    modifies kc
    ensures ok <==> old(kc.shell) != []
    ensures kc.requests == old(kc.requests) + [Startup] && kc.channelsOpen
    ensures !ok ==> kc.shell == old(kc.shell) && kc.iopub == old(kc.iopub)
    ensures ok ==> kc.State() == Answered(old(kc.State()))
  {
    ghost var s0 := kc.State();
    kc.StartChannels();
    var id := kc.Execute(Startup);
    assert id == RequestId(s0.sent);
    var reply := kc.GetShellMsg();
    if reply.None? {
      return false;
    }
    DrainIopub(kc, id);
    ok := true;
  }

  /** `connect_to_kernel`: a fresh client loads the connection file (`loads`
      says whether that works) and warms the iopub subscription with a `pass`
      request whose messages are drained. A missing shell reply raises. */
  method ConnectToKernel(kernel: Replies, loads: bool) returns (r: Result<KernelClient>)
    ensures r.Success? <==> loads && kernel.shell != []
    ensures r.Failure? ==> r.error == if loads then TimeoutMessage else ConnectionUnreadable
    ensures r.Success? ==>
      && fresh(r.value) && r.value.channelsOpen && r.value.requests == [Warmup]
      && r.value.State() == Answered(Connected(kernel))
  {
    if !loads {
      return Failure(ConnectionUnreadable);
    }
    var kc := new KernelClient(kernel.shell, kernel.iopub);
    kc.StartChannels();
    var id := kc.Execute(Warmup);
    assert id == RequestId(0);
    var reply := kc.GetShellMsg();
    if reply.None? {
      return Failure(TimeoutMessage);
    }
    DrainIopub(kc, id);
    r := Success(kc);
  }

  /** The persisted record (`kernel.pid`, `connection.json`) and the processes
      of the machine, as the supervisor functions see them. */
  class Supervisor {
    var pidFile: Option<int>
    var connectionFile: bool
    var live: set<int>
    var trace: seq<SupervisorEvent>

    constructor (pidFile: Option<int>, connectionFile: bool, live: set<int>)
      ensures this.pidFile == pidFile && this.connectionFile == connectionFile && this.live == live
      ensures trace == []
    {
      this.pidFile := pidFile;
      this.connectionFile := connectionFile;
      this.live := live;
      trace := [];
    }

    /** `is_kernel_alive`: a PID record exists and names a live process. */
    predicate IsKernelAlive()
      reads this
    {
      pidFile.Some? && pidFile.value in live
    }

    /** `stop_kernel`: without a PID record nothing happens; otherwise the
      recorded process is signalled and both record files are deleted. */
    method StopKernel()
      modifies this
      ensures old(pidFile).None? ==>
        pidFile == old(pidFile) && connectionFile == old(connectionFile) && live == old(live) && trace == old(trace)
      ensures old(pidFile).Some? ==>
        && pidFile.None? && !connectionFile
        && live == old(live) - {old(pidFile).value}
        && trace == old(trace) + [Signalled(old(pidFile).value), RecordCleared]
      ensures !IsKernelAlive()
    {
      if pidFile.None? {
        return;
      }
      var pid := pidFile.value;
      live := live - {pid};
      trace := trace + [Signalled(pid)];
      pidFile := None;
      connectionFile := false;
      trace := trace + [RecordCleared];
    }

    /** `start_kernel`: clears the record, spawns the kernel as `spawnPid`,
      records the pid at once, and polls at most fifty times. The first poll
      whose handshake succeeds sends the startup request on a fresh client;
      when its shell reply comes, the startup output is drained and that
      client is returned. Otherwise the PID record is left in place and the
      call raises. */
    method StartKernel(kernel: Replies, spawnPid: int, attempts: seq<Attempt>) returns (r: Result<KernelClient>)
      modifies this
      ensures pidFile == Some(spawnPid) && live == old(live) + {spawnPid}
      ensures IsKernelAlive()
      ensures r.Success? <==> StartsUp(kernel, attempts)
      ensures r.Failure? ==> r.error == StartupTimeout
      ensures r.Success? ==>
        && fresh(r.value) && r.value.channelsOpen && r.value.requests == [Startup]
        && r.value.State() == Answered(Connected(kernel))
      ensures trace == old(trace) + StartEvents(spawnPid, PollsMade(attempts, kernel.shell != []))
      ensures connectionFile == SawConnectionFile(attempts, PollsMade(attempts, kernel.shell != []))
    {
      pidFile := None;
      connectionFile := false;
      trace := trace + [RecordCleared];
      live := live + {spawnPid};
      trace := trace + [Spawned(spawnPid)];
      pidFile := Some(spawnPid);
      trace := trace + [PidWritten(spawnPid)];
      var kc := PollReady(kernel, attempts);
      r := if kc.Some? then Success(kc.value) else Failure(StartupTimeout);
    }

    /** The readiness loop of `start_kernel`: at most fifty polls, each
      recorded in the trace; a poll that finds the connection file marks it
      present, and the first poll whose handshake and startup request succeed
      ends the loop with its client. */
    method PollReady(kernel: Replies, attempts: seq<Attempt>) returns (kc: Option<KernelClient>)
      modifies this`trace, this`connectionFile
      ensures kc.Some? <==> StartsUp(kernel, attempts)
      ensures kc.Some? ==>
        && fresh(kc.value) && kc.value.channelsOpen && kc.value.requests == [Startup]
        && kc.value.State() == Answered(Connected(kernel))
      ensures trace == old(trace) + Polls(PollsMade(attempts, kernel.shell != []))
      ensures connectionFile == (old(connectionFile) || SawConnectionFile(attempts, PollsMade(attempts, kernel.shell != [])))
    {
      var i: nat := 0;
      while i < MaxAttempts
        invariant i <= MaxAttempts
        invariant trace == old(trace) + Polls(i)
        invariant connectionFile == (old(connectionFile) || SawConnectionFile(attempts, i))
        invariant kernel.shell != [] ==> forall j | 0 <= j < i :: AttemptAt(attempts, j) != HandshakeOk
      {
        assert Polls(i) + [Polled] == Polls(i + 1);
        trace := trace + [Polled];
        var attempt := AttemptAt(attempts, i);
        if attempt != NotWritten {
          connectionFile := true;
        }
        if attempt == HandshakeOk {
          var c := new KernelClient(kernel.shell, kernel.iopub);
          var ok := StartupHandshake(c);
          if ok {
            assert FirstReady(attempts, 0) == i;
            return Some(c);
          }
        }
        i := i + 1;
      }
      kc := None;
    }

    /** The kernel selection at the head of `run`: the running kernel is
      reused when its pid is alive and its connection file exists; a failed
      connection leads to one stop and one fresh start; a dead or missing
      kernel is started fresh. `running` is what the recorded kernel will
      say, `spawned` what a newly started one will say. */
    method EnsureKernel(running: Replies, spawned: Replies, spawnPid: int, attempts: seq<Attempt>, connectionLoads: bool)
      returns (r: Result<KernelClient>)
      modifies this
      ensures old(IsKernelAlive() && connectionFile) && connectionLoads && running.shell != [] ==>
        && r.Success? && r.value.requests == [Warmup] && r.value.State() == Answered(Connected(running))
        && pidFile == old(pidFile) && connectionFile == old(connectionFile) && live == old(live) && trace == old(trace)
      ensures old(IsKernelAlive() && connectionFile) && !(connectionLoads && running.shell != []) ==>
        && pidFile == Some(spawnPid) && live == old(live) - {old(pidFile).value} + {spawnPid}
        && trace == old(trace) + [Signalled(old(pidFile).value), RecordCleared]
                    + StartEvents(spawnPid, PollsMade(attempts, spawned.shell != []))
      ensures !old(IsKernelAlive() && connectionFile) ==>
        && pidFile == Some(spawnPid) && live == old(live) + {spawnPid}
        && trace == old(trace) + StartEvents(spawnPid, PollsMade(attempts, spawned.shell != []))
      ensures !(old(IsKernelAlive() && connectionFile) && connectionLoads && running.shell != []) ==>
        && connectionFile == SawConnectionFile(attempts, PollsMade(attempts, spawned.shell != []))
        && (r.Success? <==> StartsUp(spawned, attempts))
        && (r.Success? ==> r.value.requests == [Startup] && r.value.State() == Answered(Connected(spawned)))
        && (r.Failure? ==> r.error == StartupTimeout)
      ensures r.Success? ==> fresh(r.value) && r.value.channelsOpen
    {
      if IsKernelAlive() && connectionFile {
        r := ConnectToKernel(running, connectionLoads);
        if r.Failure? {
          ghost var trace0 := trace;
          StopKernel();
          assert trace == trace0 + [Signalled(old(pidFile).value), RecordCleared];
          r := StartKernel(spawned, spawnPid, attempts);
        }
      } else {
        r := StartKernel(spawned, spawnPid, attempts);
      }
    }

    /** `run`: makes sure a kernel is ready, then executes the optional
      directory change and the code itself on its client. Every raised
      exception becomes an error result carrying its text. */
    method Run(code: string, cwd: Option<string>, running: Replies, spawned: Replies, spawnPid: int,
               attempts: seq<Attempt>, connectionLoads: bool) returns (r: ExecResult)
      modifies this
      ensures (r.output == None) != (r.error == None)
      ensures old(IsKernelAlive() && connectionFile) && connectionLoads && running.shell != [] ==>
        && r == Caught(CodeOutcome(Answered(Connected(running)), cwd))
        && pidFile == old(pidFile) && connectionFile == old(connectionFile) && live == old(live) && trace == old(trace)
      ensures !(old(IsKernelAlive() && connectionFile) && connectionLoads && running.shell != []) ==>
        && (StartsUp(spawned, attempts) ==> r == Caught(CodeOutcome(Answered(Connected(spawned)), cwd)))
        && (!StartsUp(spawned, attempts) ==> r == ExecResult(None, Some(StartupTimeout)))
        && pidFile == Some(spawnPid)
        && connectionFile == SawConnectionFile(attempts, PollsMade(attempts, spawned.shell != []))
      ensures old(IsKernelAlive() && connectionFile) && !(connectionLoads && running.shell != []) ==>
        && live == old(live) - {old(pidFile).value} + {spawnPid}
        && trace == old(trace) + [Signalled(old(pidFile).value), RecordCleared]
                    + StartEvents(spawnPid, PollsMade(attempts, spawned.shell != []))
      ensures !old(IsKernelAlive() && connectionFile) ==>
        && live == old(live) + {spawnPid}
        && trace == old(trace) + StartEvents(spawnPid, PollsMade(attempts, spawned.shell != []))
    {
      var ready := EnsureKernel(running, spawned, spawnPid, attempts, connectionLoads);
      if ready.Failure? {
        return ExecResult(None, Some(ready.error));
      }
      r := RunOnKernel(ready.value, code, cwd);
    }
  }

  /** Two `run` calls in a row. Once the first has a kernel up, by reusing
      the recorded one or by starting one that answers, the second finds it
      alive with its connection file and reuses it: it spawns nothing and
      leaves the record as the first left it. `next` is what that kernel
      says to the second call's connection. */
  method RunTwice(sup: Supervisor, first: string, second: string, cwd: Option<string>,
                  running: Replies, spawned: Replies, spawnPid: int, attempts: seq<Attempt>,
                  connectionLoads: bool, next: Replies) returns (r1: ExecResult, r2: ExecResult)
    modifies sup
    ensures var reused := old(sup.IsKernelAlive() && sup.connectionFile) && connectionLoads && running.shell != [];
      var restarted := old(sup.IsKernelAlive() && sup.connectionFile) && !reused;
      var starts := StartEvents(spawnPid, PollsMade(attempts, spawned.shell != []));
      (reused || StartsUp(spawned, attempts)) && next.shell != [] ==>
        && r2 == Caught(CodeOutcome(Answered(Connected(next)), cwd))
        && sup.pidFile == (if reused then old(sup.pidFile) else Some(spawnPid))
        && sup.trace == old(sup.trace) + (if reused then []
                                          else if restarted then [Signalled(old(sup.pidFile).value), RecordCleared] + starts
                                          else starts)
  {
    ghost var reused := sup.IsKernelAlive() && sup.connectionFile && connectionLoads && running.shell != [];
    r1 := sup.Run(first, cwd, running, spawned, spawnPid, attempts, connectionLoads);
    if !reused && StartsUp(spawned, attempts) {
      StartsUpSawConnectionFile(spawned, attempts);
    }
    r2 := sup.Run(second, cwd, next, spawned, spawnPid, attempts, true);
  }

  /** The second half of `run`, once a kernel is ready: the directory change
    when `cwd` is given (its result is dropped, but a missing reply raises),
    then the code; the channels are closed after a completed execution. */
  method RunOnKernel(kc: KernelClient, code: string, cwd: Option<string>) returns (r: ExecResult)
    modifies kc
    ensures r == Caught(CodeOutcome(old(kc.State()), cwd))
    ensures (r.output == None) != (r.error == None)
    ensures old(kc.requests) <= kc.requests
    ensures CodeOutcome(old(kc.State()), cwd).Success? ==>
      && kc.requests == old(kc.requests) + (if ChangesDir(cwd) then [ChangeDir(cwd.value)] else []) + [UserCode(code)]
      && !kc.channelsOpen
  {
    ghost var s0 := kc.State();
    if ChangesDir(cwd) {
      var changed := ExecuteCode(kc, ChangeDir(cwd.value));
      if changed.Failure? {
        return ExecResult(None, Some(changed.error));
      }
      assert kc.State() == Answered(s0);
    }
    var result := ExecuteCode(kc, UserCode(code));
    if result.Failure? {
      return ExecResult(None, Some(result.error));
    }
    kc.StopChannels();
    r := result.value;
  }
}
