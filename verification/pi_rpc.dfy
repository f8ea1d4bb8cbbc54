/** The client for the Pi coding agent: the command lines that launch it, and
    an RPC session over its standard streams, where every command is one JSON
    object on a line and every event Pi writes back is one JSON object on a
    line.

    The Pi process is seen through the lines it will write (`incoming`), the
    commands written to it (`sent`), the state of its standard input and the
    signals sent to it. Reading past the last line is the end of the stream. */
module PiRpc {
  import opened Wrappers
  import opened Strings
  import opened JsonValues

  // ---------------------------------------------------------------------
  // Command lines

  const DefaultModel := "anthropic/claude-haiku-4.5"

  /** The executable name: `pi.cmd` on Windows, `pi` elsewhere. */
  function PiCmd(windows: bool): string {
    if windows then "pi.cmd" else "pi"
  }

  /** Python truthiness of an optional string: absent and empty are false. */
  predicate Given(s: Option<string>) {
    s.Some? && s.value != ""
  }

  /** `model or "anthropic/claude-haiku-4.5"` */
  function ModelOrDefault(model: Option<string>): (m: string)
    ensures Given(model) ==> m == model.value
    ensures !Given(model) ==> m == DefaultModel
  {
    if Given(model) then model.value else DefaultModel
  }

  /** One `-e ext` pair per extension, in the given order. */
  function ExtensionFlags(extensions: seq<string>): (r: seq<string>)
    ensures |r| == 2 * |extensions|
    ensures forall i | 0 <= i < |extensions| :: r[2 * i] == "-e" && r[2 * i + 1] == extensions[i]
    decreases |extensions|
  {
    if extensions == [] then []
    else
      var rest := ExtensionFlags(extensions[1..]);
      var r := ["-e", extensions[0]] + rest;
      assert forall i | 0 <= i < |extensions| :: r[2 * i] == "-e" && r[2 * i + 1] == extensions[i] by {
        forall i | 0 <= i < |extensions| ensures r[2 * i] == "-e" && r[2 * i + 1] == extensions[i] {
          if i > 0 {
            assert r[2 * i] == rest[2 * (i - 1)];
            assert r[2 * i + 1] == rest[2 * (i - 1) + 1];
            assert extensions[i] == extensions[1..][i - 1];
          }
        }
      }
      r
  }

  /** The flags after the model: the system prompt when given, then either
      `--no-tools` or `--tools` (`--no-tools` wins), then the extensions. */
  function OptionFlags(systemPrompt: Option<string>, noTools: bool, tools: Option<string>, extensions: seq<string>): seq<string> {
    (if Given(systemPrompt) then ["--append-system-prompt", systemPrompt.value] else [])
    + ToolFlags(noTools, tools)
    + ExtensionFlags(extensions)
  }

  /** The command line of `run_interactive`. */
  function InteractiveCommand(windows: bool, model: Option<string>, extensions: seq<string>,
                              systemPrompt: Option<string>, noTools: bool, tools: Option<string>): (r: seq<string>)
    ensures |r| >= 3 && r[..3] == [PiCmd(windows), "--model", ModelOrDefault(model)]
    ensures r[3..] == OptionFlags(systemPrompt, noTools, tools, extensions)
  {
    [PiCmd(windows), "--model", ModelOrDefault(model)] + OptionFlags(systemPrompt, noTools, tools, extensions)
  }

  /** The command line of `PiRPC.start`. */
  function RpcCommand(windows: bool, model: string, systemPrompt: Option<string>, noTools: bool,
                      tools: Option<string>, extensions: seq<string>): (r: seq<string>)
    ensures |r| >= 6 && r[..6] == [PiCmd(windows), "--mode", "rpc", "--no-session", "--model", model]
    ensures r[6..] == OptionFlags(systemPrompt, noTools, tools, extensions)
  {
    [PiCmd(windows), "--mode", "rpc", "--no-session", "--model", model]
    + OptionFlags(systemPrompt, noTools, tools, extensions)
  }

  /** The options a flag list asks for, as Pi reads them back. */
  datatype Flags = Flags(systemPrompt: Option<string>, noTools: bool, tools: Option<string>, extensions: seq<string>)

  function ParseExtensions(args: seq<string>): Option<seq<string>>
    decreases |args|
  {
    if args == [] then Some([])
    else if |args| >= 2 && args[0] == "-e" then
      match ParseExtensions(args[2..])
      case Some(rest) => Some([args[1]] + rest)
      case None => None
    else None
  }

  /** The tool flag and the extensions, without a system prompt. */
  function ParseToolFlags(args: seq<string>): Option<Flags> {
    var (noTools, tools, rest) :=
      if |args| >= 1 && args[0] == "--no-tools" then (true, None, args[1..])
      else if |args| >= 2 && args[0] == "--tools" then (false, Some(args[1]), args[2..])
      else (false, None, args);
    match ParseExtensions(rest)
    case Some(extensions) => Some(Flags(None, noTools, tools, extensions))
    case None => None
  }

  /** Reads a flag list in the layout `OptionFlags` produces. */
  function ParseFlags(args: seq<string>): Option<Flags> {
    if |args| >= 2 && args[0] == "--append-system-prompt" then
      match ParseToolFlags(args[2..])
      case Some(f) => Some(f.(systemPrompt := Some(args[1])))
      case None => None
    else ParseToolFlags(args)
  }

  lemma {:induction false} ParseExtensionFlags(extensions: seq<string>)
    ensures ParseExtensions(ExtensionFlags(extensions)) == Some(extensions)
    decreases |extensions|
  {
    if extensions != [] {
      var r := ExtensionFlags(extensions);
      assert r[2..] == ExtensionFlags(extensions[1..]);
      ParseExtensionFlags(extensions[1..]);
      assert [extensions[0]] + extensions[1..] == extensions;
    }
  }

  function ToolFlags(noTools: bool, tools: Option<string>): seq<string> {
    if noTools then ["--no-tools"] else if Given(tools) then ["--tools", tools.value] else []
  }

  lemma {:induction false} ParseToolFlagsBack(noTools: bool, tools: Option<string>, extensions: seq<string>)
    ensures ParseToolFlags(ToolFlags(noTools, tools) + ExtensionFlags(extensions))
         == Some(Flags(None, noTools, if !noTools && Given(tools) then tools else None, extensions))
  {
    var t := ToolFlags(noTools, tools);
    var e := ExtensionFlags(extensions);
    ParseExtensionFlags(extensions);
    assert (t + e)[|t|..] == e;
    assert e == [] || e[0] == "-e";
  }

  /** A leading system prompt flag is read off before the tool flags. */
  lemma {:induction false} ParseFlagsPrompt(prompt: string, te: seq<string>)
    ensures ParseFlags(["--append-system-prompt", prompt] + te)
         == match ParseToolFlags(te)
            case Some(f) => Some(f.(systemPrompt := Some(prompt)))
            case None => None
  {
    assert (["--append-system-prompt", prompt] + te)[2..] == te;
  }

  /** Without a system prompt flag, the flags are read as tool flags. */
  lemma {:induction false} ParseFlagsNoPrompt(te: seq<string>)
    requires te == [] || te[0] != "--append-system-prompt"
    ensures ParseFlags(te) == ParseToolFlags(te)
  {
  }

  /** The flags say what was asked for: an empty system prompt or tool list
      is not passed on, `--no-tools` takes precedence over a tool list, and
      the extensions come back complete and in order. */
  lemma {:induction false} OptionFlagsRoundTrip(systemPrompt: Option<string>, noTools: bool, tools: Option<string>, extensions: seq<string>)
    ensures ParseFlags(OptionFlags(systemPrompt, noTools, tools, extensions))
         == Some(Flags(if Given(systemPrompt) then systemPrompt else None,
                       noTools,
                       if !noTools && Given(tools) then tools else None,
                       extensions))
  {
    var t := ToolFlags(noTools, tools);
    var e := ExtensionFlags(extensions);
    if Given(systemPrompt) {
      assert OptionFlags(systemPrompt, noTools, tools, extensions) == ["--append-system-prompt", systemPrompt.value] + (t + e);
      WithPromptRoundTrip(systemPrompt.value, noTools, tools, extensions);
    } else {
      assert OptionFlags(systemPrompt, noTools, tools, extensions) == t + e;
      WithoutPromptRoundTrip(noTools, tools, extensions);
    }
  }

  lemma {:induction false} WithPromptRoundTrip(prompt: string, noTools: bool, tools: Option<string>, extensions: seq<string>)
    ensures ParseFlags(["--append-system-prompt", prompt] + (ToolFlags(noTools, tools) + ExtensionFlags(extensions)))
         == Some(Flags(Some(prompt), noTools, if !noTools && Given(tools) then tools else None, extensions))
  {
    ParseToolFlagsBack(noTools, tools, extensions);
    ParseFlagsPrompt(prompt, ToolFlags(noTools, tools) + ExtensionFlags(extensions));
  }

  lemma {:induction false} WithoutPromptRoundTrip(noTools: bool, tools: Option<string>, extensions: seq<string>)
    ensures ParseFlags(ToolFlags(noTools, tools) + ExtensionFlags(extensions))
         == Some(Flags(None, noTools, if !noTools && Given(tools) then tools else None, extensions))
  {
    var t := ToolFlags(noTools, tools);
    var e := ExtensionFlags(extensions);
    ParseToolFlagsBack(noTools, tools, extensions);
    assert e == [] || e[0] == "-e";
    assert t + e == [] || (t + e)[0] != "--append-system-prompt";
    ParseFlagsNoPrompt(t + e);
  }

  // ---------------------------------------------------------------------
  // Lines of the RPC protocol

  /** A command or event: one JSON object. */
  type Line = map<string, Json>

  /** `event.get("type") == t` */
  predicate IsType(e: Line, t: string) {
    Get(e, "type", JNull) == JStr(t)
  }

  function Command(t: string): Line {
    map["type" := JStr(t)]
  }

  function PromptCommand(message: string): Line {
    map["type" := JStr("prompt"), "message" := JStr(message)]
  }

  /** A command as written, with its request id. */
  function Stamp(cmd: Line, id: string): Line {
    cmd["id" := JStr(id)]
  }

  /** The response Pi gives to request `id`. */
  predicate IsResponseTo(e: Line, id: string) {
    IsType(e, "response") && Get(e, "id", JNull) == JStr(id)
  }

  /** The index of the first response to `id`, or `|lines|` when none comes. */
  function FirstResponse(lines: seq<Line>, id: string): (k: nat)
    ensures k <= |lines|
    ensures k < |lines| ==> IsResponseTo(lines[k], id)
    ensures forall i | 0 <= i < k :: !IsResponseTo(lines[i], id)
    decreases |lines|
  {
    if lines == [] then 0
    else if IsResponseTo(lines[0], id) then 0
    else 1 + FirstResponse(lines[1..], id)
  }

  /** What waiting for the response to `id` returns: that response, or none at end of stream. */
  function ResponseIn(lines: seq<Line>, id: string): Option<Line> {
    var k := FirstResponse(lines, id);
    if k < |lines| then Some(lines[k]) else None
  }

  /** The lines left after waiting for the response to `id`. */
  function AfterResponse(lines: seq<Line>, id: string): seq<Line> {
    var k := FirstResponse(lines, id);
    if k < |lines| then lines[k + 1..] else []
  }

  /** Lines before the response, stale responses to other ids included, do
      not change what the wait finds. */
  lemma {:induction false} ResponseSkipsOthers(pre: seq<Line>, post: seq<Line>, id: string)
    requires forall i | 0 <= i < |pre| :: !IsResponseTo(pre[i], id)
    ensures ResponseIn(pre + post, id) == ResponseIn(post, id)
    ensures AfterResponse(pre + post, id) == AfterResponse(post, id)
    decreases |pre|
  {
    if pre != [] {
      assert (pre + post)[1..] == pre[1..] + post;
      ResponseSkipsOthers(pre[1..], post, id);
    } else {
      assert pre + post == post;
    }
  }

  /** The response found is a response to `id`, and every line before it is not. */
  lemma {:induction false} ResponseIsFirst(lines: seq<Line>, id: string)
    ensures ResponseIn(lines, id).Some? ==> IsResponseTo(ResponseIn(lines, id).value, id)
    ensures ResponseIn(lines, id).None? <==> forall i | 0 <= i < |lines| :: !IsResponseTo(lines[i], id)
  {
  }

  /** A response carries data only when it exists and its `success` is truthy. */
  predicate Succeeded(resp: Option<Line>) {
    resp.Some? && Truthy(Get(resp.value, "success", JNull))
  }

  /** `get_messages`' answer: `data.messages` of a successful response, `[]`
      otherwise. A `data` that is not an object raises. */
  function MessagesFrom(resp: Option<Line>): (r: Result<Json>)
    ensures !Succeeded(resp) ==> r == Success(JArr([]))
  {
    if Succeeded(resp) then GetAttr(Get(resp.value, "data", JObj(map[])), "messages", JArr([]))
    else Success(JArr([]))
  }

  /** `get_session_stats`' answer: `data` of a successful response, `{}` otherwise. */
  function StatsFrom(resp: Option<Line>): (r: Json)
    ensures !Succeeded(resp) ==> r == JObj(map[])
  {
    if Succeeded(resp) then Get(resp.value, "data", JObj(map[])) else JObj(map[])
  }

  /** A successful response of Pi with the conversation `messages`. */
  function MessagesResponse(id: string, messages: Json): Line {
    map["type" := JStr("response"), "id" := JStr(id), "success" := JBool(true),
        "data" := JObj(map["messages" := messages])]
  }

  function StatsResponse(id: string, stats: Json): Line {
    map["type" := JStr("response"), "id" := JStr(id), "success" := JBool(true), "data" := stats]
  }

  /** The answers Pi gives come back unchanged, and a failed response gives the defaults. */
  lemma {:induction false} ResponsesExtracted(id: string, messages: Json, stats: Json, failed: Line)
    requires !Truthy(Get(failed, "success", JNull))
    ensures MessagesFrom(Some(MessagesResponse(id, messages))) == Success(messages)
    ensures StatsFrom(Some(StatsResponse(id, stats))) == stats
    ensures MessagesFrom(Some(failed)) == Success(JArr([])) && StatsFrom(Some(failed)) == JObj(map[])
  {
  }

  // ---------------------------------------------------------------------
  // Streaming a prompt

  /** The index of the first `agent_end` event, or `|lines|` when none comes. */
  function StreamEnd(lines: seq<Line>): (n: nat)
    ensures n <= |lines|
    decreases |lines|
  {
    if lines == [] then 0
    else if IsType(lines[0], "agent_end") then 0
    else 1 + StreamEnd(lines[1..])
  }

  /** How many lines the streaming loop of `prompt` reads: through `agent_end`
      and no further, or all of them. */
  function StreamRead(lines: seq<Line>): (n: nat)
    ensures n <= |lines|
  {
    var e := StreamEnd(lines);
    if e < |lines| then e + 1 else e
  }

  /** The number of events of type `t` in `lines`. */
  function CountType(lines: seq<Line>, t: string): (n: nat)
    ensures n <= |lines|
    decreases |lines|
  {
    if lines == [] then 0
    else CountType(lines[..|lines| - 1], t) + (if IsType(lines[|lines| - 1], t) then 1 else 0)
  }

  /** The turn count of `prompt`: the `turn_start` events before the first `agent_end`. */
  function Turns(lines: seq<Line>): nat {
    CountType(lines[..StreamEnd(lines)], "turn_start")
  }

  lemma {:induction false} CountTypeAppend(a: seq<Line>, b: seq<Line>, t: string)
    ensures CountType(a + b, t) == CountType(a, t) + CountType(b, t)
    decreases |b|
  {
    if b == [] {
      assert a + b == a;
    } else {
      var last := b[|b| - 1];
      TakeAppend(a, b, |b| - 1);
      CountTypeAppend(a, b[..|b| - 1], t);
    }
  }

  /** Lines without `agent_end` (the stream runs through them) delay the
      end of what follows by their length. */
  lemma {:induction false} StreamEndAfter(pre: seq<Line>, post: seq<Line>)
    requires StreamEnd(pre) == |pre|
    ensures StreamEnd(pre + post) == |pre| + StreamEnd(post)
    decreases |pre|
  {
    if pre == [] {
      assert pre + post == post;
    } else {
      assert (pre + post)[0] == pre[0];
      assert (pre + post)[1..] == pre[1..] + post;
      StreamEndAfter(pre[1..], post);
    }
  }

  /** `StreamEnd` is the first `agent_end`: none comes before it. */
  lemma {:induction false} StreamEndIsFirst(lines: seq<Line>)
    ensures var n := StreamEnd(lines);
      && (n < |lines| ==> IsType(lines[n], "agent_end"))
      && (forall i | 0 <= i < n :: !IsType(lines[i], "agent_end"))
    decreases |lines|
  {
    if lines != [] && !IsType(lines[0], "agent_end") {
      StreamEndIsFirst(lines[1..]);
      forall i | 1 <= i < StreamEnd(lines) ensures !IsType(lines[i], "agent_end") {
        assert lines[i] == lines[1..][i - 1];
      }
    }
  }

  /** `k` is where the stream ends when no `agent_end` comes before it and
      `lines[k]` is one, or `k` is the end of the lines. */
  lemma {:induction false} StreamEndAt(lines: seq<Line>, k: nat)
    requires k <= |lines|
    requires forall i | 0 <= i < k :: !IsType(lines[i], "agent_end")
    requires k < |lines| ==> IsType(lines[k], "agent_end")
    ensures StreamEnd(lines) == k
    decreases k
  {
    if k > 0 {
      StreamEndAt(lines[1..], k - 1);
    }
  }

  lemma {:induction false} CountTypeStep(lines: seq<Line>, k: nat, t: string)
    requires k < |lines|
    ensures CountType(lines[..k + 1], t) == CountType(lines[..k], t) + (if IsType(lines[k], t) then 1 else 0)
  {
    assert lines[..k + 1][..k] == lines[..k];
  }

  /** Taking a prefix that reaches into the second part of a concatenation. */
  lemma {:induction false} TakeAppend<T>(a: seq<T>, b: seq<T>, m: nat)
    requires m <= |b|
    ensures (a + b)[..|a| + m] == a + b[..m]
  {
    assert forall i | 0 <= i < |a| + m :: (a + b)[..|a| + m][i] == (a + b[..m])[i];
  }

  /** The turns are counted in the first `k` lines when the stream ends at `k`. */
  lemma {:induction false} TurnsAt(lines: seq<Line>, k: nat)
    requires StreamEnd(lines) == k
    ensures Turns(lines) == CountType(lines[..k], "turn_start")
  {
  }

  /** Lines that hold no `agent_end` (the stream runs through all of them)
      add their `turn_start` events to the turns of what follows. */
  lemma {:induction false} TurnsAfter(pre: seq<Line>, post: seq<Line>)
    requires StreamEnd(pre) == |pre|
    ensures Turns(pre + post) == CountType(pre, "turn_start") + Turns(post)
  {
    var m := StreamEnd(post);
    StreamEndAfter(pre, post);
    TurnsAt(pre + post, |pre| + m);
    TurnsAt(post, m);
    CountTakeAppend(pre, post, m, "turn_start");
  }

  /** Counting in a prefix that reaches into the second part of a concatenation. */
  lemma {:induction false} CountTakeAppend(a: seq<Line>, b: seq<Line>, m: nat, t: string)
    requires m <= |b|
    ensures CountType((a + b)[..|a| + m], t) == CountType(a, t) + CountType(b[..m], t)
  {
    var c := b[..m];
    TakeAppend(a, b, m);
    CountTypeAppend(a, c, t);
  }

  lemma {:induction false} StreamEndBefore(pre: seq<Line>, post: seq<Line>)
    requires StreamEnd(pre) < |pre|
    ensures StreamEnd(pre + post) == StreamEnd(pre)
    decreases |pre|
  {
    assert (pre + post)[0] == pre[0];
    if !IsType(pre[0], "agent_end") {
      assert (pre + post)[1..] == pre[1..] + post;
      StreamEndBefore(pre[1..], post);
    }
  }

  /** Taking a prefix that stays inside the first part of a concatenation. */
  lemma {:induction false} TakeLeft<T>(a: seq<T>, b: seq<T>, k: nat)
    requires k <= |a|
    ensures (a + b)[..k] == a[..k]
  {
  }

  /** Once `agent_end` has arrived, what follows does not count. */
  lemma {:induction false} TurnsBefore(pre: seq<Line>, post: seq<Line>)
    requires StreamEnd(pre) < |pre|
    ensures Turns(pre + post) == Turns(pre)
  {
    var k := StreamEnd(pre);
    StreamEndBefore(pre, post);
    TurnsAt(pre + post, k);
    TurnsAt(pre, k);
    TakeLeft(pre, post, k);
  }

  /** Events other than `turn_start` and `agent_end` (text deltas, tool calls,
      thinking) never change the turn count. */
  lemma {:induction false} TurnsIgnoreOtherEvents(pre: seq<Line>, e: Line, post: seq<Line>)
    requires !IsType(e, "turn_start") && !IsType(e, "agent_end")
    ensures Turns(pre + [e] + post) == Turns(pre + post)
  {
    if StreamEnd(pre) < |pre| {
      assert pre + [e] + post == pre + ([e] + post);
      TurnsBefore(pre, [e] + post);
      TurnsBefore(pre, post);
    } else {
      var pe := pre + [e];
      assert StreamEnd([e]) == 1 by {
        assert [e][1..] == [];
      }
      StreamEndAfter(pre, [e]);
      TurnsAfter(pe, post);
      TurnsAfter(pre, post);
      assert pe[..|pe| - 1] == pre;
    }
  }

  /** Once `agent_end` arrives nothing after it is read, and nothing after it
      changes the turn count. */
  lemma {:induction false} AgentEndStopsStream(pre: seq<Line>, e: Line, post: seq<Line>)
    requires forall i | 0 <= i < |pre| :: !IsType(pre[i], "agent_end")
    requires IsType(e, "agent_end")
    ensures StreamRead(pre + [e] + post) == |pre| + 1
    ensures Turns(pre + [e] + post) == CountType(pre, "turn_start")
  {
    var s := pre + [e] + post;
    assert s == pre + ([e] + post);
    StreamEndAt(pre, |pre|);
    StreamEndAfter(pre, [e] + post);
    assert StreamEnd(s) == |pre|;
    assert s[..|pre|] == pre;
  }

  // ---------------------------------------------------------------------
  // Events that raise

  /** `str()` of the exception raised while handling a `toolcall_end` whose
      call is `tc`. `tc.get` needs a dict. With display on, a call named
      `python` tests `"code" in args`, then splits `args["code"]`. */
  function ToolCallError(tc: Json, quiet: bool): Option<string> {
    if !tc.JObj? then Some(NoGet(tc))
    else if quiet || Get(tc.fields, "name", JStr("?")) != JStr("python") then None
    else
      var args := Get(tc.fields, "arguments", JObj(map[]));
      match args
      case JObj(f) =>
        if "code" in f && !f["code"].JStr? then Some("'" + TypeName(f["code"]) + "' object has no attribute 'split'")
        else None
      case JArr(_) => if Holds(args, "code") then Some(IndexError(args)) else None
      case JStr(_) => if Holds(args, "code") then Some(IndexError(args)) else None
      case _ => Some(NotIterable(args))
  }

  /** `str()` of the exception raised by `content[:500]` on a `thinking_end`
      whose content is true. Strings and lists slice; a dict looks the slice
      up as a key and misses it; numbers and booleans cannot be subscripted. */
  function ThinkingError(content: Json): Option<string> {
    if !Truthy(content) then None
    else
      match content
      case JObj(_) => Some("slice(None, 500, None)")
      case JNum(_) => Some("'" + TypeName(content) + "' object is not subscriptable")
      case JBool(_) => Some("'" + TypeName(content) + "' object is not subscriptable")
      case _ => None
  }

  /** `str()` of the exception `prompt` raises while handling the
      `message_update` event `e`, if any. `ae.get` needs a dict. Text deltas
      are only printed and never raise. */
  function UpdateError(e: Line, quiet: bool): Option<string> {
    var ae := Get(e, "assistantMessageEvent", JObj(map[]));
    if !ae.JObj? then Some(NoGet(ae))
    else
      var kind := Get(ae.fields, "type", JNull);
      if kind == JStr("toolcall_end") then ToolCallError(Get(ae.fields, "toolCall", JObj(map[])), quiet)
      else if kind == JStr("thinking_end") then ThinkingError(Get(ae.fields, "content", JStr("")))
      else None
  }

  /** Handling the event in the streaming loop raises. */
  predicate Raises(e: Line, quiet: bool) {
    IsType(e, "message_update") && UpdateError(e, quiet).Some?
  }

  /** The index of the first event that raises, or `|lines|`. */
  function FirstRaise(lines: seq<Line>, quiet: bool): (k: nat)
    ensures k <= |lines|
    ensures k < |lines| ==> Raises(lines[k], quiet)
    ensures forall i | 0 <= i < k :: !Raises(lines[i], quiet)
    decreases |lines|
  {
    if lines == [] then 0
    else if Raises(lines[0], quiet) then 0
    else 1 + FirstRaise(lines[1..], quiet)
  }

  /** How the streaming loop of `prompt` ends: with the turn count, or with
      the error of an event that raises before the first `agent_end`. */
  function StreamOutcome(lines: seq<Line>, quiet: bool): Result<nat> {
    var k := FirstRaise(lines, quiet);
    if k < StreamEnd(lines) then Failure(UpdateError(lines[k], quiet).value) else Success(Turns(lines))
  }

  /** How many lines the streaming loop reads: through the event that
      raises, or as `StreamRead` says when none does. */
  function StreamConsumed(lines: seq<Line>, quiet: bool): (n: nat)
    ensures n <= |lines|
  {
    var k := FirstRaise(lines, quiet);
    if k < StreamEnd(lines) then k + 1 else StreamRead(lines)
  }

  /** The first event before `agent_end` that raises ends the stream with
      its error, and nothing after it is read. */
  lemma {:induction false} RaiseEndsStream(pre: seq<Line>, e: Line, post: seq<Line>, quiet: bool)
    requires forall i | 0 <= i < |pre| :: !IsType(pre[i], "agent_end") && !Raises(pre[i], quiet)
    requires Raises(e, quiet)
    ensures StreamOutcome(pre + [e] + post, quiet) == Failure(UpdateError(e, quiet).value)
    ensures StreamConsumed(pre + [e] + post, quiet) == |pre| + 1
  {
    var s := pre + [e] + post;
    assert s == pre + ([e] + post);
    assert forall i | 0 <= i < |pre| :: s[i] == pre[i];
    assert s[|pre|] == e;
    StreamEndAt(pre, |pre|);
    StreamEndAfter(pre, [e] + post);
    assert FirstRaise(s, quiet) == |pre|;
  }

  /** When no event before `agent_end` raises, the stream ends as before:
      with the turns before `agent_end`, after reading it. */
  lemma {:induction false} AgentEndEndsStream(pre: seq<Line>, e: Line, post: seq<Line>, quiet: bool)
    requires forall i | 0 <= i < |pre| :: !IsType(pre[i], "agent_end") && !Raises(pre[i], quiet)
    requires IsType(e, "agent_end")
    ensures StreamOutcome(pre + [e] + post, quiet) == Success(CountType(pre, "turn_start"))
    ensures StreamConsumed(pre + [e] + post, quiet) == |pre| + 1
  {
    var s := pre + [e] + post;
    AgentEndStopsStream(pre, e, post);
    StreamEndAt(pre, |pre|);
    assert s == pre + ([e] + post);
    StreamEndAfter(pre, [e] + post);
    assert forall i | 0 <= i < |pre| :: s[i] == pre[i];
  }

  /** Turning display off removes errors and adds none: a quiet session
      raises only where a displaying one raises the same error. */
  lemma {:induction false} QuietRaisesLess(e: Line)
    ensures UpdateError(e, true).Some? ==> UpdateError(e, false) == UpdateError(e, true)
  {
  }

  /** A `message_update` whose `assistantMessageEvent` is `null` fails on `ae.get`. */
  lemma {:induction false} NullAssistantEventRaises(quiet: bool)
    ensures var e := map["type" := JStr("message_update"), "assistantMessageEvent" := JNull];
      Raises(e, quiet) && UpdateError(e, quiet) == Some(NoGet(JNull))
  {
    var e := map["type" := JStr("message_update"), "assistantMessageEvent" := JNull];
    assert Get(e, "assistantMessageEvent", JObj(map[])) == JNull;
    assert IsType(e, "message_update");
  }

  /** What `prompt` returns. */
  datatype PromptResult = PromptResult(messages: Json, stats: Json, turns: nat)

  /** Signals sent to the Pi process. */
  datatype Signal = Terminate | Kill

  // ---------------------------------------------------------------------
  // The session

  class PiRPC {
    const model: string
    const tools: Option<string>
    const noTools: bool
    const extensions: seq<string>
    /** Whether events are kept off the console. */
    const quiet: bool
    const systemPrompt: Option<string>

    /** `_request_id`: the number of commands sent so far. */
    var requestId: nat
    /** Whether `start` has spawned the process. */
    var started: bool
    /** The command line the process was started with. */
    var command: seq<string>
    /** The lines Pi will still write on its standard output. */
    var incoming: seq<Line>
    /** The commands written to Pi's standard input, in order. */
    var sent: seq<Line>
    var stdinOpen: bool
    /** Whether the process has exited (its return code is set). */
    var exited: bool
    var signals: seq<Signal>

    /** Every command sent carries the decimal string of its position, counted from 1. */
    ghost predicate Valid()
      reads this
    {
      && |sent| == requestId
      && forall k | 0 <= k < |sent| :: "id" in sent[k] && sent[k]["id"] == JStr(Decimal(k + 1))
    }

    constructor (model: Option<string>, tools: Option<string>, noTools: bool, extensions: seq<string>,
                 quiet: bool, systemPrompt: Option<string>)
      ensures this.model == ModelOrDefault(model)
      ensures this.tools == tools && this.noTools == noTools
      ensures this.extensions == extensions && this.quiet == quiet && this.systemPrompt == systemPrompt
      ensures requestId == 0 && sent == [] && !started && Valid()
    {
      this.model := ModelOrDefault(model);
      this.tools := tools;
      this.noTools := noTools;
      this.extensions := extensions;
      this.quiet := quiet;
      this.systemPrompt := systemPrompt;
      requestId := 0;
      started := false;
      command := [];
      incoming := [];
      sent := [];
      stdinOpen := false;
      exited := false;
      signals := [];
    }

    /** `start`: spawns Pi in RPC mode; `output` is what it will write. */
    method Start(windows: bool, output: seq<Line>)
      modifies this`started, this`command, this`incoming, this`stdinOpen, this`exited
      ensures started && stdinOpen && !exited
      ensures command == RpcCommand(windows, model, systemPrompt, noTools, tools, extensions)
      ensures incoming == output
    {
      command := RpcCommand(windows, model, systemPrompt, noTools, tools, extensions);
      incoming := output;
      started := true;
      stdinOpen := true;
      exited := false;
    }

    /** `_send`: raises the counter by one, stamps the command with its decimal
      string and writes the command. */
    method Send(cmd: Line) returns (id: string)
      requires started && Valid()
      modifies this`requestId, this`sent
      ensures Valid()
      ensures requestId == old(requestId) + 1
      ensures id == Decimal(requestId)
      ensures sent == old(sent) + [Stamp(cmd, id)]
    {
      requestId := requestId + 1;
      id := Decimal(requestId);
      sent := sent + [Stamp(cmd, id)];
    }

    /** `_read_line`: the next line, or none at end of stream. */
    method ReadLine() returns (line: Option<Line>)
      requires started
      modifies this`incoming
      ensures line == (if old(incoming) == [] then None else Some(old(incoming)[0]))
      ensures incoming == (if old(incoming) == [] then [] else old(incoming)[1..])
    {
      if incoming == [] {
        line := None;
      } else {
        line := Some(incoming[0]);
        incoming := incoming[1..];
      }
    }

    /** `_send_and_wait`: sends `cmd` and reads until the response to it,
      discarding every other line. */
    method SendAndWait(cmd: Line) returns (resp: Option<Line>)
      requires started && Valid()
      modifies this`requestId, this`sent, this`incoming
      ensures Valid()
      ensures var id := Decimal(old(requestId) + 1);
        && requestId == old(requestId) + 1
        && sent == old(sent) + [Stamp(cmd, id)]
        && resp == ResponseIn(old(incoming), id)
        && incoming == AfterResponse(old(incoming), id)
    {
      var id := Send(cmd);
      ghost var lines := incoming;
      ghost var k: nat := 0;
      while true
        invariant Valid() && requestId == old(requestId) + 1 && sent == old(sent) + [Stamp(cmd, id)]
        invariant k <= |lines| && incoming == lines[k..]
        invariant forall i | 0 <= i < k :: !IsResponseTo(lines[i], id)
        decreases |lines| - k
      {
        var event := ReadLine();
        if event.None? {
          return None;
        }
        k := k + 1;
        if Get(event.value, "type", JNull) == JStr("response") && Get(event.value, "id", JNull) == JStr(id) {
          return event;
        }
      }
    }

    /** `get_messages` */
    method GetMessages() returns (messages: Result<Json>)
      requires started && Valid()
      modifies this`requestId, this`sent, this`incoming
      ensures Valid()
      ensures var id := Decimal(old(requestId) + 1);
        && requestId == old(requestId) + 1
        && sent == old(sent) + [Stamp(Command("get_messages"), id)]
        && messages == MessagesFrom(ResponseIn(old(incoming), id))
        && incoming == AfterResponse(old(incoming), id)
    {
      var resp := SendAndWait(Command("get_messages"));
      if resp.Some? && Truthy(Get(resp.value, "success", JNull)) {
        var data := Get(resp.value, "data", JObj(map[]));
        messages := GetAttr(data, "messages", JArr([]));
      } else {
        messages := Success(JArr([]));
      }
    }

    /** `get_session_stats` */
    method GetSessionStats() returns (stats: Json)
      requires started && Valid()
      modifies this`requestId, this`sent, this`incoming
      ensures Valid()
      ensures var id := Decimal(old(requestId) + 1);
        && requestId == old(requestId) + 1
        && sent == old(sent) + [Stamp(Command("get_session_stats"), id)]
        && stats == StatsFrom(ResponseIn(old(incoming), id))
        && incoming == AfterResponse(old(incoming), id)
    {
      var resp := SendAndWait(Command("get_session_stats"));
      if resp.Some? && Truthy(Get(resp.value, "success", JNull)) {
        stats := Get(resp.value, "data", JObj(map[]));
      } else {
        stats := JObj(map[]);
      }
    }

    /** The streaming loop of `prompt`: reads events through the first
      `agent_end` (or to the end of the stream) and counts the turns; an
      event whose handling raises ends it with that error. */
    method StreamTurns() returns (r: Result<nat>)
      requires started
      modifies this`incoming
      ensures r == StreamOutcome(old(incoming), quiet)
      ensures incoming == old(incoming)[StreamConsumed(old(incoming), quiet)..]
    {
      ghost var lines := incoming;
      ghost var k: nat := 0;
      var turnCount := 0;
      while true
        invariant k <= |lines| && incoming == lines[k..]
        invariant forall i | 0 <= i < k :: !IsType(lines[i], "agent_end") && !Raises(lines[i], quiet)
        invariant turnCount == CountType(lines[..k], "turn_start")
        decreases |lines| - k
      {
        var event := ReadLine();
        if event.None? {
          StreamEndAt(lines, k);
          assert lines[..k] == lines;
          return Success(turnCount);
        }
        CountTypeStep(lines, k, "turn_start");
        var t := Get(event.value, "type", JNull);
        if t == JStr("turn_start") {
          turnCount := turnCount + 1;
        } else if t == JStr("message_update") {
          // Text deltas, tool calls and thinking summaries are displayed and
          // logged; handling a malformed one raises.
          var error := UpdateError(event.value, quiet);
          if error.Some? {
            StreamEndIsFirst(lines);
            return Failure(error.value);
          }
        } else if t == JStr("agent_end") {
          StreamEndAt(lines, k);
          return Success(turnCount);
        }
        k := k + 1;
      }
    }

    /** `prompt`: sends the prompt, streams its events, then asks for the
      messages and then for the statistics. An exception while streaming or
      while reading the messages ends it. */
    method Prompt(message: string) returns (r: Result<PromptResult>)
      requires started && Valid()
      modifies this`requestId, this`sent, this`incoming
      ensures Valid()
      ensures var lines := old(incoming);
        var stream := StreamOutcome(lines, quiet);
        var rest0 := lines[StreamConsumed(lines, quiet)..];
        var id0 := Decimal(old(requestId) + 1);
        var id1 := Decimal(old(requestId) + 2);
        var id2 := Decimal(old(requestId) + 3);
        var rest1 := AfterResponse(rest0, id1);
        var messages := MessagesFrom(ResponseIn(rest0, id1));
        var sent1 := old(sent) + [Stamp(PromptCommand(message), id0)];
        var sent2 := sent1 + [Stamp(Command("get_messages"), id1)];
        && (stream.Failure? ==> r == Failure(stream.error) && sent == sent1 && incoming == rest0)
        && (stream.Success? && messages.Failure? ==> r == Failure(messages.error) && sent == sent2 && incoming == rest1)
        && (stream.Success? && messages.Success? ==>
              && r == Success(PromptResult(messages.value, StatsFrom(ResponseIn(rest1, id2)), stream.value))
              && sent == sent2 + [Stamp(Command("get_session_stats"), id2)]
              && incoming == AfterResponse(rest1, id2))
    {
      ghost var lines, sent0 := incoming, sent;
      ghost var id1, id2 := Decimal(old(requestId) + 2), Decimal(old(requestId) + 3);
      var id0 := Send(PromptCommand(message));
      ghost var s0 := Stamp(PromptCommand(message), id0);
      var stream := StreamTurns();
      if stream.Failure? {
        return Failure(stream.error);
      }
      ghost var rest0 := incoming;
      var messages := GetMessages();
      ghost var s1 := Stamp(Command("get_messages"), id1);
      assert sent == sent0 + [s0] + [s1] && incoming == AfterResponse(rest0, id1);
      if messages.Failure? {
        return Failure(messages.error);
      }
      ghost var rest1 := incoming;
      var stats := GetSessionStats();
      assert sent == sent0 + [s0] + [s1] + [Stamp(Command("get_session_stats"), id2)];
      assert stats == StatsFrom(ResponseIn(rest1, id2)) && incoming == AfterResponse(rest1, id2);
      r := Success(PromptResult(messages.value, stats, stream.value));
    }

    /** `abort`: sends one command and reads nothing. */
    method Abort()
      requires started && Valid()
      modifies this`requestId, this`sent
      ensures Valid()
      ensures requestId == old(requestId) + 1
      ensures sent == old(sent) + [Stamp(Command("abort"), Decimal(requestId))]
      ensures incoming == old(incoming)
    {
      var _ := Send(Command("abort"));
    }

    /** `close`: closes Pi's input if it is open; a process still running
      (`exitedMeanwhile` says whether it has exited on its own by now) is asked
      to terminate, and killed when it does not exit within the grace period
      (`exitsInGrace`). Without a process nothing happens. */
    method Close(exitedMeanwhile: bool, exitsInGrace: bool)
      modifies this`stdinOpen, this`exited, this`signals
      ensures !started ==> stdinOpen == old(stdinOpen) && exited == old(exited) && signals == old(signals)
      ensures started ==> !stdinOpen && exited
      ensures started && (old(exited) || exitedMeanwhile) ==> signals == old(signals)
      ensures started && !old(exited) && !exitedMeanwhile && exitsInGrace ==> signals == old(signals) + [Terminate]
      ensures started && !old(exited) && !exitedMeanwhile && !exitsInGrace ==> signals == old(signals) + [Terminate, Kill]
    {
      if !started {
        return;
      }
      if stdinOpen {
        stdinOpen := false;
      }
      if !exited && exitedMeanwhile {
        exited := true;
      }
      if !exited {
        signals := signals + [Terminate];
        if !exitsInGrace {
          signals := signals + [Kill];
        }
        exited := true;
      }
    }
  }

  /** Request ids within a session are pairwise distinct. */
  lemma {:induction false} SentIdsDistinct(p: PiRPC, i: nat, j: nat)
    requires p.Valid()
    requires i < j < |p.sent|
    ensures p.sent[i]["id"] != p.sent[j]["id"]
  {
    if p.sent[i]["id"] == p.sent[j]["id"] {
      DecimalInjective(i + 1, j + 1);
    }
  }
}
