/** The MCP stdio server's message handling (`src/mcp.rs`): parsed messages come in, the connection state changes
    in place, tool handlers are reached or not. */
module Mcp {
  import opened Basics
  import opened Json
  import opened Framing
  import opened McpLifecycle

  const JSONRPC_VERSION := "2.0"
  const MODERN_VERSION := "2026-07-28"
  const LEGACY_VERSION := "2025-11-25"
  const CODEX_LEGACY_VERSION := "2025-06-18"
  const VERSION_META := "io.modelcontextprotocol/protocolVersion"
  const CLIENT_INFO_META := "io.modelcontextprotocol/clientInfo"
  const CLIENT_CAPABILITIES_META := "io.modelcontextprotocol/clientCapabilities"
  const READ_ONLY_TOOLS := ["memory_status", "memory_recall", "memory_search"]
  const WRITE_TOOLS :=
    ["memory_create", "memory_conclude", "memory_checkpoint", "memory_import_preview", "memory_import_apply"]

  // ---- what a message is, whatever the state

  function VersionOf(text: string): Version {
    if text == MODERN_VERSION then Draft2026
    else if text == LEGACY_VERSION then November2025
    else if text == CODEX_LEGACY_VERSION then June2025
    else Unsupported
  }

  function MethodOf(name: string): Method {
    if name == "initialize" then McpLifecycle.Initialize
    else if name == "notifications/initialized" then Initialized
    else if name == "server/discover" then Discover
    else if name == "tools/list" then ListTools
    else if name == "tools/call" then CallTool
    else Other
  }

  function AccessOf(tool: string): Access {
    if tool in READ_ONLY_TOOLS then ReadOnly else if tool in WRITE_TOOLS then Write else Unknown
  }

  predicate ValidRequestId(id: Value) {
    id.String? || (id.Integer? && -0x8000_0000_0000_0000 <= id.n < 0x1_0000_0000_0000_0000)
  }

  predicate ValidClientInfo(v: Value) {
    v.Object? && GetString(v.members, "name").Some? && GetString(v.members, "version").Some?
  }

  predicate HasClientInfo(members: seq<Member>, key: string) {
    var info := Get(members, key);
    info.Some? && ValidClientInfo(info.value)
  }

  function ResponseId(members: seq<Member>): Value {
    var id := Get(members, "id");
    if id.Some? && ValidRequestId(id.value) then id.value else Null
  }

  function MetaOf(params: Option<seq<Member>>): Option<seq<Member>> {
    if params.Some? then GetObject(params.value, "_meta") else None
  }

  function MetaVersion(params: Option<seq<Member>>): Option<string> {
    var meta := MetaOf(params);
    if meta.Some? then GetString(meta.value, VERSION_META) else None
  }

  predicate CompleteMeta(params: Option<seq<Member>>) {
    var meta := MetaOf(params);
    meta.Some? && HasClientInfo(meta.value, CLIENT_INFO_META) && GetObject(meta.value, CLIENT_CAPABILITIES_META).Some?
  }

  function Hello(params: Option<seq<Member>>): Option<Version> {
    if params.None? then None
    else
      var version := GetString(params.value, "protocolVersion");
      if version.Some? && HasClientInfo(params.value, "clientInfo") && GetObject(params.value, "capabilities").Some?
      then Some(VersionOf(version.value))
      else None
  }

  function Without(members: seq<Member>, key: string): seq<Member> {
    if members == [] then []
    else (if members[0].key == key then [] else [members[0]]) + Without(members[1..], key)
  }

  /** `ToolCallParams`: a name, optional arguments, nothing else. */
  function ToolParams(params: Option<seq<Member>>): Option<(string, Option<Value>)> {
    if params.None? then None
    else
      var rest := Without(params.value, "_meta");
      var name, arguments := GetString(rest, "name"), Get(rest, "arguments");
      if name.None? || exists i :: 0 <= i < |rest| && rest[i].key != "name" && rest[i].key != "arguments" then None
      else Some((name.value, if arguments == Some(Null) then None else arguments))
  }

  function CallOf(params: Option<seq<Member>>): Option<Call> {
    var call := ToolParams(params);
    if call.Some? then Some(Call(call.value.0, AccessOf(call.value.0), call.value.1)) else None
  }

  function ContentOf(params: Option<seq<Member>>): Content {
    var version := MetaVersion(params);
    Content(if version.Some? then Some(VersionOf(version.value)) else None,
            CompleteMeta(params), Hello(params), CallOf(params))
  }

  /** A message with a legal envelope, as a request or a notification, or the error for the first thing wrong. */
  function EnvelopeOf(message: Option<Value>): Envelope {
    if message.None? then Malformed(Null, PARSE_ERROR)
    else if !message.value.Object? then Malformed(Null, INVALID_REQUEST)
    else
      var members := message.value.members;
      var id, name, params := Get(members, "id"), GetString(members, "method"), Get(members, "params");
      var reply := ResponseId(members);
      if GetString(members, "jsonrpc") != Some(JSONRPC_VERSION) || name.None? then Malformed(reply, INVALID_REQUEST)
      else if id.Some? && !ValidRequestId(id.value) then Malformed(Null, INVALID_REQUEST)
      else if params.Some? && !params.value.Object? then
        (if id.None? then Dropped else Malformed(reply, INVALID_PARAMS))
      else if id.None? then Notification(MethodOf(name.value))
      else Request(reply, MethodOf(name.value), ContentOf(if params.Some? then Some(params.value.members) else None))
  }

  // ---- handling one message

  method HandleToolCall(id: Value, tool: string, arguments: Option<Value>, writeTools: bool, modern: bool)
    returns (r: Response)
    ensures r == (if Offered(AccessOf(tool), writeTools) then Called(id, Call(tool, AccessOf(tool), arguments), modern)
                  else Failure(id, METHOD_NOT_FOUND))
  {
    if !writeTools && tool !in READ_ONLY_TOOLS {
      return Failure(id, METHOD_NOT_FOUND);
    }
    if writeTools && tool !in READ_ONLY_TOOLS && tool !in WRITE_TOOLS {
      return Failure(id, METHOD_NOT_FOUND);
    }
    r := Called(id, Call(tool, AccessOf(tool), arguments), modern);
  }

  method HandleRequest(id: Value, name: string, params: Option<seq<Member>>, writeTools: bool, modern: bool)
    returns (r: Response)
    requires name != "server/discover"
    ensures r == Served(id, MethodOf(name), CallOf(params), writeTools, modern)
  {
    if name == "tools/list" {
      r := Listed(id, writeTools, modern);
    } else if name == "tools/call" {
      var call := ToolParams(params);
      match call
      case Some((tool, arguments)) => r := HandleToolCall(id, tool, arguments, writeTools, modern);
      case None => r := Failure(id, INVALID_PARAMS);
    } else {
      r := Failure(id, METHOD_NOT_FOUND);
    }
  }

  class ServerState {
    var connectionMode: ConnectionMode
    var legacyPhase: LegacyPhase

    function Current(): State
      reads this
    {
      State(connectionMode, legacyPhase)
    }

    predicate Valid()
      reads this
    {
      legacyPhase == NotInitialized <==> connectionMode != Legacy
    }

    constructor ()
      ensures Valid() && Current() == START
    {
      connectionMode := Undetermined;
      legacyPhase := NotInitialized;
    }

    method HandleMessage(message: Option<Value>, writeTools: bool) returns (r: Option<Response>)
      requires Valid()
      modifies this
      ensures Valid()
      ensures Current() == Moved(old(Current()), EnvelopeOf(message))
      ensures r == Answer(old(Current()), EnvelopeOf(message), writeTools)
    {
      if message.None? {
        return Some(Failure(Null, PARSE_ERROR));
      }
      if !message.value.Object? {
        return Some(Failure(Null, INVALID_REQUEST));
      }
      var members := message.value.members;
      var id := Get(members, "id");
      var responseId := ResponseId(members);
      if GetString(members, "jsonrpc") != Some(JSONRPC_VERSION) {
        return Some(Failure(responseId, INVALID_REQUEST));
      }
      var name := GetString(members, "method");
      if name.None? {
        return Some(Failure(responseId, INVALID_REQUEST));
      }
      if id.Some? && !ValidRequestId(id.value) {
        return Some(Failure(Null, INVALID_REQUEST));
      }
      var isNotification := id.None?;
      var params := Get(members, "params");
      if params.Some? && !params.value.Object? {
        return if isNotification then None else Some(Failure(responseId, INVALID_PARAMS));
      }
      if isNotification {
        if name.value == "notifications/initialized" && legacyPhase == AwaitingInitialized {
          legacyPhase := Ready;
        }
        return None;
      }
      r := HandleIncoming(responseId, name.value,
                          if params.Some? then Some(params.value.members) else None, writeTools);
    }

    /** The rest of the dispatch, for a request with a legal envelope. */
    method HandleIncoming(id: Value, name: string, params: Option<seq<Member>>, writeTools: bool)
      returns (r: Option<Response>)
      requires Valid()
      modifies this
      ensures Valid()
      ensures Current() == Moved(old(Current()), Request(id, MethodOf(name), ContentOf(params)))
      ensures r == Answer(old(Current()), Request(id, MethodOf(name), ContentOf(params)), writeTools)
    {
      if name == "initialize" {
        var welcome := Initialize(id, params);
        return Some(welcome);
      }
      var meta := MetaOf(params);
      var version := if meta.Some? then GetString(meta.value, VERSION_META) else None;
      if version.Some? {
        if VersionOf(version.value) == Unsupported {
          return Some(Failure(id, UNSUPPORTED_VERSION));
        }
        if version.value == MODERN_VERSION {
          var modern := HandleModern(id, name, params, meta.value, writeTools);
          return Some(modern);
        }
      }
      var legacy := HandleLegacy(id, name, params, writeTools);
      return Some(legacy);
    }

    /** A request that states the modern version. */
    method HandleModern(id: Value, name: string, params: Option<seq<Member>>, meta: seq<Member>, writeTools: bool)
      returns (r: Response)
      requires Valid() && name != "initialize"
      requires MetaOf(params) == Some(meta) && GetString(meta, VERSION_META) == Some(MODERN_VERSION)
      modifies this
      ensures Valid()
      ensures Current() == Moved(old(Current()), Request(id, MethodOf(name), ContentOf(params)))
      ensures Some(r) == Answer(old(Current()), Request(id, MethodOf(name), ContentOf(params)), writeTools)
    {
      if GetObject(meta, CLIENT_INFO_META).None? || GetObject(meta, CLIENT_CAPABILITIES_META).None? {
        return Failure(id, INVALID_PARAMS);
      }
      if !ValidClientInfo(Get(meta, CLIENT_INFO_META).value) {
        return Failure(id, INVALID_PARAMS);
      }
      if connectionMode == Legacy {
        return Failure(id, INVALID_REQUEST);
      }
      connectionMode := Modern;
      if name == "server/discover" {
        return Discovered(id);
      }
      r := HandleRequest(id, name, params, writeTools, true);
    }

    /** A request that states a legacy version or none. */
    method HandleLegacy(id: Value, name: string, params: Option<seq<Member>>, writeTools: bool) returns (r: Response)
      requires Valid() && name != "initialize"
      requires ContentOf(params).version in {None, Some(November2025), Some(June2025)}
      modifies this
      ensures Valid()
      ensures Current() == Moved(old(Current()), Request(id, MethodOf(name), ContentOf(params)))
      ensures Some(r) == Answer(old(Current()), Request(id, MethodOf(name), ContentOf(params)), writeTools)
    {
      if name == "server/discover" {
        return Failure(id, INVALID_PARAMS);
      }
      if connectionMode == Modern {
        return Failure(id, INVALID_PARAMS);
      }
      if legacyPhase != Ready {
        return Failure(id, SESSION_NOT_INITIALIZED);
      }
      r := HandleRequest(id, name, params, writeTools, false);
    }

    method Initialize(id: Value, params: Option<seq<Member>>) returns (r: Response)
      requires Valid()
      modifies this
      ensures Valid()
      ensures Current() == Moved(old(Current()), Request(id, McpLifecycle.Initialize, ContentOf(params)))
      ensures r == InitializeAnswer(old(Current()), id, Hello(params))
    {
      if connectionMode == Modern {
        return Failure(id, INVALID_REQUEST);
      }
      if legacyPhase != NotInitialized {
        return Failure(id, INVALID_REQUEST);
      }
      if params.None? {
        return Failure(id, INVALID_PARAMS);
      }
      var requested := GetString(params.value, "protocolVersion");
      if requested.None? {
        return Failure(id, INVALID_PARAMS);
      }
      if !HasClientInfo(params.value, "clientInfo") || GetObject(params.value, "capabilities").None? {
        return Failure(id, INVALID_PARAMS);
      }
      if requested.value == MODERN_VERSION {
        return Failure(id, METHOD_NOT_FOUND);
      }
      connectionMode := Legacy;
      legacyPhase := AwaitingInitialized;
      r := Welcome(id, if requested.value == CODEX_LEGACY_VERSION then June2025 else November2025);
    }
  }

  // ---- the stdio loop

  /** What a line's bytes hold: decided outside the model by UTF-8 decoding and JSON parsing. */
  datatype Reading = NotUtf8 | Blank | Message(json: Option<Value>)

  function Chomped(line: seq<Byte>): seq<Byte> {
    var l1 := if line != [] && line[|line| - 1] == NEWLINE then line[..|line| - 1] else line;
    if l1 != [] && l1[|l1| - 1] == 0x0D then l1[..|l1| - 1] else l1
  }

  /** The envelope a frame carries; a blank line is dropped. */
  function Carried(frame: Frame, read: seq<Byte> -> Reading, classify: Option<Value> -> Envelope): Envelope {
    if frame.oversized then Malformed(Null, PARSE_ERROR)
    else
      match read(Chomped(frame.line))
      case NotUtf8 => Malformed(Null, PARSE_ERROR)
      case Blank => Dropped
      case Message(json) => classify(json)
  }

  /** The envelopes of the lines of a byte stream. */
  function Envelopes(lines: seq<seq<Byte>>, read: seq<Byte> -> Reading, classify: Option<Value> -> Envelope)
    : (trace: seq<Envelope>)
    ensures |trace| == |lines|
  {
    seq(|lines|, i requires 0 <= i < |lines| => Carried(FrameOf(lines[i]), read, classify))
  }

  /** One turn of the loop. */
  method AnswerFrame(state: ServerState, frame: Frame, read: seq<Byte> -> Reading, ghost e: Envelope, writeTools: bool)
    returns (r: Option<Response>)
    requires state.Valid() && e == Carried(frame, read, EnvelopeOf)
    modifies state
    ensures state.Valid()
    ensures state.Current() == Moved(old(state.Current()), e)
    ensures r == Answer(old(state.Current()), e, writeTools)
  {
    if frame.oversized {
      return Some(Failure(Null, PARSE_ERROR));
    }
    match read(Chomped(frame.line))
    case NotUtf8 => r := Some(Failure(Null, PARSE_ERROR));
    case Blank => r := None;
    case Message(json) => r := state.HandleMessage(json, writeTools);
  }

  /** The trace a byte stream amounts to. */
  function Trace(bytes: seq<Byte>, read: seq<Byte> -> Reading): seq<Envelope> {
    Envelopes(Lines(bytes), read, EnvelopeOf)
  }

  /** However the input is cut into buffers, the loop answers the lines of the input in order. */
  method RunStdio(reader: BufReader, read: seq<Byte> -> Reading, writeTools: bool) returns (out: seq<Response>)
    requires reader.Valid()
    modifies reader
    ensures var trace := Trace(old(reader.Rest()), read);
            out == Responses(trace, |trace|, writeTools)
  {
    var state := new ServerState();
    out := [];
    ghost var lines, k := Lines(reader.Rest()), 0;
    ghost var trace := Trace(reader.Rest(), read);
    while true
      invariant reader.Valid() && state.Valid() && fresh(state)
      invariant 0 <= k <= |lines| && lines[k..] == Lines(reader.Rest())
      invariant state.Current() == After(trace, k)
      invariant out == Responses(trace, k, writeTools)
      decreases |reader.Rest()|
    {
      ghost var s := reader.Rest();
      var frame := ReadMcpLine(reader);
      if frame.None? {
        assert Lines(s) == [] && k == |lines| == |trace|;
        return;
      }
      NextLine(lines, k, s);
      ghost var e := trace[k];
      var r := AnswerFrame(state, frame.value, read, e, writeTools);
      out := out + Emitted(r);
      k := k + 1;
    }
  }

  lemma NextLine(lines: seq<seq<Byte>>, k: nat, s: seq<Byte>)
    requires s != [] && k <= |lines| && lines[k..] == Lines(s)
    ensures k < |lines| && lines[k] == s[..LineLength(s)] && lines[k + 1..] == Lines(s[LineLength(s)..])
  {
    assert lines[k..][0] == lines[k] && lines[k..][1..] == lines[k + 1..];
    assert Lines(s)[1..] == Lines(s[LineLength(s)..]);
  }

  // ---- whole sessions

  function ToolNames(writeTools: bool): seq<string> {
    READ_ONLY_TOOLS + (if writeTools then WRITE_TOOLS else [])
  }

  lemma OfferedIffListed(tool: string, writeTools: bool)
    ensures Offered(AccessOf(tool), writeTools) <==> tool in ToolNames(writeTools)
  {
  }

  lemma CallsAreClassified(json: Option<Value>)
    ensures var e := EnvelopeOf(json);
            e.Request? && e.content.call.Some? ==> e.content.call.value.access == AccessOf(e.content.call.value.tool)
  {
  }

  /** Whatever the input bytes, and whatever they decode to: a session reaches only tools its tool list names, in
      particular no write tool without write tools, and only for a message entitled to it. */
  lemma ReachedToolsAreListed(bytes: seq<Byte>, read: seq<Byte> -> Reading, writeTools: bool, r: Response)
    returns (i: nat)
    requires r in Responses(Trace(bytes, read), |Trace(bytes, read)|, writeTools) && r.Called?
    ensures r.call.tool in ToolNames(writeTools)
    ensures i < |Trace(bytes, read)| && Entitled(Trace(bytes, read), i)
  {
    var trace := Trace(bytes, read);
    i := ServedOnlyWhenEntitled(trace, writeTools, r);
    var frame := FrameOf(Lines(bytes)[i]);
    assert trace[i] == Carried(frame, read, EnvelopeOf);
    CallsAreClassified(read(Chomped(frame.line)).json);
    OfferedIffListed(r.call.tool, writeTools);
  }
}
