/** Whole MCP sessions in terms of the JSON the client sends: what a message must hold for a tool to be reached or a
    connection to be opened, and what the answers owe to it. */
module McpSessions {
  import opened Basics
  import opened Json
  import opened Framing
  import opened McpLifecycle
  import opened Mcp

  // ---- what a client sends

  predicate IsObject(v: Option<Value>) {
    v.Some? && v.value.Object?
  }

  predicate IsString(v: Option<Value>) {
    v.Some? && v.value.String?
  }

  predicate LegalId(id: Value) {
    id.String? || (id.Integer? && -0x8000_0000_0000_0000 <= id.n <= 0xFFFF_FFFF_FFFF_FFFF)
  }

  /** A JSON-RPC 2.0 message for a method, with an object of parameters or none. */
  predicate Addressed(m: seq<Member>, name: string) {
    && Get(m, "jsonrpc") == Some(String("2.0")) && Get(m, "method") == Some(String(name))
    && (Get(m, "params").None? || IsObject(Get(m, "params")))
  }

  predicate Requests(m: seq<Member>, name: string) {
    Addressed(m, name) && Get(m, "id").Some? && LegalId(Get(m, "id").value)
  }

  predicate Notifies(m: seq<Member>, name: string) {
    Addressed(m, name) && Get(m, "id").None?
  }

  function ParamsOf(m: seq<Member>): seq<Member> {
    if IsObject(Get(m, "params")) then Get(m, "params").value.members else []
  }

  /** The arguments of a call; null counts as none. */
  function ArgumentsOf(params: seq<Member>): Option<Value> {
    if Get(params, "arguments") == Some(Null) then None else Get(params, "arguments")
  }

  predicate Known(key: string) {
    key in ["name", "arguments", "_meta"]
  }

  /** A call of this tool with these arguments and nothing else. */
  predicate Calls(m: seq<Member>, tool: string, arguments: Option<Value>) {
    && Requests(m, "tools/call") && IsObject(Get(m, "params"))
    && Get(ParamsOf(m), "name") == Some(String(tool)) && ArgumentsOf(ParamsOf(m)) == arguments
    && forall i :: 0 <= i < |ParamsOf(m)| ==> Known(ParamsOf(m)[i].key)
  }

  predicate NamesClient(v: Option<Value>) {
    IsObject(v) && IsString(Get(v.value.members, "name")) && IsString(Get(v.value.members, "version"))
  }

  /** The whole metadata of the modern protocol. */
  predicate CarriesModernMeta(params: seq<Member>) {
    IsObject(Get(params, "_meta")) &&
    var meta := Get(params, "_meta").value.members;
    && Get(meta, "io.modelcontextprotocol/protocolVersion") == Some(String("2026-07-28"))
    && NamesClient(Get(meta, "io.modelcontextprotocol/clientInfo"))
    && IsObject(Get(meta, "io.modelcontextprotocol/clientCapabilities"))
  }

  /** An initialize for some legacy version. */
  predicate Greets(m: seq<Member>, version: string) {
    && Requests(m, "initialize") && version != "2026-07-28"
    && Get(ParamsOf(m), "protocolVersion") == Some(String(version))
    && NamesClient(Get(ParamsOf(m), "clientInfo")) && IsObject(Get(ParamsOf(m), "capabilities"))
  }

  // ---- what the server makes of it

  lemma {:induction false} WithoutKeeps(members: seq<Member>, key: string, other: string)
    requires key != other
    ensures Get(Without(members, key), other) == Get(members, other)
  {
    if members != [] {
      WithoutKeeps(members[1..], key, other);
      var head := if members[0].key == key then [] else [members[0]];
      if head != [] {
        assert (head + Without(members[1..], key))[1..] == Without(members[1..], key);
      } else {
        assert head + Without(members[1..], key) == Without(members[1..], key);
      }
    }
  }

  lemma {:induction false} WithoutMembers(members: seq<Member>, key: string)
    ensures forall e :: e in Without(members, key) <==> e in members && e.key != key
  {
    if members != [] {
      WithoutMembers(members[1..], key);
      assert members == [members[0]] + members[1..];
    }
  }

  predicate Stray(e: Member) {
    e.key != "name" && e.key != "arguments"
  }

  lemma StrayStays(params: seq<Member>, i: nat)
    requires i < |params| && !Known(params[i].key)
    ensures exists j :: 0 <= j < |Without(params, "_meta")| && Stray(Without(params, "_meta")[j])
  {
    WithoutMembers(params, "_meta");
    assert params[i] in params;
    var j :| 0 <= j < |Without(params, "_meta")| && Without(params, "_meta")[j] == params[i];
  }

  lemma StrayWasThere(params: seq<Member>, j: nat)
    requires j < |Without(params, "_meta")| && Stray(Without(params, "_meta")[j])
    ensures exists i :: 0 <= i < |params| && !Known(params[i].key)
  {
    WithoutMembers(params, "_meta");
    var e := Without(params, "_meta")[j];
    assert e in Without(params, "_meta") && e in params;
    var i :| 0 <= i < |params| && params[i] == e;
    assert !Known(params[i].key);
  }

  lemma OnlyKnownKeys(params: seq<Member>)
    ensures (exists i :: 0 <= i < |params| && !Known(params[i].key))
       <==> exists j :: 0 <= j < |Without(params, "_meta")| && Stray(Without(params, "_meta")[j])
  {
    if i :| 0 <= i < |params| && !Known(params[i].key) {
      StrayStays(params, i);
    }
    if j :| 0 <= j < |Without(params, "_meta")| && Stray(Without(params, "_meta")[j]) {
      StrayWasThere(params, j);
    }
  }

  /** The call the server reads out of the parameters is the one they spell. */
  lemma CallIsAsSent(params: seq<Member>, tool: string, arguments: Option<Value>)
    ensures ToolParams(Some(params)) == Some((tool, arguments)) <==>
              && Get(params, "name") == Some(String(tool)) && ArgumentsOf(params) == arguments
              && forall i :: 0 <= i < |params| ==> Known(params[i].key)
  {
    WithoutKeeps(params, "_meta", "name");
    WithoutKeeps(params, "_meta", "arguments");
    OnlyKnownKeys(params);
    StrayIs(Without(params, "_meta"));
  }

  lemma StrayIs(rest: seq<Member>)
    ensures (exists i :: 0 <= i < |rest| && rest[i].key != "name" && rest[i].key != "arguments")
       <==> exists j :: 0 <= j < |rest| && Stray(rest[j])
  {
  }

  lemma EnvelopeIs(m: seq<Member>, name: string)
    requires Addressed(m, name)
    ensures Get(m, "id").None? ==> EnvelopeOf(Some(Object(m))) == Notification(MethodOf(name))
    ensures Requests(m, name) ==>
              EnvelopeOf(Some(Object(m)))
              == Request(Get(m, "id").value, MethodOf(name),
                         ContentOf(if Get(m, "params").Some? then Some(ParamsOf(m)) else None))
  {
  }

  /** Whatever is classified as a request or a notification is one. */
  lemma EnvelopeComesFrom(json: Option<Value>) returns (m: seq<Member>, name: string)
    requires EnvelopeOf(json).Request? || EnvelopeOf(json).Notification?
    ensures json == Some(Object(m)) && Addressed(m, name)
    ensures EnvelopeOf(json).Request? ==> Requests(m, name)
    ensures EnvelopeOf(json).Notification? ==> Notifies(m, name)
  {
    m := json.value.members;
    name := GetString(m, "method").value;
  }

  lemma CallsAre(m: seq<Member>, call: Call)
    requires Requests(m, "tools/call")
    ensures EnvelopeOf(Some(Object(m))).content.call == Some(call) <==>
              Calls(m, call.tool, call.arguments) && call.access == AccessOf(call.tool)
  {
    EnvelopeIs(m, "tools/call");
    if IsObject(Get(m, "params")) {
      CallIsAsSent(ParamsOf(m), call.tool, call.arguments);
      var read := ToolParams(Some(ParamsOf(m)));
      assert read.Some? ==> read == Some((read.value.0, read.value.1));
    }
  }

  lemma MetaIs(params: seq<Member>)
    ensures CompleteMeta(Some(params)) && MetaVersion(Some(params)) == Some(MODERN_VERSION) <==>
            CarriesModernMeta(params)
  {
  }

  lemma NoParamsNoMeta()
    ensures !CarriesModernMeta([]) && MetaVersion(None) == None
  {
  }

  /** A request with the whole modern metadata is one whose parameters carry it. */
  lemma ModernIs(m: seq<Member>, name: string)
    requires Requests(m, name)
    ensures CompleteModern(EnvelopeOf(Some(Object(m)))) <==> name != "initialize" && CarriesModernMeta(ParamsOf(m))
  {
    EnvelopeIs(m, name);
    MetaIs(ParamsOf(m));
    NoParamsNoMeta();
    VersionIsModern(MetaVersion(Some(ParamsOf(m))));
  }

  lemma VersionIsModern(version: Option<string>)
    ensures version.Some? && VersionOf(version.value) == Draft2026 <==> version == Some(MODERN_VERSION)
  {
  }

  /** An initialize that can open a connection is a greeting for some legacy version. */
  lemma GreetingIs(m: seq<Member>, name: string)
    requires Requests(m, name)
    ensures GoodInitialize(EnvelopeOf(Some(Object(m)))) <==> exists version :: Greets(m, version)
    ensures forall version :: Greets(m, version) ==>
              EnvelopeOf(Some(Object(m))).content.hello == Some(VersionOf(version))
  {
    EnvelopeIs(m, name);
    var version := GetString(ParamsOf(m), "protocolVersion");
    if version.Some? && GoodInitialize(EnvelopeOf(Some(Object(m)))) {
      assert Greets(m, version.value);
    }
  }

  lemma NoteIs(json: Option<Value>)
    ensures InitializedNote(EnvelopeOf(json)) <==>
              json.Some? && json.value.Object? && Notifies(json.value.members, "notifications/initialized")
  {
    if json.Some? && json.value.Object? {
      var m := json.value.members;
      if Notifies(m, "notifications/initialized") {
        EnvelopeIs(m, "notifications/initialized");
      }
      if InitializedNote(EnvelopeOf(json)) {
        var n, name := EnvelopeComesFrom(json);
        EnvelopeIs(m, name);
      }
    }
  }

  // ---- sessions over bytes

  /** A message is what its line holds before the line end, which is a newline, a carriage return and a newline, or
      nothing at the end of the input. */
  lemma ChompedIsTheText(text: seq<Byte>, end: seq<Byte>)
    requires end == [] || end == [NEWLINE] || end == [0x0D, NEWLINE]
    requires text != [] ==> text[|text| - 1] != NEWLINE && text[|text| - 1] != 0x0D
    ensures Chomped(text + end) == text
  {
    var line := text + end;
    if end == [NEWLINE] {
      assert line[..|line| - 1] == text;
    } else if end == [0x0D, NEWLINE] {
      assert line[..|line| - 1] == text + [0x0D] && (text + [0x0D])[..|text|] == text;
    } else {
      assert line == text;
    }
  }

  /** Line i of the input holds this message. */
  predicate Sends(bytes: seq<Byte>, read: seq<Byte> -> Reading, i: nat, m: seq<Member>) {
    && i < |Lines(bytes)| && |Lines(bytes)[i]| <= MAX_MESSAGE_BYTES
    && read(Chomped(Lines(bytes)[i])) == Message(Some(Object(m)))
  }

  lemma SentIsTraced(bytes: seq<Byte>, read: seq<Byte> -> Reading, i: nat, m: seq<Member>)
    requires Sends(bytes, read, i, m)
    ensures i < |Trace(bytes, read)| && Trace(bytes, read)[i] == EnvelopeOf(Some(Object(m)))
  {
    assert FrameOf(Lines(bytes)[i]) == Frame(false, Lines(bytes)[i]);
  }

  lemma TracedIsSent(bytes: seq<Byte>, read: seq<Byte> -> Reading, i: nat) returns (m: seq<Member>, name: string)
    requires i < |Trace(bytes, read)| && Trace(bytes, read)[i].Request?
    ensures Sends(bytes, read, i, m) && Requests(m, name)
    ensures Trace(bytes, read)[i] == EnvelopeOf(Some(Object(m)))
  {
    var line := Lines(bytes)[i];
    assert Trace(bytes, read)[i] == Carried(FrameOf(line), read, EnvelopeOf);
    m, name := EnvelopeComesFrom(read(Chomped(line)).json);
  }

  /** A session reaches a tool only for a request that calls this tool with these arguments under this id, from a client
      entitled to it. */
  lemma ReachedAsSent(bytes: seq<Byte>, read: seq<Byte> -> Reading, writeTools: bool, r: Response)
    returns (i: nat, m: seq<Member>)
    requires r in Responses(Trace(bytes, read), |Trace(bytes, read)|, writeTools) && r.Called?
    ensures Sends(bytes, read, i, m) && Calls(m, r.call.tool, r.call.arguments) && Get(m, "id") == Some(r.id)
    ensures r.call.tool in ToolNames(writeTools) && i < |Trace(bytes, read)| && Entitled(Trace(bytes, read), i)
  {
    var trace := Trace(bytes, read);
    i := ServedOnlyWhenEntitled(trace, writeTools, r);
    var name;
    m, name := TracedIsSent(bytes, read, i);
    CallWasNamed(m, name, r.call);
    OfferedIffListed(r.call.tool, writeTools);
  }

  lemma CallWasNamed(m: seq<Member>, name: string, call: Call)
    requires Requests(m, name) && EnvelopeOf(Some(Object(m))).content.call == Some(call)
    requires EnvelopeOf(Some(Object(m))).operation == CallTool
    ensures Calls(m, call.tool, call.arguments) && call.access == AccessOf(call.tool)
    ensures Get(m, "id") == Some(EnvelopeOf(Some(Object(m))).id)
  {
    EnvelopeIs(m, name);
    CallsAre(m, call);
  }

  lemma {:induction false} AnswerIsEmitted(trace: seq<Envelope>, n: nat, writeTools: bool, i: nat, r: Response)
    requires i < n <= |trace| && Answer(After(trace, i), trace[i], writeTools) == Some(r)
    ensures r in Responses(trace, n, writeTools)
  {
    if i < n - 1 {
      AnswerIsEmitted(trace, n - 1, writeTools, i, r);
    }
  }

  /** And conversely: an entitled client that calls a listed tool reaches it, with its arguments and under its id. */
  lemma SentIsReached(bytes: seq<Byte>, read: seq<Byte> -> Reading, writeTools: bool, i: nat, m: seq<Member>,
        tool: string, arguments: Option<Value>)
    requires Sends(bytes, read, i, m) && Calls(m, tool, arguments) && tool in ToolNames(writeTools)
    requires i < |Trace(bytes, read)| && Entitled(Trace(bytes, read), i)
    ensures Called(Get(m, "id").value, Call(tool, AccessOf(tool), arguments), CarriesModernMeta(ParamsOf(m)))
         in Responses(Trace(bytes, read), |Trace(bytes, read)|, writeTools)
  {
    var trace, call := Trace(bytes, read), Call(tool, AccessOf(tool), arguments);
    SentIsTraced(bytes, read, i, m);
    EnvelopeIs(m, "tools/call");
    CallsAre(m, call);
    ModernIs(m, "tools/call");
    OfferedIffListed(tool, writeTools);
    EntitledIsServed(trace, i, writeTools);
    AnswerIsEmitted(trace, |trace|, writeTools, i, Called(Get(m, "id").value, call, CarriesModernMeta(ParamsOf(m))));
  }

  // ---- opening a connection

  lemma WelcomeIsGreeted(s: State, e: Envelope, writeTools: bool)
    ensures var answer := Answer(s, e, writeTools);
            answer.Some? && answer.value.Welcome? ==>
              && s == START && GoodInitialize(e) && answer.value.id == e.id
              && answer.value.negotiated == if e.content.hello.value == June2025 then June2025 else November2025
  {
  }

  lemma StartIsUnopened(trace: seq<Envelope>, n: nat)
    requires n <= |trace|
    ensures After(trace, n) == START <==> forall i :: 0 <= i < n ==> !Opens(trace[i])
  {
    StateIsHistory(trace, n);
  }

  lemma GreetingVersion(m: seq<Member>, name: string) returns (version: string)
    requires Requests(m, name) && GoodInitialize(EnvelopeOf(Some(Object(m))))
    ensures Greets(m, version) && EnvelopeOf(Some(Object(m))).content.hello == Some(VersionOf(version))
    ensures EnvelopeOf(Some(Object(m))).id == Get(m, "id").value
  {
    GreetingIs(m, name);
    EnvelopeIs(m, name);
    version :| Greets(m, version);
  }

  /** A session welcomes only the first opener, a greeting, and settles on the version it asks for when that is a legacy
      version and on the newest legacy version otherwise. */
  lemma WelcomedAsAsked(bytes: seq<Byte>, read: seq<Byte> -> Reading, writeTools: bool, r: Response)
    returns (i: nat, m: seq<Member>, version: string)
    requires r in Responses(Trace(bytes, read), |Trace(bytes, read)|, writeTools) && r.Welcome?
    ensures Sends(bytes, read, i, m) && Greets(m, version) && Get(m, "id") == Some(r.id)
    ensures r.negotiated == if version == "2025-06-18" then June2025 else November2025
    ensures i < |Trace(bytes, read)| && forall j :: 0 <= j < i ==> !Opens(Trace(bytes, read)[j])
  {
    var trace := Trace(bytes, read);
    i := AnswersAreLocal(trace, |trace|, writeTools, r);
    WelcomeIsGreeted(After(trace, i), trace[i], writeTools);
    StartIsUnopened(trace, i);
    var name;
    m, name := TracedIsSent(bytes, read, i);
    version := GreetingVersion(m, name);
  }

  /** And conversely: the first opener, if it is a greeting, is welcomed. */
  lemma GreetedIsWelcomed(bytes: seq<Byte>, read: seq<Byte> -> Reading, writeTools: bool, i: nat, m: seq<Member>,
        version: string)
    requires Sends(bytes, read, i, m) && Greets(m, version) && i < |Trace(bytes, read)|
    requires forall j :: 0 <= j < i ==> !Opens(Trace(bytes, read)[j])
    ensures Welcome(Get(m, "id").value, if version == "2025-06-18" then June2025 else November2025)
         in Responses(Trace(bytes, read), |Trace(bytes, read)|, writeTools)
  {
    var trace := Trace(bytes, read);
    SentIsTraced(bytes, read, i, m);
    GreetingIs(m, "initialize");
    EnvelopeIs(m, "initialize");
    StartIsUnopened(trace, i);
    AnswerIsEmitted(trace, |trace|, writeTools, i,
                    Welcome(Get(m, "id").value, if version == "2025-06-18" then June2025 else November2025));
  }

  // ---- what every answer owes its message

  /** The id an answer must carry: that of the message if it has a legal one, null otherwise. */
  function IdOf(json: Option<Value>): Value {
    if json.Some? && json.value.Object? && Get(json.value.members, "id").Some?
       && LegalId(Get(json.value.members, "id").value)
    then Get(json.value.members, "id").value
    else Null
  }

  lemma AnswerEchoesId(json: Option<Value>, s: State, writeTools: bool)
    ensures var answer := Answer(s, EnvelopeOf(json), writeTools);
            answer.Some? ==> answer.value.id == IdOf(json)
  {
    var e := EnvelopeOf(json);
    if e.Request? {
      var m, name := EnvelopeComesFrom(json);
      EnvelopeIs(m, name);
    }
  }

  /** Only JSON-RPC messages that carry no id at all go unanswered. */
  lemma UnansweredIff(json: Option<Value>, s: State, writeTools: bool)
    ensures Answer(s, EnvelopeOf(json), writeTools).None? <==>
              && json.Some? && json.value.Object? && Get(json.value.members, "id").None?
              && Get(json.value.members, "jsonrpc") == Some(String("2.0"))
              && IsString(Get(json.value.members, "method"))
  {
  }

  // ---- what the error codes mean

  predicate WellFormed(m: seq<Member>) {
    && Get(m, "jsonrpc") == Some(String("2.0")) && IsString(Get(m, "method"))
    && (Get(m, "id").Some? ==> LegalId(Get(m, "id").value))
  }

  /** The codes of messages refused before anything else: no JSON, no well-formed request, parameters that are no
      object. */
  lemma EnvelopeErrors(json: Option<Value>)
    ensures var e := EnvelopeOf(json);
            && (e.Malformed? && e.code == PARSE_ERROR <==> json.None?)
            && (e.Malformed? && e.code == INVALID_PARAMS <==>
                  && IsObject(json) && WellFormed(json.value.members) && Get(json.value.members, "id").Some?
                  && Get(json.value.members, "params").Some? && !Get(json.value.members, "params").value.Object?)
            && (e.Malformed? && e.code == INVALID_REQUEST <==>
                  json.Some? && !(json.value.Object? && WellFormed(json.value.members)))
  {
  }

  /** The version a request states in its metadata, if it states one. */
  function StatedVersion(params: seq<Member>): Option<string> {
    if IsObject(Get(params, "_meta"))
       && IsString(Get(Get(params, "_meta").value.members, "io.modelcontextprotocol/protocolVersion"))
    then Some(Get(Get(params, "_meta").value.members, "io.modelcontextprotocol/protocolVersion").value.s)
    else None
  }

  lemma VersionNamed(text: string)
    ensures VersionOf(text) == Draft2026 <==> text == "2026-07-28"
    ensures VersionOf(text) == November2025 <==> text == "2025-11-25"
    ensures VersionOf(text) == June2025 <==> text == "2025-06-18"
  {
    assert |"2026-07-28"| == |"2025-11-25"| == |"2025-06-18"| == 10;
    assert "2026-07-28"[3] == '6' && "2025-11-25"[3] == '5' && "2025-06-18"[3] == '5';
    assert "2025-11-25"[5] == '1' && "2025-06-18"[5] == '0';
  }

  lemma MetaVersionIs(params: seq<Member>)
    ensures MetaVersion(Some(params)) == StatedVersion(params)
    ensures MetaVersion(None) == None && StatedVersion([]) == None
  {
  }

  /** A request of a legacy client states no version or one of the two legacy ones; any version but these and the modern
      one is unsupported. */
  lemma LegacyIs(m: seq<Member>, name: string)
    requires Requests(m, name)
    ensures var e, version := EnvelopeOf(Some(Object(m))), StatedVersion(ParamsOf(m));
            && (LegacyRequest(e) <==> name != "initialize" && name != "server/discover"
                                      && version in {None, Some("2025-11-25"), Some("2025-06-18")})
            && (e.content.version == Some(Unsupported) <==>
                  version.Some? && version.value !in {"2026-07-28", "2025-11-25", "2025-06-18"})
  {
    EnvelopeIs(m, name);
    MetaVersionIs(ParamsOf(m));
    if StatedVersion(ParamsOf(m)).Some? {
      VersionNamed(StatedVersion(ParamsOf(m)).value);
    }
    MethodNamed(name);
  }

  lemma MethodNamed(name: string)
    ensures MethodOf(name) == Initialize <==> name == "initialize"
    ensures MethodOf(name) == Discover <==> name == "server/discover"
    ensures MethodOf(name) == ListTools <==> name == "tools/list"
    ensures MethodOf(name) == CallTool <==> name == "tools/call"
  {
    assert |"initialize"| == 10 && |"server/discover"| == 15 && |"tools/list"| == 10 && |"tools/call"| == 10;
    assert |"notifications/initialized"| == 25;
    assert "initialize"[0] == 'i' && "tools/list"[0] == 't' && "tools/call"[6] == 'c' && "tools/list"[6] == 'l';
  }

  /** The connection was opened by a greeting. */
  ghost predicate OpenedLegacy(trace: seq<Envelope>, n: nat)
    requires n <= |trace|
  {
    exists i :: OpenedAt(trace, n, i) && GoodInitialize(trace[i])
  }

  /** It was opened by a modern request. */
  ghost predicate OpenedModern(trace: seq<Envelope>, n: nat)
    requires n <= |trace|
  {
    exists i :: OpenedAt(trace, n, i) && !GoodInitialize(trace[i])
  }

  lemma ModeIs(trace: seq<Envelope>, n: nat)
    requires n <= |trace|
    ensures After(trace, n).mode == Legacy <==> OpenedLegacy(trace, n)
    ensures After(trace, n).mode == Modern <==> OpenedModern(trace, n)
    ensures After(trace, n) == START <==> !OpenedLegacy(trace, n) && !OpenedModern(trace, n)
  {
    StateIsHistory(trace, n);
    if After(trace, n).mode != Undetermined {
      var i := FirstOpener(trace, n);
      assert Opened(After(trace, n), trace, n, i);
      assert forall j :: OpenedAt(trace, n, j) ==> j == i;
    }
  }

  /** A call of a tool that is not offered, or of nothing the server knows. */
  predicate Unanswerable(e: Envelope, writeTools: bool)
    requires e.Request?
  {
    && e.operation != ListTools && (e.operation == Discover ==> !CompleteModern(e))
    && (e.operation == CallTool ==> e.content.call.Some? && !Offered(e.content.call.value.access, writeTools))
  }

  /** The metadata is that of no protocol the request could be served under. */
  predicate WrongMeta(e: Envelope, modern: bool)
    requires e.Request?
  {
    if e.content.version == Some(Draft2026) then !e.content.complete
    else (e.operation == Discover || modern) && e.content.version != Some(Unsupported)
  }

  lemma CodesOf(s: State, e: Envelope, writeTools: bool, code: int)
    requires e.Request? && Answer(s, e, writeTools) == Some(Failure(e.id, code))
    requires s.phase == NotInitialized <==> s.mode != Legacy
    ensures code == UNSUPPORTED_VERSION <==> e.operation != Initialize && e.content.version == Some(Unsupported)
    ensures code == SESSION_NOT_INITIALIZED <==> LegacyRequest(e) && !Admitted(s, e) && s.mode != Modern
    ensures code == METHOD_NOT_FOUND <==>
              if e.operation == Initialize then s == START && e.content.hello == Some(Draft2026)
              else Admitted(s, e) && Unanswerable(e, writeTools)
    ensures code == INVALID_REQUEST <==>
              if e.operation == Initialize then s != START else CompleteModern(e) && s.mode == Legacy
    ensures code == INVALID_PARAMS <==>
              if e.operation == Initialize then s == START && e.content.hello.None?
              else WrongMeta(e, s.mode == Modern)
                   || (Admitted(s, e) && e.operation == CallTool && e.content.call.None?)
  {
    var version := e.content.version;
    assert version in {None, Some(November2025), Some(June2025)} || version == Some(Draft2026)
        || version == Some(Unsupported) by {
      if version.Some? {
        match version.value case Draft2026 => case November2025 => case June2025 => case Unsupported =>
      }
    }
  }

  /** What an error code says about the request and the messages before it: an unsupported version is one the request
      states itself; a session is not initialized for a legacy request that is not entitled, unless the connection is
      modern; a method is not found when it is unknown, a tool not offered, or initialize names the modern version; a
      request is invalid when it opens a connection again or in the other mode; parameters are invalid when metadata or
      arguments are wrong. */
  lemma CodesMean(trace: seq<Envelope>, n: nat, writeTools: bool, code: int)
    requires n < |trace| && trace[n].Request?
    requires Answer(After(trace, n), trace[n], writeTools) == Some(Failure(trace[n].id, code))
    ensures var e, begun := trace[n], OpenedLegacy(trace, n) || OpenedModern(trace, n);
            && (code == UNSUPPORTED_VERSION <==> e.operation != Initialize && e.content.version == Some(Unsupported))
            && (code == SESSION_NOT_INITIALIZED <==>
                  LegacyRequest(e) && !Entitled(trace, n) && !OpenedModern(trace, n))
            && (code == METHOD_NOT_FOUND <==>
                  if e.operation == Initialize then !begun && e.content.hello == Some(Draft2026)
                  else Entitled(trace, n) && Unanswerable(e, writeTools))
            && (code == INVALID_REQUEST <==>
                  if e.operation == Initialize then begun else CompleteModern(e) && OpenedLegacy(trace, n))
            && (code == INVALID_PARAMS <==>
                  if e.operation == Initialize then !begun && e.content.hello.None?
                  else WrongMeta(e, OpenedModern(trace, n))
                       || (Entitled(trace, n) && e.operation == CallTool && e.content.call.None?))
  {
    StateIsHistory(trace, n);
    AdmittedIffEntitled(trace, n);
    ModeIs(trace, n);
    CodesOf(After(trace, n), trace[n], writeTools, code);
  }
}
