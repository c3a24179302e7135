/** The lifecycle of an MCP stdio connection (`src/mcp.rs`) as an automaton over classified messages: the modern,
    per-request protocol and the legacy, initialize-first protocol, never mixed on one connection. */
module McpLifecycle {
  import opened Basics
  import opened Json

  datatype ConnectionMode = Undetermined | Modern | Legacy

  datatype LegacyPhase = NotInitialized | AwaitingInitialized | Ready

  datatype State = State(mode: ConnectionMode, phase: LegacyPhase)

  const START := State(Undetermined, NotInitialized)

  datatype Version = Draft2026 | November2025 | June2025 | Unsupported

  datatype Method = Initialize | Initialized | Discover | ListTools | CallTool | Other

  datatype Access = ReadOnly | Write | Unknown

  datatype Call = Call(tool: string, access: Access, arguments: Option<Value>)

  /** Of a request: the version in its metadata, whether the rest of the modern metadata is complete, the version an
      initialize with legal parameters asks for, and the call that legal tools/call parameters make. */
  datatype Content = Content(version: Option<Version>, complete: bool, hello: Option<Version>, call: Option<Call>)

  /** Failures carry the JSON-RPC code; Called means that the named tool's handler runs. */
  datatype Response =
    | Failure(id: Value, code: int)
    | Discovered(id: Value)
    | Welcome(id: Value, negotiated: Version)
    | Listed(id: Value, writeTools: bool, modern: bool)
    | Called(id: Value, call: Call, modern: bool)

  const PARSE_ERROR := -32700
  const INVALID_REQUEST := -32600
  const METHOD_NOT_FOUND := -32601
  const INVALID_PARAMS := -32602
  const SESSION_NOT_INITIALIZED := -32002
  const UNSUPPORTED_VERSION := -32022

  datatype Envelope =
    | Request(id: Value, operation: Method, content: Content)
    | Notification(operation: Method)
    | Dropped
    | Malformed(id: Value, code: int)

  /** An initialize request a fresh connection accepts. */
  predicate GoodInitialize(e: Envelope) {
    e.Request? && e.operation == Initialize && e.content.hello.Some? && e.content.hello.value != Draft2026
  }

  /** A request that carries the whole of the modern metadata. */
  predicate CompleteModern(e: Envelope) {
    e.Request? && e.operation != Initialize && e.content.version == Some(Draft2026) && e.content.complete
  }

  predicate InitializedNote(e: Envelope) {
    e.Notification? && e.operation == Initialized
  }

  /** A request that the legacy lifecycle may serve. */
  predicate LegacyRequest(e: Envelope) {
    && e.Request? && e.operation != Initialize && e.operation != Discover
    && e.content.version in {None, Some(November2025), Some(June2025)}
  }

  function Moved(s: State, e: Envelope): State {
    if GoodInitialize(e) && s == START then State(Legacy, AwaitingInitialized)
    else if CompleteModern(e) && s.mode != Legacy then s.(mode := Modern)
    else if InitializedNote(e) && s.phase == AwaitingInitialized then s.(phase := Ready)
    else s
  }

  /** The requests that get past the lifecycle. */
  predicate Admitted(s: State, e: Envelope) {
    (CompleteModern(e) && s.mode != Legacy) || (LegacyRequest(e) && s.mode != Modern && s.phase == Ready)
  }

  predicate Offered(access: Access, writeTools: bool) {
    access == ReadOnly || (access == Write && writeTools)
  }

  /** An admitted request. */
  function Served(id: Value, name: Method, call: Option<Call>, writeTools: bool, modern: bool): Response {
    if modern && name == Discover then Discovered(id)
    else if name == ListTools then Listed(id, writeTools, modern)
    else if name == CallTool then
      (if call.None? then Failure(id, INVALID_PARAMS)
       else if Offered(call.value.access, writeTools) then Called(id, call.value, modern)
       else Failure(id, METHOD_NOT_FOUND))
    else Failure(id, METHOD_NOT_FOUND)
  }

  function InitializeAnswer(s: State, id: Value, hello: Option<Version>): Response {
    if s != START then Failure(id, INVALID_REQUEST)
    else if hello.None? then Failure(id, INVALID_PARAMS)
    else if hello.value == Draft2026 then Failure(id, METHOD_NOT_FOUND)
    else Welcome(id, if hello.value == June2025 then June2025 else November2025)
  }

  function RefusalCode(s: State, name: Method, content: Content): int {
    if content.version == Some(Unsupported) then UNSUPPORTED_VERSION
    else if content.version == Some(Draft2026) then
      (if content.complete then INVALID_REQUEST else INVALID_PARAMS)
    else if name == Discover || s.mode == Modern then INVALID_PARAMS
    else SESSION_NOT_INITIALIZED
  }

  function Answer(s: State, e: Envelope, writeTools: bool): Option<Response> {
    match e
    case Malformed(id, code) => Some(Failure(id, code))
    case Dropped => None
    case Notification(_) => None
    case Request(id, name, content) =>
      if name == Initialize then Some(InitializeAnswer(s, id, content.hello))
      else if Admitted(s, e) then Some(Served(id, name, content.call, writeTools, CompleteModern(e)))
      else Some(Failure(id, RefusalCode(s, name, content)))
  }

  function Emitted(r: Option<Response>): seq<Response> {
    if r.Some? then [r.value] else []
  }

  // ---- traces

  /** The state after the first n messages. */
  function After(trace: seq<Envelope>, n: nat): State
    requires n <= |trace|
  {
    if n == 0 then START else Moved(After(trace, n - 1), trace[n - 1])
  }

  /** The responses to the first n messages. */
  function Responses(trace: seq<Envelope>, n: nat, writeTools: bool): seq<Response>
    requires n <= |trace|
  {
    if n == 0 then []
    else Responses(trace, n - 1, writeTools) + Emitted(Answer(After(trace, n - 1), trace[n - 1], writeTools))
  }

  /** Every response of a session is the answer to one of its messages in the state its predecessors led to. */
  lemma {:induction false} AnswersAreLocal(trace: seq<Envelope>, n: nat, writeTools: bool, r: Response) returns (i: nat)
    requires n <= |trace| && r in Responses(trace, n, writeTools)
    ensures i < n && Answer(After(trace, i), trace[i], writeTools) == Some(r)
  {
    if Answer(After(trace, n - 1), trace[n - 1], writeTools) == Some(r) {
      i := n - 1;
    } else {
      i := AnswersAreLocal(trace, n - 1, writeTools, r);
    }
  }

  predicate Opens(e: Envelope) {
    GoodInitialize(e) || CompleteModern(e)
  }

  /** Message i, one of the first n, is the first that could open the connection. */
  ghost predicate OpenedAt(trace: seq<Envelope>, n: nat, i: int)
    requires n <= |trace|
  {
    0 <= i < n && Opens(trace[i]) && forall j :: 0 <= j < i ==> !Opens(trace[j])
  }

  ghost predicate NoteAfter(trace: seq<Envelope>, n: nat, i: int)
    requires n <= |trace|
  {
    exists k :: 0 <= i < k < n && InitializedNote(trace[k])
  }

  /** What the state says about message i, if that is the opener. */
  ghost predicate Opened(s: State, trace: seq<Envelope>, n: nat, i: int)
    requires n <= |trace|
  {
    OpenedAt(trace, n, i) ==>
      && s.mode == (if GoodInitialize(trace[i]) then Legacy else Modern)
      && (s.mode == Legacy ==> (s.phase == Ready <==> NoteAfter(trace, n, i)))
  }

  /** After any number of messages: the first opener alone decides the mode, for good; a legacy connection is ready
      exactly when an initialized notification came after its opener; no other connection leaves the initial phase. */
  lemma {:induction false} StateIsHistory(trace: seq<Envelope>, n: nat)
    requires n <= |trace|
    ensures After(trace, n).mode == Undetermined <==> forall i :: 0 <= i < n ==> !Opens(trace[i])
    ensures forall i :: Opened(After(trace, n), trace, n, i)
    ensures After(trace, n).phase == NotInitialized <==> After(trace, n).mode != Legacy
  {
    if n > 0 {
      StateIsHistory(trace, n - 1);
      forall i ensures Opened(After(trace, n), trace, n, i) {
        assert Opened(After(trace, n - 1), trace, n - 1, i);
        NoteGrows(trace, n, i);
      }
    }
  }

  lemma NoteGrows(trace: seq<Envelope>, n: nat, i: int)
    requires 0 < n <= |trace|
    ensures NoteAfter(trace, n, i) <==> NoteAfter(trace, n - 1, i) || (0 <= i < n - 1 && InitializedNote(trace[n - 1]))
  {
  }

  /** A mode once chosen never changes. */
  lemma {:induction false} ModeIsFixed(trace: seq<Envelope>, m: nat, n: nat)
    requires m <= n <= |trace| && After(trace, m).mode != Undetermined
    ensures After(trace, n).mode == After(trace, m).mode
    decreases n
  {
    if m < n {
      ModeIsFixed(trace, m, n - 1);
      StateIsHistory(trace, n - 1);
    }
  }

  predicate Dispatch(r: Response) {
    r.Discovered? || r.Listed? || r.Called?
  }

  /** What message n needs to be served, in terms of the messages alone: the whole modern metadata on a connection
      that no initialize opened, or an accepted initialize and then an initialized notification before it. */
  ghost predicate Entitled(trace: seq<Envelope>, n: nat)
    requires n < |trace|
  {
    || (CompleteModern(trace[n]) && forall i :: OpenedAt(trace, n, i) ==> CompleteModern(trace[i]))
    || (LegacyRequest(trace[n])
        && exists i :: OpenedAt(trace, n, i) && GoodInitialize(trace[i]) && NoteAfter(trace, n, i))
  }

  lemma {:induction false} FirstOpener(trace: seq<Envelope>, n: nat) returns (i: nat)
    requires n <= |trace| && exists j :: 0 <= j < n && Opens(trace[j])
    ensures OpenedAt(trace, n, i)
  {
    i := 0;
    while !Opens(trace[i])
      invariant i < n && forall j :: 0 <= j < i ==> !Opens(trace[j])
      decreases n - i
    {
      i := i + 1;
    }
  }

  /** A request gets past the lifecycle exactly when it is entitled to. */
  lemma AdmittedIffEntitled(trace: seq<Envelope>, n: nat)
    requires n < |trace|
    ensures Admitted(After(trace, n), trace[n]) <==> Entitled(trace, n)
  {
    var s := After(trace, n);
    StateIsHistory(trace, n);
    if s.mode != Undetermined {
      var i := FirstOpener(trace, n);
      assert Opened(s, trace, n, i);
      assert forall j :: OpenedAt(trace, n, j) ==> j == i;
    }
  }

  lemma ServedIsAdmitted(s: State, e: Envelope, writeTools: bool)
    requires Answer(s, e, writeTools).Some? && Dispatch(Answer(s, e, writeTools).value)
    ensures e.Request? && Admitted(s, e)
    ensures var r := Answer(s, e, writeTools).value;
            && r.id == e.id
            && (r.Called? ==> e.operation == CallTool && r.modern == CompleteModern(e)
                              && e.content.call == Some(r.call) && Offered(r.call.access, writeTools))
  {
  }

  /** Whatever the trace: a request is served only when entitled, and a tool is reached only when a request names it
      and it is offered, so no write tool without write tools. */
  lemma ServedOnlyWhenEntitled(trace: seq<Envelope>, writeTools: bool, r: Response) returns (i: nat)
    requires r in Responses(trace, |trace|, writeTools) && Dispatch(r)
    ensures i < |trace| && trace[i].Request? && Entitled(trace, i) && r.id == trace[i].id
    ensures r.Called? ==> trace[i].operation == CallTool && r.modern == CompleteModern(trace[i])
    ensures r.Called? ==> trace[i].content.call == Some(r.call) && Offered(r.call.access, writeTools)
  {
    i := AnswersAreLocal(trace, |trace|, writeTools, r);
    ServedIsAdmitted(After(trace, i), trace[i], writeTools);
    AdmittedIffEntitled(trace, i);
  }

  /** Nothing more is asked: an entitled request is served, and an entitled call of an offered tool reaches it. */
  lemma EntitledIsServed(trace: seq<Envelope>, n: nat, writeTools: bool)
    requires n < |trace| && Entitled(trace, n) && trace[n].operation in {ListTools, CallTool}
    ensures var e := trace[n];
            var answer := Answer(After(trace, n), e, writeTools);
            if e.operation == ListTools then answer == Some(Listed(e.id, writeTools, CompleteModern(e)))
            else
              e.content.call.Some? && Offered(e.content.call.value.access, writeTools) ==>
                answer == Some(Called(e.id, e.content.call.value, CompleteModern(e)))
  {
    AdmittedIffEntitled(trace, n);
  }
}
