/**
 JSON-RPC 2.0 frames as JSON values: what a frame becomes on the wire and how a
 received value is told apart and read back.
 */
module RpcFrames {
  import opened Wrappers

  type u64 = n: int | 0 <= n < 0x1_0000_0000_0000_0000
  type i64 = n: int | -0x8000_0000_0000_0000 <= n < 0x8000_0000_0000_0000

  /** A parsed JSON value. Integers outside the 64-bit ranges arrive as `Float`. */
  datatype Json =
    | Null
    | Bool(b: bool)
    | Int(n: int)
    | Float(r: real)
    | Str(s: string)
    | Arr(items: seq<Json>)
    | Obj(fields: map<string, Json>)

  datatype RpcError = RpcError(code: i64, message: string, data: Option<Json>)

  datatype Frame =
    | Request(jsonrpc: string, id: u64, name: string, params: Json)
    | Response(jsonrpc: string, id: u64, result: Option<Json>, error: Option<RpcError>)
    | Notification(jsonrpc: string, name: string, params: Json)

  datatype DecodeError = NeitherIdNorMethod | BadField(key: string)

  // ---- Encoding ---------------------------------------------------------------

  /** A field that is left out when it has no value. */
  function Optional(key: string, value: Option<Json>): map<string, Json> {
    if value.Some? then map[key := value.value] else map[]
  }

  /** `params` is left out when it is null. */
  function ParamsField(params: Json): map<string, Json> {
    if params == Null then map[] else map["params" := params]
  }

  function EncodeError(e: RpcError): Json {
    Obj(map["code" := Int(e.code), "message" := Str(e.message)] + Optional("data", e.data))
  }

  function Encode(f: Frame): Json {
    match f
    case Request(v, id, name, params) =>
      Obj(map["jsonrpc" := Str(v), "id" := Int(id), "method" := Str(name)] + ParamsField(params))
    case Response(v, id, result, error) =>
      Obj(map["jsonrpc" := Str(v), "id" := Int(id)]
          + Optional("result", result)
          + Optional("error", if error.Some? then Some(EncodeError(error.value)) else None))
    case Notification(v, name, params) =>
      Obj(map["jsonrpc" := Str(v), "method" := Str(name)] + ParamsField(params))
  }

  // ---- Decoding ---------------------------------------------------------------

  function Get(v: Json, key: string): Option<Json> {
    if v.Obj? && key in v.fields then Some(v.fields[key]) else None
  }

  function AsString(v: Option<Json>, key: string): Result<string, DecodeError> {
    if v.Some? && v.value.Str? then Ok(v.value.s) else Err(BadField(key))
  }

  function AsU64(v: Option<Json>, key: string): Result<u64, DecodeError> {
    if v.Some? && v.value.Int? && 0 <= v.value.n < 0x1_0000_0000_0000_0000
    then Ok(v.value.n) else Err(BadField(key))
  }

  function AsI64(v: Option<Json>, key: string): Result<i64, DecodeError> {
    if v.Some? && v.value.Int? && -0x8000_0000_0000_0000 <= v.value.n < 0x8000_0000_0000_0000
    then Ok(v.value.n) else Err(BadField(key))
  }

  /** An optional field: absent and null read alike. */
  function NonNull(v: Option<Json>): Option<Json> {
    if v == Some(Null) then None else v
  }

  function ErrorOf(code: Option<Json>, message: Option<Json>, data: Option<Json>): Result<RpcError, DecodeError> {
    match AsI64(code, "code")
    case Err(e) => Err(e)
    case Ok(c) =>
      match AsString(message, "message")
      case Err(e) => Err(e)
      case Ok(m) => Ok(RpcError(c, m, NonNull(data)))
  }

  /** An error object, or the same fields as a positional array with `data` last and optional. */
  function DecodeErrorObject(v: Json): Result<RpcError, DecodeError> {
    match v
    case Obj(_) => ErrorOf(Get(v, "code"), Get(v, "message"), Get(v, "data"))
    case Arr(a) =>
      if |a| == 2 then ErrorOf(Some(a[0]), Some(a[1]), None)
      else if |a| == 3 then ErrorOf(Some(a[0]), Some(a[1]), Some(a[2]))
      else Err(BadField("error"))
    case _ => Err(BadField("error"))
  }

  function ParamsOf(v: Json): Json {
    match Get(v, "params")
    case Some(p) => p
    case None => Null
  }

  function DecodeRequest(v: Json): Result<Frame, DecodeError> {
    match (AsString(Get(v, "jsonrpc"), "jsonrpc"), AsU64(Get(v, "id"), "id"), AsString(Get(v, "method"), "method"))
    case (Err(e), _, _) => Err(e)
    case (_, Err(e), _) => Err(e)
    case (_, _, Err(e)) => Err(e)
    case (Ok(ver), Ok(id), Ok(name)) => Ok(Request(ver, id, name, ParamsOf(v)))
  }

  function DecodeResponse(v: Json): Result<Frame, DecodeError> {
    match (AsString(Get(v, "jsonrpc"), "jsonrpc"), AsU64(Get(v, "id"), "id"), NonNull(Get(v, "error")))
    case (Err(e), _, _) => Err(e)
    case (_, Err(e), _) => Err(e)
    case (Ok(ver), Ok(id), None) => Ok(Response(ver, id, NonNull(Get(v, "result")), None))
    case (Ok(ver), Ok(id), Some(raw)) =>
      match DecodeErrorObject(raw)
      case Err(e) => Err(e)
      case Ok(err) => Ok(Response(ver, id, NonNull(Get(v, "result")), Some(err)))
  }

  function DecodeNotification(v: Json): Result<Frame, DecodeError> {
    match (AsString(Get(v, "jsonrpc"), "jsonrpc"), AsString(Get(v, "method"), "method"))
    case (Err(e), _) => Err(e)
    case (_, Err(e)) => Err(e)
    case (Ok(ver), Ok(name)) => Ok(Notification(ver, name, ParamsOf(v)))
  }

  /** The kind is decided by the presence of `id` and `method` alone, whatever their values. */
  function Decode(v: Json): Result<Frame, DecodeError> {
    match (Get(v, "id").Some?, Get(v, "method").Some?)
    case (true, true) => DecodeRequest(v)
    case (true, false) => DecodeResponse(v)
    case (false, true) => DecodeNotification(v)
    case (false, false) => Err(NeitherIdNorMethod)
  }

  // ---- What a value means -----------------------------------------------------

  /** Field `key` holds `x`; one that is absent, or null where that reads as absent, holds nothing. */
  predicate HasOptional(v: Json, key: string, x: Option<Json>) {
    match x
    case Some(value) => value != Null && Get(v, key) == Some(value)
    case None => Get(v, key) == None || Get(v, key) == Some(Null)
  }

  predicate HasParams(v: Json, params: Json) {
    Get(v, "params") == Some(params) || (Get(v, "params") == None && params == Null)
  }

  predicate MeansError(v: Json, e: RpcError) {
    match v
    case Obj(_) => Get(v, "code") == Some(Int(e.code)) && Get(v, "message") == Some(Str(e.message)) && HasOptional(v, "data", e.data)
    case Arr(a) =>
      && 2 <= |a| <= 3 && a[0] == Int(e.code) && a[1] == Str(e.message)
      && (if |a| == 3 && a[2] != Null then e.data == Some(a[2]) else e.data == None)
    case _ => false
  }

  /** A received value says `f`: its kind by which of `id` and `method` it has, every field under its key. */
  predicate Means(v: Json, f: Frame) {
    && Get(v, "jsonrpc") == Some(Str(f.jsonrpc))
    && match f
       case Request(_, id, name, params) =>
         Get(v, "id") == Some(Int(id)) && Get(v, "method") == Some(Str(name)) && HasParams(v, params)
       case Response(_, id, result, error) =>
         && Get(v, "id") == Some(Int(id)) && Get(v, "method") == None && HasOptional(v, "result", result)
         && (match error
             case None => Get(v, "error") == None || Get(v, "error") == Some(Null)
             case Some(e) => Get(v, "error").Some? && MeansError(Get(v, "error").value, e))
       case Notification(_, name, params) =>
         Get(v, "id") == None && Get(v, "method") == Some(Str(name)) && HasParams(v, params)
  }

  lemma ErrorDecodesExactly(v: Json, e: RpcError)
    ensures DecodeErrorObject(v) == Ok(e) <==> MeansError(v, e)
  {
  }

  lemma RequestDecodesExactly(v: Json, f: Frame)
    requires Get(v, "id").Some? && Get(v, "method").Some?
    ensures DecodeRequest(v) == Ok(f) <==> f.Request? && Means(v, f)
  {
    hide Get;
  }

  lemma ResponseDecodesExactly(v: Json, f: Frame)
    requires Get(v, "id").Some? && Get(v, "method") == None
    ensures DecodeResponse(v) == Ok(f) <==> f.Response? && Means(v, f)
  {
    hide Get, DecodeErrorObject, MeansError;
    if Get(v, "error").Some? {
      forall e ensures DecodeErrorObject(Get(v, "error").value) == Ok(e) <==> MeansError(Get(v, "error").value, e) {
        ErrorDecodesExactly(Get(v, "error").value, e);
      }
      NullIsNoError();
    }
  }

  lemma NullIsNoError()
    ensures forall e :: !MeansError(Null, e)
  {
  }

  lemma NotificationDecodesExactly(v: Json, f: Frame)
    requires Get(v, "id") == None && Get(v, "method").Some?
    ensures DecodeNotification(v) == Ok(f) <==> f.Notification? && Means(v, f)
  {
    hide Get;
  }

  /** A value is accepted as a frame exactly when it says that frame; everything else is refused. */
  lemma DecodesExactly(v: Json, f: Frame)
    ensures Decode(v) == Ok(f) <==> Means(v, f)
    ensures Decode(v) == Err(NeitherIdNorMethod) <==> Get(v, "id") == None && Get(v, "method") == None
  {
    hide DecodeRequest, DecodeResponse, DecodeNotification, MeansError, HasParams, HasOptional, Get;
    match (Get(v, "id").Some?, Get(v, "method").Some?)
    case (true, true) =>
      RequestDecodesExactly(v, f);
      RefusalsNameAField(v);
    case (true, false) =>
      ResponseDecodesExactly(v, f);
      RefusalsNameAField(v);
    case (false, true) =>
      NotificationDecodesExactly(v, f);
      RefusalsNameAField(v);
    case (false, false) =>
  }

  lemma RefusalsNameAField(v: Json)
    ensures DecodeRequest(v) != Err(NeitherIdNorMethod) && DecodeResponse(v) != Err(NeitherIdNorMethod)
    ensures DecodeNotification(v) != Err(NeitherIdNorMethod)
  {
  }

  // ---- Round trips ------------------------------------------------------------

  /** The frame that survives a trip over the wire. */
  function Normalize(f: Frame): Frame {
    match f
    case Response(v, id, result, error) =>
      Response(v, id, NonNull(result),
               if error.Some? then Some(error.value.(data := NonNull(error.value.data))) else None)
    case _ => f
  }

  /** A `result` or `error.data` that is present but null. */
  predicate HasPresentNull(f: Frame) {
    f.Response? && (f.result == Some(Null) || (f.error.Some? && f.error.value.data == Some(Null)))
  }

  lemma ErrorRoundTrip(e: RpcError)
    ensures DecodeErrorObject(EncodeError(e)) == Ok(e.(data := NonNull(e.data)))
  {
    var v := EncodeError(e);
    assert Get(v, "code") == Some(Int(e.code)) && Get(v, "message") == Some(Str(e.message));
    assert Get(v, "data") == e.data;
  }

  lemma RequestFields(ver: string, id: u64, name: string, params: Json)
    ensures var v := Encode(Request(ver, id, name, params));
      && Get(v, "id") == Some(Int(id)) && Get(v, "method") == Some(Str(name))
      && Get(v, "jsonrpc") == Some(Str(ver)) && ParamsOf(v) == params
  {
  }

  lemma ResponseFields(ver: string, id: u64, result: Option<Json>, error: Option<RpcError>)
    ensures var v := Encode(Response(ver, id, result, error));
      && Get(v, "id") == Some(Int(id)) && Get(v, "method") == None
      && Get(v, "jsonrpc") == Some(Str(ver)) && Get(v, "result") == result
      && Get(v, "error") == (match error case Some(e) => Some(EncodeError(e)) case None => None)
  {
  }

  lemma NotificationFields(ver: string, name: string, params: Json)
    ensures var v := Encode(Notification(ver, name, params));
      && Get(v, "id") == None && Get(v, "method") == Some(Str(name))
      && Get(v, "jsonrpc") == Some(Str(ver)) && ParamsOf(v) == params
  {
  }

  /** Every frame of every kind comes back, with present nulls read as absent. */
  lemma RoundTrip(f: Frame)
    ensures Decode(Encode(f)) == Ok(Normalize(f))
  {
    hide Encode, Get, ParamsOf, DecodeErrorObject, EncodeError;
    match f {
      case Request(ver, id, name, params) => RequestFields(ver, id, name, params);
      case Response(ver, id, result, error) =>
        ResponseFields(ver, id, result, error);
        if error.Some? {
          ErrorIsNoNull(error.value);
          ErrorRoundTrip(error.value);
        }
      case Notification(ver, name, params) => NotificationFields(ver, name, params);
    }
  }

  lemma ErrorIsNoNull(e: RpcError)
    ensures EncodeError(e) != Null
  {
  }

  /** A frame comes back unchanged exactly when it holds no present null. */
  lemma RoundTripIsExactIff(f: Frame)
    ensures Decode(Encode(f)) == Ok(f) <==> !HasPresentNull(f)
  {
    RoundTrip(f);
  }

  lemma DecodedHasNoPresentNull(v: Json)
    ensures Decode(v).Ok? ==> !HasPresentNull(Decode(v).value)
  {
  }

  /** Whatever was accepted once is stable: it can be forwarded any number of times unchanged. */
  lemma DecodeEncodeDecode(v: Json)
    requires Decode(v).Ok?
    ensures Decode(Encode(Decode(v).value)) == Decode(v)
  {
    DecodedHasNoPresentNull(v);
    RoundTripIsExactIff(Decode(v).value);
  }

  /** Two frames share a wire form only when they mean the same, so kinds are never confused. */
  lemma SameWireSameFrame(f: Frame, g: Frame)
    requires Encode(f) == Encode(g)
    ensures Normalize(f) == Normalize(g)
    ensures (f.Request? <==> g.Request?) && (f.Response? <==> g.Response?)
  {
    RoundTrip(f);
    RoundTrip(g);
  }
}

/** Streamed chat chunks: the notification a worker sends per delta, and its way to a sink. */
module ChatChunks {
  import opened Wrappers
  import opened RpcFrames
  import DeltaQueue

  const N_CHAT_CHUNK := "higgs/chat/chunk"

  function EncodeChunkParams(requestId: Json, d: DeltaQueue.Delta): Json {
    match d.kind
    case Content => Obj(map["request_id" := requestId, "delta" := Str(d.text)])
    case Reasoning =>
      Obj(map["request_id" := requestId, "delta" := Str(d.text), "kind" := Str("reasoning")])
    case ToolCall =>
      Obj(map["request_id" := requestId, "delta" := Str(""), "kind" := Str("tool_call"), "tool" := Str(d.text)])
  }

  function KindFromWire(kind: Option<Json>): DeltaQueue.Kind {
    if kind == Some(Str("reasoning")) then DeltaQueue.Reasoning
    else if kind == Some(Str("tool_call")) then DeltaQueue.ToolCall
    else DeltaQueue.Content
  }

  function DecodeChunkParams(params: Json): Option<DeltaQueue.Delta> {
    var kind := KindFromWire(Get(params, "kind"));
    var payload := Get(params, if kind.ToolCall? then "tool" else "delta");
    if payload.Some? && payload.value.Str? then Some(DeltaQueue.Delta(kind, payload.value.s)) else None
  }

  /** Where a notification goes: a request id and the delta for its sink, or nowhere. */
  function RouteOf(name: string, params: Json): Option<(u64, DeltaQueue.Delta)> {
    if name != N_CHAT_CHUNK then None
    else
      match (AsU64(Get(params, "request_id"), "request_id"), DecodeChunkParams(params))
      case (Ok(id), Some(d)) => Some((id, d))
      case _ => None
  }

  /** A notification feeds a sink exactly when it is a chat chunk that names a request and carries its text where its kind has it. */
  lemma RoutesExactly(name: string, params: Json, id: u64, d: DeltaQueue.Delta)
    ensures RouteOf(name, params) == Some((id, d)) <==>
      && name == "higgs/chat/chunk" && Get(params, "request_id") == Some(Int(id))
      && match d.kind
         case Reasoning => Get(params, "kind") == Some(Str("reasoning")) && Get(params, "delta") == Some(Str(d.text))
         case ToolCall => Get(params, "kind") == Some(Str("tool_call")) && Get(params, "tool") == Some(Str(d.text))
         case Content =>
           && Get(params, "kind") != Some(Str("reasoning")) && Get(params, "kind") != Some(Str("tool_call"))
           && Get(params, "delta") == Some(Str(d.text))
  {
    hide Get;
  }

  /** A chunk that a worker emits for request `id` reaches that request's sink as it was. */
  lemma ChunkRoundTrip(id: u64, d: DeltaQueue.Delta)
    ensures RouteOf(N_CHAT_CHUNK, EncodeChunkParams(Int(id), d)) == Some((id, d))
  {
    var params := EncodeChunkParams(Int(id), d);
    assert Get(params, "request_id") == Some(Int(id));
    match d.kind {
      case Content => assert Get(params, "delta") == Some(Str(d.text)) && Get(params, "kind") == None;
      case Reasoning => assert Get(params, "delta") == Some(Str(d.text)) && Get(params, "kind") == Some(Str("reasoning"));
      case ToolCall => assert Get(params, "tool") == Some(Str(d.text)) && Get(params, "kind") == Some(Str("tool_call"));
    }
  }
}
