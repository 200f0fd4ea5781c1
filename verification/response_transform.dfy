/** `ResponseTransformInterceptor`: wraps a handler's result in the success
    envelope `{ success, data, meta }`, unwrapping a `{ payload, meta }`
    value, unless the handler is marked to skip the transform. */
module ResponseTransform {
  import opened Wrappers

  /** A JSON-like value as a handler may return it. */
  datatype JsValue =
    | Undefined
    | Null
    | Bool(b: bool)
    | Num(n: int)
    | Str(s: string)
    | Arr(items: seq<JsValue>)
    | Obj(fields: map<string, JsValue>)

  /** JavaScript truthiness; every object and array is truthy. */
  predicate Truthy(v: JsValue) {
    match v
    case Undefined => false
    case Null => false
    case Bool(b) => b
    case Num(n) => n != 0
    case Str(s) => s != ""
    case _ => true
  }

  /** `typeof v === 'object'`, which includes arrays and `null`. */
  predicate IsObjectType(v: JsValue) { v.Null? || v.Arr? || v.Obj? }

  /** The own enumerable keys of an object; an array's `payload` and `meta`
      are never among its keys here. */
  function OwnKeys(v: JsValue): set<string> {
    if v.Obj? then v.fields.Keys else {}
  }

  predicate IsWithMeta(v: JsValue) {
    Truthy(v) && IsObjectType(v) && "payload" in OwnKeys(v) && |OwnKeys(v)| <= 2
  }

  /** Only an object with a `payload` key and at most one other key is
      unwrapped. */
  lemma WithMetaShape(v: JsValue)
    ensures IsWithMeta(v) <==> v.Obj? && "payload" in v.fields && |v.fields.Keys| <= 2
  {
  }

  datatype SuccessResponse = SuccessResponse(success: bool, data: JsValue, meta: map<string, JsValue>)

  datatype Outcome = Passthrough(value: JsValue) | Envelope(response: SuccessResponse)

  /** `{ requestId, timestamp }`; an absent request id stays `undefined`. */
  function BaseMeta(requestId: Option<string>, timestamp: string): (meta: map<string, JsValue>)
    ensures meta.Keys == {"requestId", "timestamp"}
    ensures meta["timestamp"] == Str(timestamp)
    ensures meta["requestId"] == if requestId.Some? then Str(requestId.value) else Undefined
  {
    map["requestId" := if requestId.Some? then Str(requestId.value) else Undefined,
        "timestamp" := Str(timestamp)]
  }

  /** The fields `...(meta ?? {})` spreads: those of an object, none for
      `null`, `undefined` or a primitive. */
  function SpreadFields(v: JsValue): map<string, JsValue> {
    if v.Obj? then v.fields else map[]
  }

  /** The `map` callback: unwrap a `{ payload, meta }` value, wrap anything
      else verbatim. */
  function Wrap(data: JsValue, requestId: Option<string>, timestamp: string): (r: SuccessResponse)
    ensures r.success
    ensures IsWithMeta(data) ==>
              && r.data == data.fields["payload"]
              && var callerMeta := SpreadFields(if "meta" in data.fields then data.fields["meta"] else Undefined);
                 && r.meta.Keys == {"requestId", "timestamp"} + callerMeta.Keys
                 && (forall k :: k in callerMeta ==> r.meta[k] == callerMeta[k])
                 && (forall k :: k in BaseMeta(requestId, timestamp) && k !in callerMeta ==>
                       r.meta[k] == BaseMeta(requestId, timestamp)[k])
    ensures !IsWithMeta(data) ==> r.data == data && r.meta == BaseMeta(requestId, timestamp)
  {
    if IsWithMeta(data) then
      var callerMeta := if "meta" in data.fields then data.fields["meta"] else Undefined;
      SuccessResponse(true, data.fields["payload"], BaseMeta(requestId, timestamp) + SpreadFields(callerMeta))
    else
      SuccessResponse(true, data, BaseMeta(requestId, timestamp))
  }

  /** `intercept`: with the skip marker the value passes through untouched. */
  function Intercept(skip: bool, data: JsValue, requestId: Option<string>, timestamp: string): (r: Outcome)
    ensures skip <==> r.Passthrough?
    ensures skip ==> r.value == data
    ensures !skip ==> r.response.success && r.response.meta.Keys >= {"requestId", "timestamp"}
    ensures !skip ==> r == Envelope(Wrap(data, requestId, timestamp))
  {
    if skip then Passthrough(data) else Envelope(Wrap(data, requestId, timestamp))
  }

  /** A `{ payload, meta }` value with an object `meta` unwraps to its payload,
      and its meta is laid over the request id and timestamp. */
  lemma PayloadUnwrapped(payload: JsValue, meta: map<string, JsValue>, requestId: Option<string>, timestamp: string)
    ensures var r := Wrap(Obj(map["payload" := payload, "meta" := Obj(meta)]), requestId, timestamp);
            r.data == payload && r.meta == BaseMeta(requestId, timestamp) + meta
  {
    var v := Obj(map["payload" := payload, "meta" := Obj(meta)]);
    assert v.fields.Keys == {"payload", "meta"};
    assert IsWithMeta(v);
  }

  /** A caller's `requestId` or `timestamp` replaces the generated one. */
  lemma CallerMetaOverrides(payload: JsValue, meta: map<string, JsValue>, requestId: Option<string>, timestamp: string)
    requires "timestamp" in meta
    ensures Wrap(Obj(map["payload" := payload, "meta" := Obj(meta)]), requestId, timestamp).meta["timestamp"]
            == meta["timestamp"]
  {
    PayloadUnwrapped(payload, meta, requestId, timestamp);
  }

  /** A value with a `payload` key and one other key that is not `meta` is
      still unwrapped: the other key is dropped from the response. */
  lemma SecondKeyDropped(payload: JsValue, key: string, other: JsValue, requestId: Option<string>, timestamp: string)
    requires key != "payload" && key != "meta"
    ensures var r := Wrap(Obj(map["payload" := payload, key := other]), requestId, timestamp);
            r.data == payload && r.meta == BaseMeta(requestId, timestamp)
  {
    var v := Obj(map["payload" := payload, key := other]);
    assert v.fields.Keys == {"payload", key};
    assert |{"payload", key}| == 2;
    assert IsWithMeta(v);
    assert "meta" !in v.fields;
    assert SpreadFields(Undefined) == map[];
    assert BaseMeta(requestId, timestamp) + map[] == BaseMeta(requestId, timestamp);
  }

  /** A value with three or more keys is wrapped whole, `payload` or not. */
  lemma LargeObjectsWrappedWhole(fields: map<string, JsValue>, requestId: Option<string>, timestamp: string)
    requires |fields.Keys| > 2
    ensures Wrap(Obj(fields), requestId, timestamp).data == Obj(fields)
  {
  }
}
