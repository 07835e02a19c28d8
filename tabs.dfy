/**
  The tabs wrapper of the newer layout (src/tabs/mod.rs, with the request
  and reply types of src/tabs/query_details.rs and src/tabs/tab.rs).
  The browser's `tabs` functions and serde are uninterpreted: each wrapper
  takes the serialiser, the host function and the deserialiser as
  parameters, so that its contract can say what reaches the host and in
  which order the failures surface.
 */
module Tabs {
  import opened Prelude
  import opened Errors
  import opened Util
  import TabStatus
  import WindowTypes

  /** The id of a tab: a newtype around `i32`. */
  datatype TabId = TabId(raw: Int32)

  /** `From<i32> for TabId`. */
  function TabIdFromI32(id: Int32): (t: TabId)
    ensures I32FromTabId(t) == id
  {
    TabId(id)
  }

  /** `From<TabId> for i32`. */
  function I32FromTabId(t: TabId): Int32
  {
    t.raw
  }

  /** TabId -> i32 -> TabId is the identity. */
  lemma TabIdRoundTrip(t: TabId)
    ensures TabIdFromI32(I32FromTabId(t)) == t
  {
  }

  /** The derived `PartialEq`: ids are equal exactly when their integers are. */
  lemma TabIdEquality(a: TabId, b: TabId)
    ensures a == b <==> I32FromTabId(a) == I32FromTabId(b)
  {
  }

  /** A tab as the host reports it; only the fields the model uses. */
  datatype Tab = Tab(id: Option<TabId>, windowId: Int32, active: bool, url: Option<string>, status: Option<TabStatus.Status>)

  /** The filter of `query` (src/tabs/query_details.rs:6-24). */
  datatype QueryDetails = QueryDetails(
    active: Option<bool>,
    audible: Option<bool>,
    autoDiscardable: Option<bool>,
    cookieStoreId: Option<string>,
    currentWindow: Option<bool>,
    discarded: Option<bool>,
    hidden: Option<bool>,
    highlighted: Option<bool>,
    index: Option<Int32>,
    muted: Option<bool>,
    lastFocusedWindow: Option<bool>,
    pinned: Option<bool>,
    status: Option<TabStatus.Status>,
    title: Option<string>,
    url: Option<string>,
    windowId: Int32,
    windowType: Option<WindowTypes.WindowType>)

  /** The properties of a new tab (`CreateProperties`). */
  datatype CreateProperties = CreateProperties(active: bool, url: string)

  /** The changes `update` asks for; a `None` leaves that property as it is. */
  datatype UpdateProperties = UpdateProperties(
    active: Option<bool>,
    autoDiscardable: Option<bool>,
    highlighted: Option<bool>,
    muted: Option<bool>,
    openerTabId: Option<TabId>,
    pinned: Option<bool>,
    selected: Option<bool>,
    url: Option<string>)

  /** The derived `Default` of `UpdateProperties`: every field `None`, so nothing changes. */
  function DefaultUpdateProperties(): (p: UpdateProperties)
    ensures p.active.None? && p.autoDiscardable.None? && p.highlighted.None? && p.muted.None?
    ensures p.openerTabId.None? && p.pinned.None? && p.selected.None? && p.url.None?
  {
    UpdateProperties(None, None, None, None, None, None, None, None)
  }

  /** `tab_id.map(|id| id.0)`: the optional id handed to the host's `update`. */
  function HostTabId(t: Option<TabId>): (r: Option<Int32>)
    ensures r.None? <==> t.None?
    ensures r.Some? ==> r.value == I32FromTabId(t.value)
  {
    match t
    case None => None
    case Some(id) => Some(id.raw)
  }

  /**
    The pipeline `query`, `create` and `update` share: the serialisation
    failure is reported first, then a serialised form that is not an
    object; only when both succeed is the host asked, with that object, and
    its reply routed through `serde_from_js_result`. The error results do
    not depend on the host at all.
   */
  function CallWithObject<P, T>(props: P,
                                serialize: P -> Result<JsValue, SerdeError>,
                                host: JsValue -> Result<JsValue, JsValue>,
                                deserialize: JsValue -> Result<T, SerdeError>): (r: Result<T, Error>)
    ensures serialize(props).Err? ==> r == Err(JsonSerialization(serialize(props).error))
    ensures serialize(props).Ok? && !serialize(props).value.Object? ==> r == Err(ObjectConversion)
    ensures serialize(props).Ok? && serialize(props).value.Object? ==>
              r == SerdeFromJsResult(host(serialize(props).value), deserialize)
  {
    match JsFromSerde(props, serialize)
    case Err(e) => Err(e)
    case Ok(js) =>
      match ObjectFromJs(js)
      case Err(e) => Err(e)
      case Ok(obj) => SerdeFromJsResult(host(obj), deserialize)
  }

  /**
    When the request cannot be serialised to an object, the shared pipeline
    returns the same error whichever host it is given: the host is never
    consulted.
   */
  lemma CallWithObjectFailsBeforeHost<P, T>(props: P,
                                            serialize: P -> Result<JsValue, SerdeError>,
                                            h1: JsValue -> Result<JsValue, JsValue>,
                                            h2: JsValue -> Result<JsValue, JsValue>,
                                            deserialize: JsValue -> Result<T, SerdeError>)
    requires serialize(props).Err? || !serialize(props).value.Object?
    ensures CallWithObject(props, serialize, h1, deserialize) == CallWithObject(props, serialize, h2, deserialize)
    ensures CallWithObject(props, serialize, h1, deserialize).Err?
  {
  }

  /** `query`: the shared pipeline, with the host's `query` and the query details. */
  function Query(details: QueryDetails,
                 serialize: QueryDetails -> Result<JsValue, SerdeError>,
                 host: JsValue -> Result<JsValue, JsValue>,
                 deserialize: JsValue -> Result<seq<Tab>, SerdeError>): (r: Result<seq<Tab>, Error>)
    ensures r == CallWithObject(details, serialize, host, deserialize)
  {
    CallWithObject(details, serialize, host, deserialize)
  }

  /** `create`: the shared pipeline, with the host's `create` and the tab's properties. */
  function Create(props: CreateProperties,
                  serialize: CreateProperties -> Result<JsValue, SerdeError>,
                  host: JsValue -> Result<JsValue, JsValue>,
                  deserialize: JsValue -> Result<Tab, SerdeError>): (r: Result<Tab, Error>)
    ensures r == CallWithObject(props, serialize, host, deserialize)
  {
    CallWithObject(props, serialize, host, deserialize)
  }

  /**
    `update`: the shared pipeline, whose host call also receives the
    optional raw id (`None` for the current tab) with the properties object.
   */
  function Update(tabId: Option<TabId>, props: UpdateProperties,
                  serialize: UpdateProperties -> Result<JsValue, SerdeError>,
                  host: (Option<Int32>, JsValue) -> Result<JsValue, JsValue>,
                  deserialize: JsValue -> Result<Tab, SerdeError>): (r: Result<Tab, Error>)
    ensures serialize(props).Err? ==> r == Err(JsonSerialization(serialize(props).error))
    ensures serialize(props).Ok? && !serialize(props).value.Object? ==> r == Err(ObjectConversion)
    ensures serialize(props).Ok? && serialize(props).value.Object? ==>
              r == SerdeFromJsResult(host(HostTabId(tabId), serialize(props).value), deserialize)
  {
    CallWithObject(props, serialize, obj => host(HostTabId(tabId), obj), deserialize)
  }

  /**
    `send_message`: a serialisation failure is reported without asking the
    host; otherwise the host's reply is discarded, a success becomes `Ok(())`
    and a rejection the host's error. No options are passed.
   */
  function SendMessage<M>(tabId: TabId, message: M,
                          serialize: M -> Result<JsValue, SerdeError>,
                          host: (Int32, JsValue, Option<JsValue>) -> Result<JsValue, JsValue>)
    : (r: Result<(), Error>)
    ensures serialize(message).Err? ==> r == Err(JsonSerialization(serialize(message).error))
    ensures serialize(message).Ok? ==>
              var reply := host(I32FromTabId(tabId), serialize(message).value, None);
              (r.Ok? <==> reply.Ok?) && (reply.Err? ==> r == Err(JsError(reply.error)))
  {
    match JsFromSerde(message, serialize)
    case Err(e) => Err(e)
    case Ok(js) =>
      match host(tabId.raw, js, None)
      case Ok(_) => Ok(())
      case Err(e) => Err(FromJsValue(e))
  }

  /**
    Failures before the host call: when the request cannot be serialised to
    an object, `update` returns the same error whichever host it is given,
    so the host is never consulted.
   */
  lemma UpdateFailsBeforeHost(tabId: Option<TabId>, props: UpdateProperties,
                              serialize: UpdateProperties -> Result<JsValue, SerdeError>,
                              h1: (Option<Int32>, JsValue) -> Result<JsValue, JsValue>,
                              h2: (Option<Int32>, JsValue) -> Result<JsValue, JsValue>,
                              deserialize: JsValue -> Result<Tab, SerdeError>)
    requires serialize(props).Err? || !serialize(props).value.Object?
    ensures Update(tabId, props, serialize, h1, deserialize) == Update(tabId, props, serialize, h2, deserialize)
    ensures Update(tabId, props, serialize, h1, deserialize).Err?
  {
  }
}
