# web-extensions: a verified model of the binding layer's core

The crate binds the browser's WebExtension APIs (tabs, omnibox, contextual
identities, ...) for code compiled to WebAssembly. Almost all of it passes
calls through to the host. This project models the parts that carry rules
of their own and proves those rules:

- **String codecs of the enumerated API types.** These are the tab `Status`
  (newer layout, three variants), the older two-variant `Status`,
  `WindowType`, the omnibox `DescriptionStyleType` and
  `OnInputEnteredDisposition`, and the contextual-identity `Color` and
  `Icon`. Each has a total encoder. Each type that has a decoder gets a
  partial one that rejects unknown input. They are proved to round-trip, to
  be injective, and to accept exactly the listed names. For the omnibox
  types, serde's `rename_all = "camelCase"` rule is modelled on the Rust
  identifiers. It is proved to produce exactly the crate's decoding
  constants.
- **The `EventListener` life cycle.** It is modelled as classes:
  - a host target holding a multiset of registered functions;
  - a closure object;
  - a listener with a `target` and an optional owned `callback`.

  `RawNew`, `New`, `Drop` and `Forget` state exactly how the target's
  registrations change.
- **Error routing shared by every wrapper.** The model covers:
  - `From<JsValue> for Error`;
  - the `FromWasmAbiResult` ⇄ `Result` conversions;
  - the helpers `js_from_serde`, `object_from_js` and `serde_from_js_result`;
  - the tab wrappers `query`, `create`, `update` and `send_message`, with
    the order in which their failures surface.

  The host functions and serde are function-typed parameters, so they stay
  uninterpreted.
- **The example extension's entered-input handler.** It is a method. It
  returns the requests it sends to the tabs API: an optional query, then
  exactly one update or create.

Files: `prelude.dfy` (Option, Result, `Int32`, the host's `JsValue`),
`error.dfy`, `util.dfy`, `event_listener.dfy`, `tab_status.dfy`,
`window_type.dfy`, `omnibox.dfy`, `contextual_identities.dfy`, `tabs.dfy`,
`legacy.dfy` (the older layout: src/lib.rs and src/tabs.rs) and
`new_tab_search.dfy` (the example).

The snapshot mixes two layouts of the crate, and their names disagree:

- src/error.rs:6-9 declares `JSONDeserializationError`,
  `JSONSerializationError` and `ObjectConversionError`.
- src/util.rs:6,10,17 uses `Error::JsonSerialization`,
  `Error::ObjectConversion` and `Error::JsonDeserialization`.
- src/omnibox.rs:64,99 uses `Error::Js`.

The model has one `Error` type with the variants `JsError`,
`JsonDeserialization`, `JsonSerialization` and `ObjectConversion`.

The older copies of that error type, of the three helpers and of
`FromWasmAbiResult` are src/lib.rs:32-59 and 61-86. They are the same
definitions, so the members in `Errors`, `Util` and `WasmAbi` model both
copies. The `WindowType` table of src/tabs.rs:22-32 is also identical to
src/tabs/window_type.rs, so `WindowTypes` models both.

The example fills its tab query with `..Default::default()`
(examples/omnibox/new-tab-search/src/lib.rs:57-61). `QueryDetails` derives
no `Default` in this snapshot (src/tabs/query_details.rs:4). The model uses
what a derived `Default` would give: every optional field `None`, and
`window_id` 0.

## Model

| member | source | states |
|---|---|---|
| `Errors.FromJsValue` | src/error.rs:12-16 | a host value becomes `JsError` of that same value (older copy src/lib.rs:40-44) |
| `Errors.FromJsValueInjective` | src/error.rs:12-16 | two host values give the same error exactly when they are equal |
| `WasmAbi.IntoResult` | src/error.rs:27-34 | `FromWasmAbiResult` → `Result` keeps the arm and the payload |
| `WasmAbi.FromResult` | src/error.rs:36-43 | `Result` → `FromWasmAbiResult` keeps the arm and the payload |
| `WasmAbi.ResultRoundTrip` | src/error.rs:27-43 | `Result` → `FromWasmAbiResult` → `Result` is the identity, for `Ok(v)` and `Err(e)` |
| `WasmAbi.AbiResultRoundTrip` | src/lib.rs:70-86 | `FromWasmAbiResult` → `Result` → `FromWasmAbiResult` is the identity (the same conversions as src/error.rs:27-43) |
| `Util.JsFromSerde` | src/util.rs:5-7 | a serialisation failure becomes `JsonSerialization` with serde's error; a success returns the serialised value |
| `Util.ObjectFromJs` | src/util.rs:9-11 | succeeds exactly for an object, which it returns unchanged; otherwise `ObjectConversion` |
| `Util.SerdeFromJsResult` | src/util.rs:13-18 | a host rejection `Err(e)` becomes `JsError(e)`; a host success that fails to deserialise becomes `JsonDeserialization`; one that deserialises to `t` gives `Ok(t)` |
| `Util.RejectionIgnoresDeserializer` | src/lib.rs:54-59 | on a host rejection the deserialiser is not consulted: any two deserialisers give the same `JsError` (the same holds for src/util.rs:17) |
| `Util.EchoRoundTrip` | src/util.rs:5-18 | if deserialisation inverts serialisation and the host echoes the object, a value sent through the three helpers comes back unchanged |
| `EventListeners.EventListener.RawNew` | src/event_listener.rs:17-24 | adds the callback to the target's registrations exactly once; the listener then owns it (`callback = Some`) |
| `EventListeners.EventListener.New` | src/event_listener.rs:31-37 | wraps the callback in a fresh closure and has exactly `raw_new`'s effect on the same target |
| `EventListeners.EventListener.Drop` | src/event_listener.rs:51-58 | if the listener owns its callback, exactly one occurrence of that callback is removed from that target; otherwise the registrations are unchanged; nothing else changes |
| `EventListeners.EventListener.Forget` | src/event_listener.rs:42-48 | leaves `callback = None`, marks the closure leaked, and the drop that follows removes nothing: the callback stays registered |
| `EventListeners.ForgetOneDropOther` | src/event_listener.rs:39-58 | two listeners on one target: the forgotten one stays registered, the dropped one is removed, and no other registration changes |
| `TabStatus.Encode` | src/tabs/status.rs:6-12 | the `rename` table: `Unloaded` → `"unloaded"`, `Loading` → `"loading"`, `Complete` → `"complete"`; its properties are `DecodeEncode`, `EncodeInjective` and `EncodeLowerCase` |
| `TabStatus.Decode` | src/tabs/status.rs:19-28 | `"unloaded"`, `"loading"` and `"complete"` decode to the variant that serialises to that name; any other string is rejected with `InvalidStatusError` carrying that exact string |
| `TabStatus.DecodeEncode` | src/tabs/status.rs:5-28 | decode(encode(v)) = `Ok(v)` for every variant |
| `TabStatus.EncodeInjective` | src/tabs/status.rs:6-12 | the three names are pairwise distinct |
| `TabStatus.EncodeLowerCase` | src/tabs/status.rs:6-12 | each variant serialises to a non-empty lower-case name |
| `TabStatus.CaseVariantsRejected` | src/tabs/status.rs:26 | case variants and the empty string are rejected with the string itself |
| `TabStatus.Message` | src/tabs/status.rs:15-17 | the error's text contains the rejected string verbatim, between the fixed prefix and suffix |
| `TabStatus.MessageInjective` | src/tabs/status.rs:15-17 | distinct rejected strings give distinct error texts |
| `WindowTypes.Encode` | src/tabs/window_type.rs:6-13 | the `rename(serialize)` table, shared with src/tabs.rs:22-32; its properties are `EncodeInjective`, `EncodeLowerCase` and `SerializeCases` |
| `WindowTypes.EncodeInjective` | src/tabs/window_type.rs:4-13 | the four names are pairwise distinct (the type has no decoder, as it derives only `Serialize`) |
| `WindowTypes.EncodeLowerCase` | src/tabs/window_type.rs:6-13 | every name is a non-empty lower-case word |
| `WindowTypes.SerializeCases` | tests/tabs.rs:20-40 | `Normal` → `"normal"`, `Popup` → `"popup"`, `Panel` → `"panel"`, `Devtools` → `"devtools"` (also src/tabs.rs:215-235) |
| `Omnibox.CamelCase` | src/omnibox.rs:40 | serde's camelCase rule keeps the length, lower-cases the first character and keeps the rest |
| `Omnibox.EncodeStyle` | src/omnibox.rs:39-45 | serde's camelCase serialisation of the variant identifier; `EncodeStyleIsConst` proves it is the decoding constant and `EncodeStyleInjective` that it is injective |
| `Omnibox.EncodeStyleIsConst` | src/omnibox.rs:39-51 | the camelCase serialisation of each style equals its decoding constant `DIM`, `MATCH` or `URL` |
| `Omnibox.StyleFromJs` | src/omnibox.rs:53-66 | a value decodes exactly when it is the string `"dim"`, `"match"` or `"url"`, to the style of that constant; anything else is rejected as `JsError` of the original value |
| `Omnibox.EncodeStyleInjective` | src/omnibox.rs:39-45 | distinct styles serialise to distinct names |
| `Omnibox.StyleRoundTrip` | src/omnibox.rs:39-66 | decoding a serialised style gives the style back |
| `Omnibox.EncodeDisposition` | src/omnibox.rs:74-80 | serde's camelCase serialisation of the variant identifier; `EncodeDispositionIsConst` proves it is the decoding constant and `EncodeDispositionInjective` that it is injective |
| `Omnibox.EncodeDispositionIsConst` | src/omnibox.rs:74-86 | the camelCase serialisation of each disposition equals its constant `CURRENT_TAB`, `NEW_FOREGROUND_TAB` or `NEW_BACKGROUND_TAB` |
| `Omnibox.DispositionFromJs` | src/omnibox.rs:88-101 | a value decodes exactly when it is `"currentTab"`, `"newBackgroundTab"` or `"newForegroundTab"`, to the matching disposition; anything else is rejected as `JsError` of the original value |
| `Omnibox.DispositionRoundTrip` | src/omnibox.rs:74-101 | decoding a serialised disposition gives the disposition back |
| `Omnibox.EncodeDispositionInjective` | src/omnibox.rs:76-80 | distinct dispositions serialise to distinct names |
| `Omnibox.SetDefaultSuggestion` | src/omnibox.rs:17-25 | the host receives the serialised suggestion exactly when serialisation succeeds, and the caller then gets `Ok(())` whatever the host does; a serialisation failure reaches the caller as `JsonSerialization` and the host is not called |
| `Omnibox.SuggestResultDefault` | src/omnibox.rs:103-113 | the derived `Default` of `SuggestResult` has an empty `content`, `deletable = false` and an empty `description` |
| `Omnibox.EnteredCallback` | src/omnibox.rs:227-236 | the user listener is called, with the text and the decoded disposition, exactly when decoding succeeds; otherwise the callback panics with `JsError` of the value and the listener is not called |
| `Omnibox.EnteredCallbackReachesListener` | src/omnibox.rs:235 | a host that sends a serialised disposition always reaches the listener with that disposition |
| `ContextualIdentities.EncodeColor` | src/contextual_identities.rs:15-35 | the `rename` table of the nine colours; its properties are `ColorRoundTrip`, `ColorInjective`, `ColorNameLowerCase` and `DecodeColorExactlyNames` |
| `ContextualIdentities.EncodeIcon` | src/contextual_identities.rs:37-65 | the `rename` table of the thirteen icons; its properties are `IconRoundTrip`, `IconInjective`, `IconNameLowerCase` and `DecodeIconExactlyNames` |
| `ContextualIdentities.DecodeColor` | src/contextual_identities.rs:15-35 | a decoded colour serialises back to the input; a rejected string is the name of no colour |
| `ContextualIdentities.DecodeIcon` | src/contextual_identities.rs:37-65 | a decoded icon serialises back to the input; a rejected string is the name of no icon |
| `ContextualIdentities.ColorRoundTrip` | tests/contextual_identities.rs:8-48 | decode(encode(c)) = c for all nine colours |
| `ContextualIdentities.IconRoundTrip` | tests/contextual_identities.rs:50-106 | decode(encode(i)) = i for all thirteen icons |
| `ContextualIdentities.ColorInjective` | src/contextual_identities.rs:17-33 | colour names are pairwise distinct |
| `ContextualIdentities.IconInjective` | src/contextual_identities.rs:39-63 | icon names are pairwise distinct |
| `ContextualIdentities.ColorNameLowerCase` | src/contextual_identities.rs:17-33 | every colour name is a non-empty lower-case word |
| `ContextualIdentities.IconNameLowerCase` | src/contextual_identities.rs:39-63 | every icon name is a non-empty lower-case word |
| `ContextualIdentities.DecodeColorExactlyNames` | src/contextual_identities.rs:16-34 | a string decodes to a colour exactly when it is one of the nine listed names |
| `ContextualIdentities.DecodeIconExactlyNames` | src/contextual_identities.rs:38-64 | a string decodes to an icon exactly when it is one of the thirteen listed names |
| `ContextualIdentities.SerializationExamples` | tests/node.rs:7-15 | `Red` → `"red"` and `Dollar` → `"dollar"` |
| `Tabs.TabIdFromI32` | src/tabs/mod.rs:27-31 | `i32` → `TabId` → `i32` is the identity |
| `Tabs.I32FromTabId` | src/tabs/mod.rs:33-37 | `From<TabId> for i32` returns the wrapped integer; `TabIdFromI32` and `TabIdRoundTrip` prove the two conversions inverse |
| `Tabs.TabIdRoundTrip` | src/tabs/mod.rs:27-37 | `TabId` → `i32` → `TabId` is the identity |
| `Tabs.TabIdEquality` | src/tabs/mod.rs:24-25 | two ids are equal exactly when their integers are |
| `Tabs.DefaultUpdateProperties` | src/tabs/mod.rs:116-136 | every field of the default is `None` |
| `Tabs.HostTabId` | src/tabs/mod.rs:111 | `None` goes to the host as `None`, `Some(id)` as `Some(id.0)` |
| `Tabs.CallWithObject` | src/tabs/mod.rs:68-73 | the pipeline of `query`, `create` and `update`: a serialisation failure comes first, then a non-object, both regardless of the host; otherwise the host gets the serialised object and its reply goes through `serde_from_js_result` |
| `Tabs.CallWithObjectFailsBeforeHost` | src/tabs/mod.rs:70-71 | when serialisation or object conversion fails, the pipeline gives the same error whatever the host does |
| `Tabs.Query` | src/tabs/mod.rs:68-73 | `query` is the shared pipeline applied to the query details and the host's `query` |
| `Tabs.Create` | src/tabs/mod.rs:89-94 | `create` is the shared pipeline applied to the creation properties and the host's `create` |
| `Tabs.Update` | src/tabs/mod.rs:107-114 | the same failure order; the host receives the mapped optional id and the serialised object |
| `Tabs.UpdateFailsBeforeHost` | src/tabs/mod.rs:109-112 | when serialisation or object conversion fails, `update` gives the same error whatever the host does |
| `Tabs.SendMessage` | src/tabs/mod.rs:75-87 | a serialisation failure is `JsonSerialization`; otherwise the host gets the raw id, the message and no options, its reply is discarded, success is `Ok(())`, and a rejection is `JsError` of the host's error |
| `Legacy.EventTarget.AddListener` | src/lib.rs:22-29 | has exactly `EventListener::new`'s effect on the wrapped target |
| `Legacy.EncodeStatus` | src/tabs.rs:14-20 | the older two-name `rename` table; its properties are `StatusRoundTrip` and `EncodeStatusInjective` |
| `Legacy.DecodeStatus` | src/tabs.rs:14-20 | only `"loading"` and `"complete"` decode, each to the variant that serialises to it; a rejected string is no variant's name |
| `Legacy.StatusRoundTrip` | src/tabs.rs:201-213 | decode(encode(v)) = v for both variants |
| `Legacy.EncodeStatusInjective` | src/tabs.rs:16-19 | the two names are distinct |
| `Legacy.UnloadedRejected` | src/tabs.rs:15-20 | `"unloaded"` is rejected here, while the newer layout accepts it |
| `Legacy.OlderNamesDecodeInNewerLayout` | src/tabs.rs:14-20 | each older name decodes in the newer layout to the variant of the same name |
| `NewTabSearch.SearchUrl` | examples/omnibox/new-tab-search/src/lib.rs:48-51 | the URL is `https://www.google.com/search?q=` followed by the URI-component encoding of the text |
| `NewTabSearch.SearchUrlInjective` | examples/omnibox/new-tab-search/src/lib.rs:48-51 | two texts give the same URL exactly when their encodings are equal |
| `NewTabSearch.CurrentTabQuery` | examples/omnibox/new-tab-search/src/lib.rs:57-61 | the current-tab query sets `active` and `last_focused_window` to `Some(true)`; every other optional filter is `None` and the required `window_id` is 0 |
| `NewTabSearch.NavigateTo` | examples/omnibox/new-tab-search/src/lib.rs:87-93 | the current-tab update sets only `url`; every other property is the default `None` |
| `NewTabSearch.OnInputEntered` | examples/omnibox/new-tab-search/src/lib.rs:53-124 | for `CurrentTab`, the handler queries and then updates the first result's tab, or the current tab (`None`) when the query fails or is empty; otherwise it creates a tab with the URL, active exactly for `NewForegroundTab`; exactly one update or create is issued, last |

## Left out

- Host API calls are left out: `tabs().get`, contextual-identity
  `create`/`get`/`query`/`remove`/`update`, bookmarks, history and
  downloads `search`. They are foreign asynchronous calls.
  `omnibox::set_default_suggestion` is modelled, with the host call's
  argument as the observable effect. The tab `query`, `create`, `update` and
  `send_message` wrappers are modelled, with the host as a function
  parameter; `get` adds nothing to them but `tab_id.0`.
- src/bookmarks.rs, src/history.rs and src/downloads.rs are not part of
  this model. Beyond a host call, they hold only schemas and one-line
  `From<&str>` literals.
- The field-copying `From<sys::...>` impls (src/tabs/tab.rs,
  src/tabs/on_*.rs, src/tabs/muted_info.rs) are left out. They read foreign
  getters. `Tab` keeps only `id`, `window_id`, `active`, `url` and
  `status`; `f64` fields such as `last_accessed` and zoom factors are not
  modelled.
- The per-event `add_listener` closures (src/tabs/on_*.rs, src/omnibox.rs)
  are host callback plumbing and are not modelled. Their life cycle is the
  `EventListeners` model. Only the entered-input callback's
  decode-or-panic step is modelled (`Omnibox.EnteredCallback`).
- The wasm ABI glue (`WasmDescribe`, `unsafe FromWasmAbi::from_abi`) is
  foreign-function plumbing and is left out.
- serde and JSON are left out. Serialising and deserialising are
  uninterpreted parameters, and a codec's name is the text between serde's
  JSON quotes.
- The derived `Display` of the omnibox types is left out, because the
  example only logs it. `InvalidStatusError`'s `Display` is modelled as
  `TabStatus.Message`.
- Logging (`console::*`), `spawn_local` and the awaiting of results are
  left out. The example's update and create replies are only logged.
  `js::encode_uri_component` is an uninterpreted string function.
  examples/omnibox/new-tab-search/background.js, a loader script, is not
  part of this model.
- The older layout's `Tab`, `QueryDetails`, `get`, `query` and event-target
  constructors (src/tabs.rs:34-193) follow the same shape as the newer ones
  and are not modelled separately.
- The test helpers tests/util/mod.rs and `test_util` in src/lib.rs only
  drive serde. They are cited as evidence, not modelled.
- The host's own `addListener`/`removeListener` semantics are assumed.
  They add one occurrence and remove one occurrence of a function object.
- `EventListeners.EventListener.Drop` does not model that Rust consumes the
  listener. Nothing stops a caller from using a listener after `Drop` or
  `Forget`. Dropping the owned closure, which frees its JavaScript function,
  is also not modelled.
- JavaScript numbers are modelled as integers (`Prelude.JsValue.Number`).
  Floating point is not modelled.
