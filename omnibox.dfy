/**
  The value types of the omnibox wrapper (src/omnibox.rs): the description
  style and the disposition of an entered input, each serialised by serde's
  `rename_all = "camelCase"` and decoded from a host value against the
  crate's own name constants; the default suggest result; and what the
  entered-input callback hands to the user's listener.
 */
module Omnibox {
  import opened Prelude
  import opened Errors
  import opened Util

  /** ASCII lower-casing of one character (`to_ascii_lowercase`). */
  function LowerAscii(c: char): (l: char)
    ensures 'A' <= c <= 'Z' ==> l as int == c as int + 32
    ensures !('A' <= c <= 'Z') ==> l == c
  {
    if 'A' <= c <= 'Z' then (c as int + 32) as char else c
  }

  /**
    serde's camelCase rule applied to a variant identifier, which is written
    in PascalCase: the first character is lower-cased, the rest is kept.
   */
  function CamelCase(ident: string): (r: string)
    ensures |r| == |ident|
    ensures ident != [] ==> r[0] == LowerAscii(ident[0]) && r[1..] == ident[1..]
  {
    if ident == [] then [] else [LowerAscii(ident[0])] + ident[1..]
  }

  // ---- DescriptionStyleType (src/omnibox.rs:36-66) -------------------------

  datatype DescriptionStyleType = Url | Match | Dim

  const DIM := "dim"
  const MATCH := "match"
  const URL := "url"

  /** The Rust identifier of a variant; it is also what `Display` prints. */
  function StyleIdent(t: DescriptionStyleType): string
  {
    match t
    case Url => "Url"
    case Match => "Match"
    case Dim => "Dim"
  }

  /** What serde writes for a style. */
  function EncodeStyle(t: DescriptionStyleType): string
  {
    CamelCase(StyleIdent(t))
  }

  /** The decoding constant the crate declares for each style. */
  function StyleConst(t: DescriptionStyleType): string
  {
    match t
    case Url => URL
    case Match => MATCH
    case Dim => DIM
  }

  /** The camelCase serialisation of each style is the constant it is decoded from. */
  lemma EncodeStyleIsConst(t: DescriptionStyleType)
    ensures EncodeStyle(t) == StyleConst(t)
  {
    var ident := StyleIdent(t);
    assert LowerAscii(ident[0]) == StyleConst(t)[0];
    assert ident[1..] == StyleConst(t)[1..];
  }

  /**
    `TryFrom<JsValue> for DescriptionStyleType`: a value decodes exactly when
    it is a string equal to one of the three constants, to the style of that
    constant; any other value, string or not, is rejected as a host error
    holding the value itself.
   */
  function StyleFromJs(v: JsValue): (r: Result<DescriptionStyleType, Error>)
    ensures r.Ok? <==> v.Str? && (v.s == DIM || v.s == MATCH || v.s == URL)
    ensures r.Ok? ==> StyleConst(r.value) == v.s
    ensures r.Err? ==> r.error == JsError(v)
  {
    match AsString(v)
    case Some(s) =>
      if s == DIM then Ok(Dim)
      else if s == MATCH then Ok(Match)
      else if s == URL then Ok(Url)
      else Err(FromJsValue(v))
    case None => Err(FromJsValue(v))
  }

  /** A serialised style decodes back to itself. */
  lemma StyleRoundTrip(t: DescriptionStyleType)
    ensures StyleFromJs(Str(EncodeStyle(t))) == Ok(t)
  {
  }

  /** Distinct styles serialise to distinct names. */
  lemma EncodeStyleInjective(a: DescriptionStyleType, b: DescriptionStyleType)
    ensures EncodeStyle(a) == EncodeStyle(b) <==> a == b
  {
    StyleRoundTrip(a);
    StyleRoundTrip(b);
  }

  // ---- OnInputEnteredDisposition (src/omnibox.rs:67-101) -------------------

  datatype Disposition = CurrentTab | NewForegroundTab | NewBackgroundTab

  const CURRENT_TAB := "currentTab"
  const NEW_BACKGROUND_TAB := "newBackgroundTab"
  const NEW_FOREGROUND_TAB := "newForegroundTab"

  /** The Rust identifier of a variant; it is also what `Display` prints. */
  function DispositionIdent(d: Disposition): string
  {
    match d
    case CurrentTab => "CurrentTab"
    case NewForegroundTab => "NewForegroundTab"
    case NewBackgroundTab => "NewBackgroundTab"
  }

  /** What serde writes (and its derived deserialiser reads) for a disposition. */
  function EncodeDisposition(d: Disposition): string
  {
    CamelCase(DispositionIdent(d))
  }

  /** The decoding constant the crate declares for each disposition. */
  function DispositionConst(d: Disposition): string
  {
    match d
    case CurrentTab => CURRENT_TAB
    case NewForegroundTab => NEW_FOREGROUND_TAB
    case NewBackgroundTab => NEW_BACKGROUND_TAB
  }

  /** The camelCase serialisation of each disposition is the constant it is decoded from. */
  lemma EncodeDispositionIsConst(d: Disposition)
    ensures EncodeDisposition(d) == DispositionConst(d)
  {
    var ident := DispositionIdent(d);
    assert LowerAscii(ident[0]) == DispositionConst(d)[0];
    assert ident[1..] == DispositionConst(d)[1..];
  }

  /**
    `TryFrom<JsValue> for OnInputEnteredDisposition`: a value decodes exactly
    when it is a string equal to one of the three constants, to the
    disposition of that constant; anything else is rejected as a host error
    holding the value itself.
   */
  function DispositionFromJs(v: JsValue): (r: Result<Disposition, Error>)
    ensures r.Ok? <==> v.Str? && (v.s == CURRENT_TAB || v.s == NEW_BACKGROUND_TAB || v.s == NEW_FOREGROUND_TAB)
    ensures r.Ok? ==> DispositionConst(r.value) == v.s
    ensures r.Err? ==> r.error == JsError(v)
  {
    match AsString(v)
    case Some(s) =>
      if s == CURRENT_TAB then Ok(CurrentTab)
      else if s == NEW_BACKGROUND_TAB then Ok(NewBackgroundTab)
      else if s == NEW_FOREGROUND_TAB then Ok(NewForegroundTab)
      else Err(FromJsValue(v))
    case None => Err(FromJsValue(v))
  }

  /** A serialised disposition decodes back to itself. */
  lemma DispositionRoundTrip(d: Disposition)
    ensures DispositionFromJs(Str(EncodeDisposition(d))) == Ok(d)
  {
    EncodeDispositionIsConst(d);
  }

  /** Distinct dispositions serialise to distinct names. */
  lemma EncodeDispositionInjective(a: Disposition, b: Disposition)
    ensures EncodeDisposition(a) == EncodeDisposition(b) <==> a == b
  {
  }

  // ---- The default suggestion (src/omnibox.rs:12-34) -----------------------

  /** The text shown in the first suggestion row. */
  datatype DefaultSuggestResult = DefaultSuggestResult(description: string)

  /**
    `set_default_suggestion`: the suggestion is serialised and, only when that
    succeeds, handed to the host, whose call returns nothing. The first
    component is what the host receives, the second what the caller gets.
   */
  function SetDefaultSuggestion(suggestion: DefaultSuggestResult,
                                serialize: DefaultSuggestResult -> Result<JsValue, SerdeError>)
    : (r: (Option<JsValue>, Result<(), Error>))
    ensures r.0.Some? <==> serialize(suggestion).Ok?
    ensures r.0.Some? ==> r.0.value == serialize(suggestion).value && r.1 == Ok(())
    ensures r.0.None? ==> r.1 == Err(JsonSerialization(serialize(suggestion).error))
  {
    match JsFromSerde(suggestion, serialize)
    case Ok(js) => (Some(js), Ok(()))
    case Err(e) => (None, Err(e))
  }

  // ---- SuggestResult (src/omnibox.rs:103-113) ------------------------------

  datatype SuggestResult = SuggestResult(content: string, deletable: bool, description: string)

  /** The derived `Default`: empty texts and not deletable. */
  function SuggestResultDefault(): (r: SuggestResult)
    ensures r.content == [] && !r.deletable && r.description == []
  {
    SuggestResult("", false, "")
  }

  // ---- The entered-input callback (src/omnibox.rs:222-239) -----------------

  /** What one host invocation of the entered-input callback does. */
  datatype EnteredOutcome =
    | ListenerCalled(text: string, disposition: Disposition)
    | Panicked(error: Error)

  /**
    The callback decodes the host's disposition and `unwrap`s it: the user
    listener is called, with the text and the decoded disposition, exactly
    when decoding succeeds; otherwise the callback panics on the decoder's
    error and the listener is never called.
   */
  function EnteredCallback(text: string, disposition: JsValue): (o: EnteredOutcome)
    ensures o.ListenerCalled? <==> DispositionFromJs(disposition).Ok?
    ensures o.ListenerCalled? ==> o.text == text && o.disposition == DispositionFromJs(disposition).value
    ensures o.Panicked? ==> o.error == JsError(disposition)
  {
    match DispositionFromJs(disposition)
    case Ok(d) => ListenerCalled(text, d)
    case Err(e) => Panicked(e)
  }

  /** A host that sends a serialised disposition always reaches the listener with it. */
  lemma EnteredCallbackReachesListener(text: string, d: Disposition)
    ensures EnteredCallback(text, Str(EncodeDisposition(d))) == ListenerCalled(text, d)
  {
    DispositionRoundTrip(d);
  }
}
