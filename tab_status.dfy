/**
  The loading status of a tab in the newer layout of the crate
  (src/tabs/status.rs): three variants renamed to lower-case names for
  serde, and a `TryFrom<String>` that accepts exactly those names.
  The JSON quoting that serde adds around a name is not modelled: a name
  here is the text between the quotes.
 */
module TabStatus {
  import opened Prelude

  datatype Status = Unloaded | Loading | Complete

  /** The string a `try_from` rejected, returned to the caller unchanged. */
  datatype InvalidStatusError = InvalidStatusError(status: string)

  /** The `rename` of each variant: what serde writes for it. */
  function Encode(st: Status): string
  {
    match st
    case Unloaded => "unloaded"
    case Loading => "loading"
    case Complete => "complete"
  }

  /**
    `TryFrom<String> for Status`: a string decodes exactly when it is one of
    the three names, to the variant with that name; anything else, case
    variants included, is rejected with the string itself.
   */
  function Decode(s: string): (r: Result<Status, InvalidStatusError>)
    ensures r.Ok? ==> Encode(r.value) == s
    ensures r.Err? ==> r.error == InvalidStatusError(s) && forall st :: Encode(st) != s
  {
    match s
    case "unloaded" => Ok(Unloaded)
    case "loading" => Ok(Loading)
    case "complete" => Ok(Complete)
    case _ => Err(InvalidStatusError(s))
  }

  /** Decoding what a variant serialises to gives that variant back. */
  lemma DecodeEncode(st: Status)
    ensures Decode(Encode(st)) == Ok(st)
  {
  }

  /** Distinct variants have distinct names. */
  lemma EncodeInjective(a: Status, b: Status)
    ensures Encode(a) == Encode(b) <==> a == b
  {
  }

  /** Every name is a non-empty lower-case word. */
  lemma EncodeLowerCase(st: Status)
    ensures Encode(st) != [] && IsLowerAscii(Encode(st))
  {
  }

  /** Case variants of a name are not accepted. */
  lemma CaseVariantsRejected()
    ensures Decode("Loading") == Err(InvalidStatusError("Loading"))
    ensures Decode("COMPLETE") == Err(InvalidStatusError("COMPLETE"))
    ensures Decode("") == Err(InvalidStatusError(""))
  {
  }

  const MessagePrefix := "Invalid status ('"
  const MessageSuffix := "'), expected 'unloaded', 'loading' or 'complete'"

  /** The `Display` text of the error: it quotes the rejected string verbatim. */
  function Message(e: InvalidStatusError): (m: string)
    ensures |m| == |MessagePrefix| + |e.status| + |MessageSuffix|
    ensures m[..|MessagePrefix|] == MessagePrefix
    ensures m[|MessagePrefix|..|MessagePrefix| + |e.status|] == e.status
    ensures m[|MessagePrefix| + |e.status|..] == MessageSuffix
  {
    MessagePrefix + e.status + MessageSuffix
  }

  /** Distinct rejected strings give distinct messages. */
  lemma MessageInjective(a: InvalidStatusError, b: InvalidStatusError)
    ensures Message(a) == Message(b) <==> a == b
  {
  }
}
