/**
  The type of a browser window (src/tabs/window_type.rs; the older layout's
  src/tabs.rs:22-32 holds the same table). The type derives `Serialize`
  only, so it has an encoder and deliberately no decoder.
 */
module WindowTypes {
  import opened Prelude

  datatype WindowType = Normal | Popup | Panel | Devtools

  /** The `rename(serialize = ...)` of each variant. */
  function Encode(w: WindowType): string
  {
    match w
    case Normal => "normal"
    case Popup => "popup"
    case Panel => "panel"
    case Devtools => "devtools"
  }

  /** The four names are pairwise distinct. */
  lemma EncodeInjective(a: WindowType, b: WindowType)
    ensures Encode(a) == Encode(b) <==> a == b
  {
  }

  /** Every name is a non-empty lower-case word. */
  lemma EncodeLowerCase(w: WindowType)
    ensures Encode(w) != [] && IsLowerAscii(Encode(w))
  {
  }

  /** The cases of the table-driven serialisation test (tests/tabs.rs:20-40). */
  lemma SerializeCases()
    ensures Encode(Normal) == "normal" && Encode(Popup) == "popup"
    ensures Encode(Panel) == "panel" && Encode(Devtools) == "devtools"
  {
  }
}
