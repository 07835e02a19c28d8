/**
  The colours and icons of a contextual identity (container), each a
  serde rename table with the same name for serialising and deserialising
  (src/contextual_identities.rs:15-65). Decoding is serde's derived
  deserialiser on the name; the JSON quotes around it are not modelled.
 */
module ContextualIdentities {
  import opened Prelude

  datatype Color = Blue | Turquoise | Green | Yellow | Orange | Red | Pink | Purple | Toolbar

  datatype Icon =
    | Fingerprint | Briefcase | Dollar | Cart | Circle | Gift | Vacation
    | Food | Fruit | Pet | Tree | Chill | Fence

  function EncodeColor(c: Color): string
  {
    match c
    case Blue => "blue"
    case Turquoise => "turquoise"
    case Green => "green"
    case Yellow => "yellow"
    case Orange => "orange"
    case Red => "red"
    case Pink => "pink"
    case Purple => "purple"
    case Toolbar => "toolbar"
  }

  /** Only the nine names decode, each to the colour that serialises to it. */
  function DecodeColor(s: string): (r: Option<Color>)
    ensures r.Some? ==> EncodeColor(r.value) == s
    ensures r.None? ==> forall c :: EncodeColor(c) != s
  {
    match s
    case "blue" => Some(Blue)
    case "turquoise" => Some(Turquoise)
    case "green" => Some(Green)
    case "yellow" => Some(Yellow)
    case "orange" => Some(Orange)
    case "red" => Some(Red)
    case "pink" => Some(Pink)
    case "purple" => Some(Purple)
    case "toolbar" => Some(Toolbar)
    case _ => None
  }

  function EncodeIcon(i: Icon): string
  {
    match i
    case Fingerprint => "fingerprint"
    case Briefcase => "briefcase"
    case Dollar => "dollar"
    case Cart => "cart"
    case Circle => "circle"
    case Gift => "gift"
    case Vacation => "vacation"
    case Food => "food"
    case Fruit => "fruit"
    case Pet => "pet"
    case Tree => "tree"
    case Chill => "chill"
    case Fence => "fence"
  }

  /** Only the thirteen names decode, each to the icon that serialises to it. */
  function DecodeIcon(s: string): (r: Option<Icon>)
    ensures r.Some? ==> EncodeIcon(r.value) == s
    ensures r.None? ==> forall i :: EncodeIcon(i) != s
  {
    match s
    case "fingerprint" => Some(Fingerprint)
    case "briefcase" => Some(Briefcase)
    case "dollar" => Some(Dollar)
    case "cart" => Some(Cart)
    case "circle" => Some(Circle)
    case "gift" => Some(Gift)
    case "vacation" => Some(Vacation)
    case "food" => Some(Food)
    case "fruit" => Some(Fruit)
    case "pet" => Some(Pet)
    case "tree" => Some(Tree)
    case "chill" => Some(Chill)
    case "fence" => Some(Fence)
    case _ => None
  }

  /** The serde round trip the colour test asserts for every variant. */
  lemma ColorRoundTrip(c: Color)
    ensures DecodeColor(EncodeColor(c)) == Some(c)
  {
  }

  /** The serde round trip the icon test asserts for every variant. */
  lemma IconRoundTrip(i: Icon)
    ensures DecodeIcon(EncodeIcon(i)) == Some(i)
  {
  }

  /** Colour names are pairwise distinct. */
  lemma ColorInjective(a: Color, b: Color)
    ensures EncodeColor(a) == EncodeColor(b) <==> a == b
  {
  }

  /** Icon names are pairwise distinct. */
  lemma IconInjective(a: Icon, b: Icon)
    ensures EncodeIcon(a) == EncodeIcon(b) <==> a == b
  {
  }

  /** Every colour name is a non-empty lower-case word. */
  lemma ColorNameLowerCase(c: Color)
    ensures EncodeColor(c) != [] && IsLowerAscii(EncodeColor(c))
  {
  }

  /** Every icon name is a non-empty lower-case word. */
  lemma IconNameLowerCase(i: Icon)
    ensures EncodeIcon(i) != [] && IsLowerAscii(EncodeIcon(i))
  {
  }

  /** The colours in declaration order. */
  const AllColors := [Blue, Turquoise, Green, Yellow, Orange, Red, Pink, Purple, Toolbar]

  /** The icons in declaration order. */
  const AllIcons := [Fingerprint, Briefcase, Dollar, Cart, Circle, Gift, Vacation, Food, Fruit, Pet, Tree, Chill, Fence]

  /**
    The colour names in declaration order: the list of expected variants
    that serde's derived deserialiser matches against.
   */
  function ColorNames(): (names: seq<string>)
    ensures |names| == |AllColors|
    ensures forall k :: 0 <= k < |AllColors| ==> names[k] == EncodeColor(AllColors[k])
  {
    seq(|AllColors|, k requires 0 <= k < |AllColors| => EncodeColor(AllColors[k]))
  }

  /** The icon names in declaration order. */
  function IconNames(): (names: seq<string>)
    ensures |names| == |AllIcons|
    ensures forall k :: 0 <= k < |AllIcons| ==> names[k] == EncodeIcon(AllIcons[k])
  {
    seq(|AllIcons|, k requires 0 <= k < |AllIcons| => EncodeIcon(AllIcons[k]))
  }

  /** A string decodes to a colour exactly when it is one of the listed colour names. */
  lemma {:induction false} DecodeColorExactlyNames(s: string)
    ensures DecodeColor(s).Some? <==> s in ColorNames()
  {
    var names := ColorNames();
    match DecodeColor(s)
    case Some(c) =>
      assert c in AllColors;
      var k :| 0 <= k < |AllColors| && AllColors[k] == c;
      assert names[k] == s;
    case None =>
      forall k | 0 <= k < |names|
        ensures names[k] != s
      {
        assert names[k] == EncodeColor(AllColors[k]);
      }
  }

  /** A string decodes to an icon exactly when it is one of the listed icon names. */
  lemma {:induction false} DecodeIconExactlyNames(s: string)
    ensures DecodeIcon(s).Some? <==> s in IconNames()
  {
    var names := IconNames();
    match DecodeIcon(s)
    case Some(i) =>
      assert i in AllIcons;
      var k :| 0 <= k < |AllIcons| && AllIcons[k] == i;
      assert names[k] == s;
    case None =>
      forall k | 0 <= k < |names|
        ensures names[k] != s
      {
        assert names[k] == EncodeIcon(AllIcons[k]);
      }
  }

  /** The two serialisations checked in tests/node.rs. */
  lemma SerializationExamples()
    ensures EncodeColor(Red) == "red" && EncodeIcon(Dollar) == "dollar"
  {
  }
}
