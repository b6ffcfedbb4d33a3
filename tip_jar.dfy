/**
 * The tip-jar tiers and their store product identifiers
 * (the `Tip` enum of SupportAppView.swift).
 *
 * A tier is written as "icecubes.tipjar.<raw value>" and read back by
 * splitting the identifier on '.' and taking the third segment as a raw
 * value. Reading traps on an identifier with fewer than three segments or
 * whose third segment is not a raw value; `CanDecode` is that condition.
 */
module TipJar {
  import opened Wrappers

  /** The five tiers, in declaration order. */
  datatype Tip = One | Two | Three | Four | Supporter

  const SEPARATOR: char := '.'
  const PRODUCT_ID_PREFIX: string := "icecubes.tipjar."
  const LABEL_PREFIX: string := "settings.support."

  /** `Tip.allCases`: every tier exactly once, in declaration order. */
  function AllCases(): (tips: seq<Tip>)
    ensures |tips| == 5
    ensures forall i, j :: 0 <= i < j < |tips| ==> tips[i] != tips[j]
  {
    [One, Two, Three, Four, Supporter]
  }

  /** Every tier is among `AllCases()`. */
  lemma AllCasesComplete(t: Tip)
    ensures t in AllCases()
  {
    match t
    case One => assert AllCases()[0] == t;
    case Two => assert AllCases()[1] == t;
    case Three => assert AllCases()[2] == t;
    case Four => assert AllCases()[3] == t;
    case Supporter => assert AllCases()[4] == t;
  }

  /** The enum's raw value: the case name. */
  function RawValue(t: Tip): (s: string)
    ensures s != [] && SEPARATOR !in s
  {
    match t
    case One => "one"
    case Two => "two"
    case Three => "three"
    case Four => "four"
    case Supporter => "supporter"
  }

  /** `Tip(rawValue:)`: the tier whose raw value is `s`, if there is one. */
  function FromRawValue(s: string): (r: Option<Tip>)
    ensures r.Some? ==> RawValue(r.value) == s
    ensures r.None? <==> forall t: Tip :: RawValue(t) != s
  {
    if s == "one" then Some(One)
    else if s == "two" then Some(Two)
    else if s == "three" then Some(Three)
    else if s == "four" then Some(Four)
    else if s == "supporter" then Some(Supporter)
    else None
  }

  /** The length of the leading run of `s` that holds no `sep`. */
  function SegmentLength(s: string, sep: char): (k: nat)
    ensures k <= |s|
    ensures forall i :: 0 <= i < k ==> s[i] != sep
    ensures k == |s| || s[k] == sep
  {
    if s == [] || s[0] == sep then 0 else 1 + SegmentLength(s[1..], sep)
  }

  /**
   * Swift's `s.split(separator: sep)` with its defaults: the maximal runs of
   * `s` free of `sep`, in order; empty runs are omitted.
   */
  function Split(s: string, sep: char): (segments: seq<string>)
    ensures forall i :: 0 <= i < |segments| ==> segments[i] != [] && sep !in segments[i]
    decreases |s|
  {
    if s == [] then []
    else if s[0] == sep then Split(s[1..], sep)
    else
      var k := SegmentLength(s, sep);
      [s[..k]] + Split(s[k..], sep)
  }

  lemma {:induction false} SegmentLengthOfWord(w: string, rest: string, sep: char)
    requires sep !in w
    requires rest == [] || rest[0] == sep
    ensures SegmentLength(w + rest, sep) == |w|
  {
    if w != [] {
      assert (w + rest)[1..] == w[1..] + rest;
      SegmentLengthOfWord(w[1..], rest, sep);
    }
  }

  /** A word followed by nothing or by a separator is the first segment. */
  lemma {:induction false} SplitLeadingWord(w: string, rest: string, sep: char)
    requires w != [] && sep !in w
    requires rest == [] || rest[0] == sep
    ensures Split(w + rest, sep) == [w] + Split(rest, sep)
  {
    SegmentLengthOfWord(w, rest, sep);
    var s := w + rest;
    assert s[0] == w[0];
    assert s[..|w|] == w;
    assert s[|w|..] == rest;
  }

  /** Separators in front of the rest are skipped. */
  lemma {:induction false} SplitLeadingSeparator(rest: string, sep: char)
    ensures Split([sep] + rest, sep) == Split(rest, sep)
  {
  }

  /** `Tip.productId`: the raw value under the tip-jar prefix. */
  function ProductId(t: Tip): (id: string)
    ensures |PRODUCT_ID_PREFIX| < |id| && id[..|PRODUCT_ID_PREFIX|] == PRODUCT_ID_PREFIX
  {
    PRODUCT_ID_PREFIX + RawValue(t)
  }

  /**
   * The condition under which `Tip(productId:)` does not trap: at least three
   * segments, and the third is a raw value.
   */
  predicate CanDecode(productId: string): (ok: bool)
    ensures ok <==> |Split(productId, SEPARATOR)| >= 3 &&
                    exists t: Tip :: RawValue(t) == Split(productId, SEPARATOR)[2]
  {
    var segments := Split(productId, SEPARATOR);
    |segments| >= 3 && FromRawValue(segments[2]).Some?
  }

  /** `Tip(productId:)`: the tier named by the third segment. */
  function Decode(productId: string): (t: Tip)
    requires CanDecode(productId)
    ensures RawValue(t) == Split(productId, SEPARATOR)[2]
  {
    FromRawValue(Split(productId, SEPARATOR)[2]).value
  }

  /** Three words joined by one separator each, then `rest`. */
  function Dotted(a: string, b: string, c: string, rest: string): string
  {
    a + ([SEPARATOR] + (b + ([SEPARATOR] + (c + rest))))
  }

  /** Splitting "a.b.c<rest>" yields a, b and c first. */
  lemma {:induction false} SplitDotted(a: string, b: string, c: string, rest: string)
    requires a != [] && SEPARATOR !in a
    requires b != [] && SEPARATOR !in b
    requires c != [] && SEPARATOR !in c
    requires rest == [] || rest[0] == SEPARATOR
    ensures Split(Dotted(a, b, c, rest), SEPARATOR) == [a, b, c] + Split(rest, SEPARATOR)
  {
    var tail2 := c + rest;
    var tail1 := b + ([SEPARATOR] + tail2);
    SplitLeadingWord(a, [SEPARATOR] + tail1, SEPARATOR);
    SplitLeadingSeparator(tail1, SEPARATOR);
    SplitLeadingWord(b, [SEPARATOR] + tail2, SEPARATOR);
    SplitLeadingSeparator(tail2, SEPARATOR);
    SplitLeadingWord(c, rest, SEPARATOR);
    assert [a] + ([b] + ([c] + Split(rest, SEPARATOR))) == [a, b, c] + Split(rest, SEPARATOR);
  }

  /** The segments of a tier's product identifier. */
  lemma ProductIdSegments(t: Tip)
    ensures Split(ProductId(t), SEPARATOR) == ["icecubes", "tipjar", RawValue(t)]
  {
    assert ProductId(t) == Dotted("icecubes", "tipjar", RawValue(t), []);
    SplitDotted("icecubes", "tipjar", RawValue(t), []);
  }

  /** Encoding a tier and decoding it again gives the tier back, without trapping. */
  lemma DecodeProductId(t: Tip)
    ensures CanDecode(ProductId(t))
    ensures Decode(ProductId(t)) == t
  {
    ProductIdSegments(t);
  }

  /** The five product identifiers are pairwise distinct. */
  lemma ProductIdInjective(s: Tip, t: Tip)
    ensures ProductId(s) == ProductId(t) ==> s == t
  {
  }

  /**
   * Decoding reads the third segment only: the first two may be any words and
   * anything after a further separator is ignored.
   */
  lemma DecodeReadsThirdSegment(a: string, b: string, t: Tip, rest: string)
    requires a != [] && SEPARATOR !in a
    requires b != [] && SEPARATOR !in b
    requires rest == [] || rest[0] == SEPARATOR
    ensures CanDecode(Dotted(a, b, RawValue(t), rest))
    ensures Decode(Dotted(a, b, RawValue(t), rest)) == t
  {
    SplitDotted(a, b, RawValue(t), rest);
  }

  /** An identifier of two words, such as "icecubes.tipjar", has no third segment and traps. */
  lemma TwoSegmentsTrap(a: string, b: string)
    requires a != [] && SEPARATOR !in a
    requires b != [] && SEPARATOR !in b
    ensures !CanDecode(a + ([SEPARATOR] + b))
  {
    SplitLeadingWord(a, [SEPARATOR] + b, SEPARATOR);
    SplitLeadingSeparator(b, SEPARATOR);
    SplitLeadingWord(b, [], SEPARATOR);
    assert b + [] == b;
  }

  /** An identifier whose third segment names no tier, such as "icecubes.tipjar.five", traps. */
  lemma UnknownTierTraps(a: string, b: string, c: string, rest: string)
    requires a != [] && SEPARATOR !in a
    requires b != [] && SEPARATOR !in b
    requires c != [] && SEPARATOR !in c
    requires rest == [] || rest[0] == SEPARATOR
    requires forall t: Tip :: RawValue(t) != c
    ensures !CanDecode(Dotted(a, b, c, rest))
  {
    SplitDotted(a, b, c, rest);
  }

  /** The localization key of a tier's title. */
  function Title(t: Tip): (key: string)
    ensures key == LABEL_PREFIX + RawValue(t) + ".title"
  {
    match t
    case One => "settings.support.one.title"
    case Two => "settings.support.two.title"
    case Three => "settings.support.three.title"
    case Four => "settings.support.four.title"
    case Supporter => "settings.support.supporter.title"
  }

  /** The localization key of a tier's subtitle. */
  function Subtitle(t: Tip): (key: string)
    ensures key == LABEL_PREFIX + RawValue(t) + ".subtitle"
  {
    match t
    case One => "settings.support.one.subtitle"
    case Two => "settings.support.two.subtitle"
    case Three => "settings.support.three.subtitle"
    case Four => "settings.support.four.subtitle"
    case Supporter => "settings.support.supporter.subtitle"
  }

  /** No two tiers share a title key or a subtitle key, and no title key is a subtitle key. */
  lemma LabelKeysDistinct(s: Tip, t: Tip)
    ensures Title(s) == Title(t) ==> s == t
    ensures Subtitle(s) == Subtitle(t) ==> s == t
    ensures Title(s) != Subtitle(t)
  {
  }
}
