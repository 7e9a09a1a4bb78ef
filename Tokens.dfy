/** Token formatters: the leaf values that the builders place into a command.
    Each formatter is total over its input type, and each has a reader that
    recovers the value, so that no two values share a token. */
module Tokens {
  import opened Text
  import opened Numerals

  /** Where a `facing entity` modifier aims: the target's feet or its eyes. */
  datatype AnchorPoint = Feet | Eyes

  /** The anchor token: `eyes` for Eyes, `feet` otherwise. */
  function AnchorName(anchor: AnchorPoint): (r: string)
    ensures r == "eyes" || r == "feet"
    ensures r == "eyes" <==> anchor == Eyes
    ensures r == "feet" <==> anchor == Feet
  {
    assert "eyes"[0] != "feet"[0];
    match anchor
    case Eyes => "eyes"
    case Feet => "feet"
  }

  function ParseAnchor(s: string): Option<AnchorPoint>
  {
    if s == "eyes" then Some(Eyes) else if s == "feet" then Some(Feet) else None
  }

  /** The anchor tokens are read back to the anchor, and nothing else reads as one. */
  lemma AnchorRoundTrip(anchor: AnchorPoint, s: string)
    ensures ParseAnchor(AnchorName(anchor)) == Some(anchor)
    ensures ParseAnchor(s).Some? <==> s == "feet" || s == "eyes"
  {
  }

  /** One axis value: world coordinates, or an offset from the executing position. */
  datatype Coord = Abs(v: int) | Rel(v: int)

  /** A relative value gets one leading tilde, an absolute one none; zero keeps
      its digit (`~0`, never a bare `~`). */
  function FormatCoord(c: Coord): (r: string)
    ensures |r| > 0
    ensures r[0] == '~' <==> c.Rel?
    ensures Count('~', r) == (if c.Rel? then 1 else 0)
  {
    NumeralHasNoMarkers(IntToString(c.v));
    CountZero('~', IntToString(c.v));
    match c
    case Abs(v) => IntToString(v)
    case Rel(v) =>
      CountAppend('~', "~", IntToString(v));
      "~" + IntToString(v)
  }

  function ParseCoord(s: string): Option<Coord>
  {
    if |s| > 0 && s[0] == '~' then
      match ParseInt(s[1..])
      case Some(v) => Some(Rel(v))
      case None => None
    else
      match ParseInt(s)
      case Some(v) => Some(Abs(v))
      case None => None
  }

  /** The frame and the value of a coordinate can both be read back from its token. */
  lemma {:induction false} CoordRoundTrip(c: Coord)
    ensures ParseCoord(FormatCoord(c)) == Some(c)
  {
    IntToStringRoundTrip(c.v);
    if c.Rel? {
      assert FormatCoord(c)[1..] == IntToString(c.v);
    }
  }

  /** The value after `matches`: one value, or an inclusive range `min..max`. */
  datatype Comparator = Equals(value: int) | Range(min: int, max: int)

  /** Equality renders the bare numeral; a range renders both bounds around `..`,
      whatever their order (an inverted range is rendered, not rejected). */
  function FormatComparator(cmp: Comparator): (r: string)
    ensures Count('.', r) == (if cmp.Range? then 2 else 0)
  {
    match cmp
    case Equals(v) =>
      NumeralHasNoMarkers(IntToString(v));
      CountZero('.', IntToString(v));
      IntToString(v)
    case Range(lo, hi) =>
      NumeralHasNoMarkers(IntToString(lo));
      NumeralHasNoMarkers(IntToString(hi));
      CountZero('.', IntToString(lo));
      CountZero('.', IntToString(hi));
      CountAppend('.', IntToString(lo), "..");
      CountAppend('.', IntToString(lo) + "..", IntToString(hi));
      IntToString(lo) + ".." + IntToString(hi)
  }

  function ParseComparator(s: string): Option<Comparator>
  {
    var i := IndexOf('.', s);
    if i == |s| then
      match ParseInt(s)
      case Some(v) => Some(Equals(v))
      case None => None
    else if i + 1 < |s| && s[i + 1] == '.' then
      match (ParseInt(s[..i]), ParseInt(s[i + 2..]))
      case (Some(lo), Some(hi)) => Some(Range(lo, hi))
      case _ => None
    else None
  }

  /** The comparator, both its kind and its bounds, can be read back from its token. */
  lemma {:induction false} ComparatorRoundTrip(cmp: Comparator)
    ensures ParseComparator(FormatComparator(cmp)) == Some(cmp)
  {
    match cmp
    case Equals(v) =>
      NumeralHasNoMarkers(IntToString(v));
      IntToStringRoundTrip(v);
    case Range(lo, hi) =>
      var a, b := IntToString(lo), IntToString(hi);
      var s := a + ".." + b;
      NumeralHasNoMarkers(a);
      assert s == a + (".." + b);
      FirstIndexAfterPrefix('.', a, ".." + b);
      assert s[..|a|] == a;
      assert s[|a| + 2..] == b;
      IntToStringRoundTrip(lo);
      IntToStringRoundTrip(hi);
  }
}
