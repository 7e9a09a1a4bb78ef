/** Concrete calls of the builders and the exact strings they produce. */
module Scenarios {
  import opened Numerals
  import opened Tokens
  import E = ExecuteCmd

  lemma AsAtScenario()
    ensures E.RunAsAt("@a", "say hello") == "execute as @a at @s run say hello"
  {
  }

  /** Zero and negative offsets keep their numeral after the tilde. */
  lemma RelativeCoordScenario()
    ensures FormatCoord(Rel(0)) == "~0"
    ensures FormatCoord(Rel(-1)) == "~-1"
  {
    assert IntToString(0) == "0";
    assert IntToString(-1) == "-1";
  }

  /** A range is rendered as given, even with its bounds out of order. */
  lemma RangeScenario()
    ensures FormatComparator(Range(1, 10)) == "1..10"
    ensures FormatComparator(Range(10, 1)) == "10..1"
  {
    assert IntToString(1) == "1";
    assert IntToString(10) == "10";
  }

  /** The escape hatch reproduces a manual composition byte for byte. */
  lemma RawScenario()
    ensures E.ExecuteRaw("as @a at @s", "say hello") == E.RunAsAt("@a", "say hello")
  {
  }
}
