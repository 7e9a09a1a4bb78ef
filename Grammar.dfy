/** A structured description of the `execute` grammar that the builders render
    by hand: one datatype variant per grammar production, a renderer per
    production, and an assembler that joins rendered modifiers with single spaces,
    in the order given, inside the `execute ... run ...` envelope.

    Each builder in module ExecuteCmd is proved to be this assembler applied to a
    fixed list of modifiers. */
module Grammar {
  import opened Text
  import opened Tokens

  /** The two condition keywords. */
  datatype Polarity = If | Unless

  /** Three axis values. The source always builds them in one frame, but nothing
      requires it. */
  datatype Position = Position(x: Coord, y: Coord, z: Coord)

  /** What a condition tests. */
  datatype Test =
    | Block(pos: Position, block: string)
    | Entity(selector: string)
    | Score(selector: string, objective: string, comparator: Comparator)

  /** One grammar production. `Raw` is pre-formed text taken verbatim. */
  datatype Modifier =
    | As(selector: string)
    | At(selector: string)
    | Positioned(pos: Position)
    | Facing(pos: Position)
    | FacingEntity(selector: string, anchor: AnchorPoint)
    | Condition(polarity: Polarity, test: Test)
    | Raw(text: string)

  function Keyword(p: Polarity): string
  {
    match p
    case If => "if"
    case Unless => "unless"
  }

  function FormatPosition(pos: Position): string
  {
    FormatCoord(pos.x) + " " + FormatCoord(pos.y) + " " + FormatCoord(pos.z)
  }

  function RenderTest(t: Test): string
  {
    match t
    case Block(pos, block) => "block " + FormatPosition(pos) + " " + block
    case Entity(selector) => "entity " + selector
    case Score(selector, objective, cmp) =>
      "score " + selector + " " + objective + " matches " + FormatComparator(cmp)
  }

  function Render(m: Modifier): string
  {
    match m
    case As(selector) => "as " + selector
    case At(selector) => "at " + selector
    case Positioned(pos) => "positioned " + FormatPosition(pos)
    case Facing(pos) => "facing " + FormatPosition(pos)
    case FacingEntity(selector, anchor) => "facing entity " + selector + " " + AnchorName(anchor)
    case Condition(p, t) => Keyword(p) + " " + RenderTest(t)
    case Raw(text) => text
  }

  function RenderAll(mods: seq<Modifier>): (r: seq<string>)
    ensures |r| == |mods|
    ensures forall i :: 0 <= i < |mods| ==> r[i] == Render(mods[i])
  {
    seq(|mods|, i requires 0 <= i < |mods| => Render(mods[i]))
  }

  /** `execute <m1> <m2> ... run <command>`: the rendered modifiers, in order,
      between the fixed envelope, and the command appended unchanged. */
  function Assemble(mods: seq<Modifier>, command: string): (r: string)
    ensures |r| == |"execute "| + |Join(RenderAll(mods))| + |" run "| + |command|
    ensures r[..8] == "execute "
    ensures r[8..|r| - |command| - 5] == Join(RenderAll(mods))
    ensures r[|r| - |command| - 5..|r| - |command|] == " run "
    ensures r[|r| - |command|..] == command
  {
    "execute " + Join(RenderAll(mods)) + " run " + command
  }

  /** Assembling two lists one after the other places the first list's text
      before the second's, separated by one space: the assembler never reorders,
      merges or drops modifiers. */
  lemma AssembleAppend(a: seq<Modifier>, b: seq<Modifier>, command: string)
    requires |a| > 0 && |b| > 0
    ensures Assemble(a + b, command) == Assemble([Raw(Join(RenderAll(a)) + " " + Join(RenderAll(b)))], command)
  {
    assert RenderAll(a + b) == RenderAll(a) + RenderAll(b);
    JoinAppend(RenderAll(a), RenderAll(b));
  }

  /** One modifier is rendered as itself. */
  lemma AssembleSingle(m: Modifier, command: string)
    ensures Assemble([m], command) == "execute " + Render(m) + " run " + command
  {
    assert Join(RenderAll([m])) == Render(m);
  }

  /** The escape hatch reproduces any assembly: a raw modifier holding the joined
      text of a list assembles to the same command as the list. */
  lemma RawReproducesAssembly(mods: seq<Modifier>, command: string)
    ensures Assemble(mods, command) == Assemble([Raw(Join(RenderAll(mods)))], command)
  {
    AssembleSingle(Raw(Join(RenderAll(mods))), command);
  }
}
