/** Properties that relate several builders, or a builder to the host hand-off:
    the escape hatch reproduces every builder, the composite builder is the
    concatenation of its two parts, `if` and `unless` builders differ only in the
    keyword, and relative coordinates are the only source of tilde markers. */
module Properties {
  import opened Text
  import opened Numerals
  import opened Tokens
  import opened Grammar
  import E = ExecuteCmd
  import opened Operations

  /** The text between `execute ` and ` run <command>` of an assembled command. */
  function Subcommands(r: string, command: string): string
    requires |"execute "| + |" run "| + |command| <= |r|
  {
    r[8..|r| - |command| - 5]
  }

  // The escape hatch

  /** For any list of modifiers, passing its assembled subcommand text to the
      escape hatch with the same command reproduces the assembly exactly. */
  lemma RawReproducesAnyAssembly(mods: seq<Modifier>, command: string)
    ensures |"execute "| + |" run "| + |command| <= |Assemble(mods, command)|
    ensures E.ExecuteRaw(Subcommands(Assemble(mods, command), command), command) == Assemble(mods, command)
  {
    RawReproducesAssembly(mods, command);
  }

  /** For every operation, passing its subcommand text to the escape hatch with
      the same command reproduces its command string exactly. */
  lemma RawReproducesEveryBuilder(op: Operation)
    ensures |"execute "| + |" run "| + |op.command| <= |Command(op)|
    ensures E.ExecuteRaw(Subcommands(Command(op), op.command), op.command) == Command(op)
  {
    RawReproducesAnyAssembly(Modifiers(op), op.command);
  }

  /** Selectors reach the subcommand text unchanged, after their keyword; in
      particular the escape hatch given that text reproduces `runAsAt`. */
  lemma SelectorsVerbatim(selector: string, command: string)
    ensures Subcommands(E.RunAsAt(selector, command), command) == "as " + selector + " " + "at @s"
    ensures Subcommands(E.RunAs(selector, command), command) == "as " + selector
    ensures Subcommands(E.RunAt(selector, command), command) == "at " + selector
  {
    var g := RenderAll([As(selector), At("@s")]);
    assert Join(g) == g[0] + " " + g[1];
    assert Join(RenderAll([As(selector)])) == "as " + selector;
    assert Join(RenderAll([At(selector)])) == "at " + selector;
  }

  // The composite builder

  /** The subcommands of `runAsAtFacingEntity` are those of `runAsAt` followed,
      after one space, by those of `runFacingEntity`: as/at first, facing last. */
  lemma CompositeIsConcatenation(asSelector: string, facingSelector: string, anchor: AnchorPoint, command: string)
    ensures Subcommands(E.RunAsAtFacingEntity(asSelector, facingSelector, anchor, command), command)
         == Subcommands(E.RunAsAt(asSelector, command), command) + " "
            + Subcommands(E.RunFacingEntity(facingSelector, anchor, command), command)
  {
    var a := [As(asSelector), At("@s")];
    var f := [FacingEntity(facingSelector, anchor)];
    assert a + f == [As(asSelector), At("@s"), FacingEntity(facingSelector, anchor)];
    assert RenderAll(a + f) == RenderAll(a) + RenderAll(f);
    JoinAppend(RenderAll(a), RenderAll(f));
  }

  // `if` against `unless`

  /** `i` is `execute if ...` and `u` is `execute unless ...` with the same text
      after the keyword. */
  predicate PolaritySwapped(i: string, u: string)
  {
    && |i| >= 10 && |u| >= 14
    && i[..10] == "execute if" && u[..14] == "execute unless"
    && i[10..] == u[14..]
  }

  /** A condition renders the same test text under either keyword. */
  lemma ConditionPolarity(t: Test, command: string)
    ensures PolaritySwapped(Assemble([Condition(If, t)], command), Assemble([Condition(Unless, t)], command))
  {
    var rest := " " + RenderTest(t) + " run " + command;
    AssembleSingle(Condition(If, t), command);
    AssembleSingle(Condition(Unless, t), command);
    assert "execute if" == "execute " + "if";
    assert "execute unless" == "execute " + "unless";
    KeywordSplit("execute ", "if", "execute if", RenderTest(t), command, rest);
    KeywordSplit("execute ", "unless", "execute unless", RenderTest(t), command, rest);
  }

  /** The keyword of an assembled condition sits directly after `execute `, and
      everything after it does not depend on it. */
  lemma KeywordSplit(execute: string, keyword: string, head: string, test: string, command: string, rest: string)
    requires head == execute + keyword
    requires rest == " " + test + " run " + command
    ensures execute + (keyword + " " + test) + " run " + command == head + rest
    ensures (head + rest)[..|head|] == head && (head + rest)[|head|..] == rest
  {
  }

  /** Each `unless` builder is its `if` partner with the keyword replaced. */
  lemma BlockPolarity(x: int, y: int, z: int, block: string, command: string)
    ensures PolaritySwapped(E.RunIfBlock(x, y, z, block, command), E.RunUnlessBlock(x, y, z, block, command))
    ensures PolaritySwapped(E.RunIfBlockRelative(x, y, z, block, command),
                            E.RunUnlessBlockRelative(x, y, z, block, command))
  {
    ConditionPolarity(Block(Position(Abs(x), Abs(y), Abs(z)), block), command);
    ConditionPolarity(Block(Position(Rel(x), Rel(y), Rel(z)), block), command);
  }

  lemma EntityPolarity(selector: string, command: string)
    ensures PolaritySwapped(E.RunIfEntity(selector, command), E.RunUnlessEntity(selector, command))
  {
    ConditionPolarity(Entity(selector), command);
  }

  lemma ScorePolarity(selector: string, objective: string, value: int, min: int, max: int, command: string)
    ensures PolaritySwapped(E.RunIfScoreEquals(selector, objective, value, command),
                            E.RunUnlessScoreEquals(selector, objective, value, command))
    ensures PolaritySwapped(E.RunIfScoreRange(selector, objective, min, max, command),
                            E.RunUnlessScoreRange(selector, objective, min, max, command))
  {
    ConditionPolarity(Score(selector, objective, Equals(value)), command);
    ConditionPolarity(Score(selector, objective, Range(min, max)), command);
  }

  // Tilde markers

  /** Number of axes of `pos` given relative to the executing position. */
  function RelativeAxes(pos: Position): nat
  {
    (if pos.x.Rel? then 1 else 0) + (if pos.y.Rel? then 1 else 0) + (if pos.z.Rel? then 1 else 0)
  }

  /** A position carries one tilde per relative axis and no other. */
  lemma PositionTildes(pos: Position)
    ensures Count('~', FormatPosition(pos)) == RelativeAxes(pos)
  {
    var x, y, z := FormatCoord(pos.x), FormatCoord(pos.y), FormatCoord(pos.z);
    CountZero('~', " ");
    CountAppend('~', x, " ");
    CountAppend('~', x + " ", y);
    CountAppend('~', x + " " + y, " ");
    CountAppend('~', x + " " + y + " ", z);
  }

  /** The envelope adds no tilde: an assembled single modifier has the tildes of
      the modifier's text and of the command. */
  lemma SingleTildes(m: Modifier, command: string)
    ensures Count('~', Assemble([m], command)) == Count('~', Render(m)) + Count('~', command)
  {
    AssembleSingle(m, command);
    CountZero('~', "execute ");
    CountZero('~', " run ");
    CountAppend('~', "execute ", Render(m));
    CountAppend('~', "execute " + Render(m), " run ");
    CountAppend('~', "execute " + Render(m) + " run ", command);
  }

  /** A condition has the tildes of its test; the keyword adds none. */
  lemma ConditionTildes(p: Polarity, t: Test)
    ensures Count('~', Render(Condition(p, t))) == Count('~', RenderTest(t))
  {
    assert '~' !in Keyword(p) + " " by {
      match p
      case If =>
      case Unless =>
    }
    CountZero('~', Keyword(p) + " ");
    CountAppend('~', Keyword(p) + " ", RenderTest(t));
  }

  /** A block test has the tildes of its position and its block. */
  lemma BlockTestTildes(pos: Position, block: string)
    ensures Count('~', RenderTest(Block(pos, block))) == RelativeAxes(pos) + Count('~', block)
  {
    PositionTildes(pos);
    var f := FormatPosition(pos);
    CountZero('~', "block ");
    CountZero('~', " ");
    CountAppend('~', "block " + f + " ", block);
    CountAppend('~', "block " + f, " ");
    CountAppend('~', "block ", f);
  }

  /** A block condition has the tildes of its position, its block and its command. */
  lemma BlockConditionTildes(p: Polarity, pos: Position, block: string, command: string)
    ensures Count('~', Assemble([Condition(p, Block(pos, block))], command))
         == RelativeAxes(pos) + Count('~', block) + Count('~', command)
  {
    SingleTildes(Condition(p, Block(pos, block)), command);
    ConditionTildes(p, Block(pos, block));
    BlockTestTildes(pos, block);
  }

  /** A `positioned` or `facing` modifier has the tildes of its position and its command. */
  lemma PositionModifierTildes(pos: Position, command: string)
    ensures Count('~', Assemble([Positioned(pos)], command)) == RelativeAxes(pos) + Count('~', command)
    ensures Count('~', Assemble([Facing(pos)], command)) == RelativeAxes(pos) + Count('~', command)
  {
    SingleTildes(Positioned(pos), command);
    SingleTildes(Facing(pos), command);
    PositionTildes(pos);
    KeywordAddsNoTilde("positioned ", FormatPosition(pos));
    KeywordAddsNoTilde("facing ", FormatPosition(pos));
  }

  lemma KeywordAddsNoTilde(keyword: string, s: string)
    requires '~' !in keyword
    ensures Count('~', keyword + s) == Count('~', s)
  {
    CountZero('~', keyword);
    CountAppend('~', keyword, s);
  }

  /** Absolute block builders emit no tilde of their own; relative ones emit
      exactly three, one per axis, whatever the offsets (zero included). */
  lemma BlockBuilderTildes(x: int, y: int, z: int, block: string, command: string)
    ensures Count('~', E.RunIfBlock(x, y, z, block, command)) == Count('~', block) + Count('~', command)
    ensures Count('~', E.RunUnlessBlock(x, y, z, block, command)) == Count('~', block) + Count('~', command)
    ensures Count('~', E.RunIfBlockRelative(x, y, z, block, command)) == 3 + Count('~', block) + Count('~', command)
    ensures Count('~', E.RunUnlessBlockRelative(x, y, z, block, command))
         == 3 + Count('~', block) + Count('~', command)
  {
    BlockConditionTildes(If, Position(Abs(x), Abs(y), Abs(z)), block, command);
    BlockConditionTildes(Unless, Position(Abs(x), Abs(y), Abs(z)), block, command);
    BlockConditionTildes(If, Position(Rel(x), Rel(y), Rel(z)), block, command);
    BlockConditionTildes(Unless, Position(Rel(x), Rel(y), Rel(z)), block, command);
  }

  /** Likewise for `positioned` (absolute and relative) and `facing` (absolute). */
  lemma PositionBuilderTildes(x: int, y: int, z: int, command: string)
    ensures Count('~', E.RunPositioned(x, y, z, command)) == Count('~', command)
    ensures Count('~', E.RunPositionedRelative(x, y, z, command)) == 3 + Count('~', command)
    ensures Count('~', E.RunFacing(x, y, z, command)) == Count('~', command)
  {
    PositionModifierTildes(Position(Abs(x), Abs(y), Abs(z)), command);
    PositionModifierTildes(Position(Rel(x), Rel(y), Rel(z)), command);
  }
}
