/** The builders of the `executeCmd` namespace. Each exported function of the
    source assembles one `execute ... run ...` command string and hands it to the
    host; here each returns that string (the hand-off is in module Host).

    Each builder's contract says which grammar productions it renders: the
    result is `Assemble` of a fixed modifier list, so the envelope, the order of
    the modifiers and the verbatim placement of every string argument follow from
    the contract of `Assemble`. */
module ExecuteCmd {
  import opened Text
  import opened Numerals
  import opened Tokens
  import opened Grammar

  /** The escape hatch: `execute <subcommands> run <command>`, both inserted unchanged. */
  function ExecuteRaw(subcommands: string, command: string): (r: string)
    ensures r == Assemble([Raw(subcommands)], command)
  {
    AssembleSingle(Raw(subcommands), command);
    "execute " + subcommands + " run " + command
  }

  // Basic context modifiers

  function RunAsAt(selector: string, command: string): (r: string)
    ensures r == Assemble([As(selector), At("@s")], command)
  {
    AsAtShape(selector, command);
    "execute as " + selector + " at @s run " + command
  }

  function RunAt(selector: string, command: string): (r: string)
    ensures r == Assemble([At(selector)], command)
  {
    AssembleSingle(At(selector), command);
    "execute at " + selector + " run " + command
  }

  function RunAs(selector: string, command: string): (r: string)
    ensures r == Assemble([As(selector)], command)
  {
    AssembleSingle(As(selector), command);
    "execute as " + selector + " run " + command
  }

  // `if` conditions

  function RunIfBlock(x: int, y: int, z: int, block: string, command: string): (r: string)
    ensures r == Assemble([Condition(If, Block(Position(Abs(x), Abs(y), Abs(z)), block))], command)
  {
    BlockShape("execute if block ", " ", If, "", IntToString(x), IntToString(y), IntToString(z), block, command);
    "execute if block " + IntToString(x) + " " + IntToString(y) + " " + IntToString(z) + " " + block
    + " run " + command
  }

  function RunIfBlockRelative(x: int, y: int, z: int, block: string, command: string): (r: string)
    ensures r == Assemble([Condition(If, Block(Position(Rel(x), Rel(y), Rel(z)), block))], command)
  {
    BlockShape("execute if block ~", " ~", If, "~", IntToString(x), IntToString(y), IntToString(z), block, command);
    "execute if block ~" + IntToString(x) + " ~" + IntToString(y) + " ~" + IntToString(z) + " " + block
    + " run " + command
  }

  function RunIfEntity(selector: string, command: string): (r: string)
    ensures r == Assemble([Condition(If, Entity(selector))], command)
  {
    AssembleSingle(Condition(If, Entity(selector)), command);
    "execute if entity " + selector + " run " + command
  }

  function RunIfScoreEquals(selector: string, objective: string, value: int, command: string): (r: string)
    ensures r == Assemble([Condition(If, Score(selector, objective, Equals(value)))], command)
  {
    ScoreShape("execute if score ", If, selector, objective, IntToString(value), command);
    "execute if score " + selector + " " + objective + " matches " + IntToString(value) + " run " + command
  }

  function RunIfScoreRange(selector: string, objective: string, min: int, max: int, command: string): (r: string)
    ensures r == Assemble([Condition(If, Score(selector, objective, Range(min, max)))], command)
  {
    ScoreRangeShape("execute if score ", If, selector, objective, IntToString(min), IntToString(max), command);
    "execute if score " + selector + " " + objective + " matches " + IntToString(min) + ".." + IntToString(max)
    + " run " + command
  }

  // `unless` conditions

  function RunUnlessBlock(x: int, y: int, z: int, block: string, command: string): (r: string)
    ensures r == Assemble([Condition(Unless, Block(Position(Abs(x), Abs(y), Abs(z)), block))], command)
  {
    BlockShape("execute unless block ", " ", Unless, "", IntToString(x), IntToString(y), IntToString(z), block,
               command);
    "execute unless block " + IntToString(x) + " " + IntToString(y) + " " + IntToString(z) + " " + block
    + " run " + command
  }

  function RunUnlessBlockRelative(x: int, y: int, z: int, block: string, command: string): (r: string)
    ensures r == Assemble([Condition(Unless, Block(Position(Rel(x), Rel(y), Rel(z)), block))], command)
  {
    BlockShape("execute unless block ~", " ~", Unless, "~", IntToString(x), IntToString(y), IntToString(z), block,
               command);
    "execute unless block ~" + IntToString(x) + " ~" + IntToString(y) + " ~" + IntToString(z) + " " + block
    + " run " + command
  }

  function RunUnlessEntity(selector: string, command: string): (r: string)
    ensures r == Assemble([Condition(Unless, Entity(selector))], command)
  {
    AssembleSingle(Condition(Unless, Entity(selector)), command);
    "execute unless entity " + selector + " run " + command
  }

  function RunUnlessScoreEquals(selector: string, objective: string, value: int, command: string): (r: string)
    ensures r == Assemble([Condition(Unless, Score(selector, objective, Equals(value)))], command)
  {
    ScoreShape("execute unless score ", Unless, selector, objective, IntToString(value), command);
    "execute unless score " + selector + " " + objective + " matches " + IntToString(value) + " run " + command
  }

  function RunUnlessScoreRange(selector: string, objective: string, min: int, max: int, command: string): (r: string)
    ensures r == Assemble([Condition(Unless, Score(selector, objective, Range(min, max)))], command)
  {
    ScoreRangeShape("execute unless score ", Unless, selector, objective, IntToString(min), IntToString(max), command);
    "execute unless score " + selector + " " + objective + " matches " + IntToString(min) + ".." + IntToString(max)
    + " run " + command
  }

  // Position and facing

  function RunPositioned(x: int, y: int, z: int, command: string): (r: string)
    ensures r == Assemble([Positioned(Position(Abs(x), Abs(y), Abs(z)))], command)
  {
    PositionShape("execute positioned ", " ", "positioned ", "", IntToString(x), IntToString(y), IntToString(z),
                  command);
    "execute positioned " + IntToString(x) + " " + IntToString(y) + " " + IntToString(z) + " run " + command
  }

  function RunPositionedRelative(x: int, y: int, z: int, command: string): (r: string)
    ensures r == Assemble([Positioned(Position(Rel(x), Rel(y), Rel(z)))], command)
  {
    PositionShape("execute positioned ~", " ~", "positioned ", "~", IntToString(x), IntToString(y), IntToString(z),
                  command);
    "execute positioned ~" + IntToString(x) + " ~" + IntToString(y) + " ~" + IntToString(z) + " run " + command
  }

  function RunFacing(x: int, y: int, z: int, command: string): (r: string)
    ensures r == Assemble([Facing(Position(Abs(x), Abs(y), Abs(z)))], command)
  {
    PositionShape("execute facing ", " ", "facing ", "", IntToString(x), IntToString(y), IntToString(z), command);
    "execute facing " + IntToString(x) + " " + IntToString(y) + " " + IntToString(z) + " run " + command
  }

  function RunFacingEntity(selector: string, anchor: AnchorPoint, command: string): (r: string)
    ensures r == Assemble([FacingEntity(selector, anchor)], command)
  {
    AssembleSingle(FacingEntity(selector, anchor), command);
    var anchorName := if anchor == Eyes then "eyes" else "feet";
    "execute facing entity " + selector + " " + anchorName + " run " + command
  }

  // Combined

  function RunAsAtFacingEntity(asSelector: string, facingSelector: string, anchor: AnchorPoint,
                               command: string): (r: string)
    ensures r == Assemble([As(asSelector), At("@s"), FacingEntity(facingSelector, anchor)], command)
  {
    AsAtFacingEntityShape(asSelector, facingSelector, anchor, command);
    var anchorName := if anchor == Eyes then "eyes" else "feet";
    "execute as " + asSelector + " at @s facing entity " + facingSelector + " " + anchorName + " run " + command
  }

  // Regroupings of the builders' concatenations into the `Assemble` form. The
  // literal pieces a builder concatenates are passed in and tied to the grammar
  // tokens by the preconditions; the numerals are plain strings here.

  lemma AsAtShape(selector: string, command: string)
    ensures "execute as " + selector + " at @s run " + command == Assemble([As(selector), At("@s")], command)
  {
    var g := RenderAll([As(selector), At("@s")]);
    assert Join(g) == g[0] + " " + g[1];
    assert " at @s run " == " " + ("at " + "@s") + " run ";
  }

  lemma AsAtFacingEntityShape(asSelector: string, facingSelector: string, anchor: AnchorPoint, command: string)
    ensures "execute as " + asSelector + " at @s facing entity " + facingSelector + " " + AnchorName(anchor)
            + " run " + command
         == Assemble([As(asSelector), At("@s"), FacingEntity(facingSelector, anchor)], command)
  {
    var g := RenderAll([As(asSelector), At("@s"), FacingEntity(facingSelector, anchor)]);
    assert g[1..][1..] == [g[2]];
    assert Join(g[1..]) == g[1] + " " + g[2];
    assert "execute as " == "execute " + "as ";
    assert " at @s facing entity " == " " + ("at " + "@s") + " " + "facing entity ";
    CompositeShape("execute ", "as ", "at " + "@s", " ", "facing entity ", asSelector, facingSelector,
                   AnchorName(anchor), " run ", command, "execute as ", " at @s facing entity ");
  }

  lemma CompositeShape(execute: string, as_: string, at: string, sp: string, facing: string,
                       a: string, f: string, anchorName: string, run: string, command: string,
                       head: string, middle: string)
    requires head == execute + as_
    requires middle == sp + at + sp + facing
    ensures head + a + middle + f + sp + anchorName + run + command
         == execute + ((as_ + a) + sp + (at + sp + (facing + f + sp + anchorName))) + run + command
  {
  }

  lemma BlockShape(head: string, sep: string, p: Polarity, frame: string,
                   x: string, y: string, z: string, block: string, command: string)
    requires head == "execute " + Keyword(p) + " block " + frame
    requires sep == " " + frame
    ensures head + x + sep + y + sep + z + " " + block + " run " + command
         == "execute " + (Keyword(p) + " " + ("block " + ((frame + x) + " " + (frame + y) + " " + (frame + z))
                                              + " " + block)) + " run " + command
    ensures frame == "" ==> frame + x == x && frame + y == y && frame + z == z
  {
    var coords := (frame + x) + " " + (frame + y) + " " + (frame + z);
    assert head + x + sep + y + sep + z == "execute " + Keyword(p) + " block " + coords;
    assert " block " == " " + "block ";
  }

  lemma ScoreShape(head: string, p: Polarity, selector: string, objective: string, value: string, command: string)
    requires head == "execute " + Keyword(p) + " score "
    ensures head + selector + " " + objective + " matches " + value + " run " + command
         == "execute " + (Keyword(p) + " " + ("score " + selector + " " + objective + " matches " + value))
            + " run " + command
  {
    assert " score " == " " + "score ";
  }

  lemma ScoreRangeShape(head: string, p: Polarity, selector: string, objective: string, lo: string, hi: string,
                        command: string)
    requires head == "execute " + Keyword(p) + " score "
    ensures head + selector + " " + objective + " matches " + lo + ".." + hi + " run " + command
         == "execute " + (Keyword(p) + " " + ("score " + selector + " " + objective + " matches " + (lo + ".." + hi)))
            + " run " + command
  {
    ScoreShape(head, p, selector, objective, lo + ".." + hi, command);
  }

  lemma PositionShape(head: string, sep: string, keyword: string, frame: string,
                      x: string, y: string, z: string, command: string)
    requires head == "execute " + keyword + frame
    requires sep == " " + frame
    ensures head + x + sep + y + sep + z + " run " + command
         == "execute " + (keyword + ((frame + x) + " " + (frame + y) + " " + (frame + z))) + " run " + command
    ensures frame == "" ==> frame + x == x && frame + y == y && frame + z == z
  {
  }
}
