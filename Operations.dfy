/** The public operation surface of `executeCmd`: one variant per exported
    function, carrying that call's arguments. `Modifiers` is the list of grammar
    productions the call stands for; `Command` is the string the call hands to
    the host. */
module Operations {
  import opened Text
  import opened Tokens
  import E = ExecuteCmd
  import opened Grammar

  datatype Operation =
    | RunAsAt(selector: string, command: string)
    | RunAt(selector: string, command: string)
    | RunAs(selector: string, command: string)
    | RunIfBlock(x: int, y: int, z: int, block: string, command: string)
    | RunIfBlockRelative(x: int, y: int, z: int, block: string, command: string)
    | RunIfEntity(selector: string, command: string)
    | RunIfScoreEquals(selector: string, objective: string, value: int, command: string)
    | RunIfScoreRange(selector: string, objective: string, min: int, max: int, command: string)
    | RunUnlessBlock(x: int, y: int, z: int, block: string, command: string)
    | RunUnlessBlockRelative(x: int, y: int, z: int, block: string, command: string)
    | RunUnlessEntity(selector: string, command: string)
    | RunUnlessScoreEquals(selector: string, objective: string, value: int, command: string)
    | RunUnlessScoreRange(selector: string, objective: string, min: int, max: int, command: string)
    | RunPositioned(x: int, y: int, z: int, command: string)
    | RunPositionedRelative(x: int, y: int, z: int, command: string)
    | RunFacing(x: int, y: int, z: int, command: string)
    | RunFacingEntity(selector: string, anchor: AnchorPoint, command: string)
    | ExecuteRaw(subcommands: string, command: string)
    | RunAsAtFacingEntity(asSelector: string, facingSelector: string, anchor: AnchorPoint, command: string)

  /** The one string the operation sends to the host: the output of the
      corresponding builder, which is the assembly of the operation's modifiers
      around its command. */
  function Command(op: Operation): (r: string)
    ensures r == Assemble(Modifiers(op), op.command)
  {
    if op.RunAsAt? || op.RunAt? || op.RunAs? || op.RunFacingEntity? || op.ExecuteRaw? || op.RunAsAtFacingEntity? then
      ContextCommand(op)
    else if op.RunPositioned? || op.RunPositionedRelative? || op.RunFacing? then
      PositionCommand(op)
    else if op.RunIfBlock? || op.RunIfBlockRelative? || op.RunIfEntity? || op.RunIfScoreEquals? || op.RunIfScoreRange? then
      IfCommand(op)
    else
      UnlessCommand(op)
  }

  // `Command`, by group of builders.

  function ContextCommand(op: Operation): (r: string)
    requires op.RunAsAt? || op.RunAt? || op.RunAs? || op.RunFacingEntity? || op.ExecuteRaw? || op.RunAsAtFacingEntity?
    ensures r == Assemble(Modifiers(op), op.command)
  {
    match op
    case RunAsAt(selector, command) => E.RunAsAt(selector, command)
    case RunAt(selector, command) => E.RunAt(selector, command)
    case RunAs(selector, command) => E.RunAs(selector, command)
    case RunFacingEntity(selector, anchor, command) => E.RunFacingEntity(selector, anchor, command)
    case ExecuteRaw(subcommands, command) => E.ExecuteRaw(subcommands, command)
    case RunAsAtFacingEntity(asSelector, facingSelector, anchor, command) =>
      E.RunAsAtFacingEntity(asSelector, facingSelector, anchor, command)
  }

  function PositionCommand(op: Operation): (r: string)
    requires op.RunPositioned? || op.RunPositionedRelative? || op.RunFacing?
    ensures r == Assemble(Modifiers(op), op.command)
  {
    match op
    case RunPositioned(x, y, z, command) => E.RunPositioned(x, y, z, command)
    case RunPositionedRelative(x, y, z, command) => E.RunPositionedRelative(x, y, z, command)
    case RunFacing(x, y, z, command) => E.RunFacing(x, y, z, command)
  }

  function IfCommand(op: Operation): (r: string)
    requires op.RunIfBlock? || op.RunIfBlockRelative? || op.RunIfEntity? || op.RunIfScoreEquals? || op.RunIfScoreRange?
    ensures r == Assemble(Modifiers(op), op.command)
  {
    match op
    case RunIfBlock(x, y, z, block, command) => E.RunIfBlock(x, y, z, block, command)
    case RunIfBlockRelative(x, y, z, block, command) => E.RunIfBlockRelative(x, y, z, block, command)
    case RunIfEntity(selector, command) => E.RunIfEntity(selector, command)
    case RunIfScoreEquals(selector, objective, value, command) =>
      E.RunIfScoreEquals(selector, objective, value, command)
    case RunIfScoreRange(selector, objective, min, max, command) =>
      E.RunIfScoreRange(selector, objective, min, max, command)
  }

  function UnlessCommand(op: Operation): (r: string)
    requires op.RunUnlessBlock? || op.RunUnlessBlockRelative? || op.RunUnlessEntity? || op.RunUnlessScoreEquals?
             || op.RunUnlessScoreRange?
    ensures r == Assemble(Modifiers(op), op.command)
  {
    match op
    case RunUnlessBlock(x, y, z, block, command) => E.RunUnlessBlock(x, y, z, block, command)
    case RunUnlessBlockRelative(x, y, z, block, command) => E.RunUnlessBlockRelative(x, y, z, block, command)
    case RunUnlessEntity(selector, command) => E.RunUnlessEntity(selector, command)
    case RunUnlessScoreEquals(selector, objective, value, command) =>
      E.RunUnlessScoreEquals(selector, objective, value, command)
    case RunUnlessScoreRange(selector, objective, min, max, command) =>
      E.RunUnlessScoreRange(selector, objective, min, max, command)
  }

  /** The grammar productions an operation stands for, in output order. */
  function Modifiers(op: Operation): seq<Modifier>
  {
    match op
    case RunAsAt(selector, _) => [As(selector), At("@s")]
    case RunAt(selector, _) => [At(selector)]
    case RunAs(selector, _) => [As(selector)]
    case RunIfBlock(x, y, z, block, _) => [Condition(If, Block(Position(Abs(x), Abs(y), Abs(z)), block))]
    case RunIfBlockRelative(x, y, z, block, _) => [Condition(If, Block(Position(Rel(x), Rel(y), Rel(z)), block))]
    case RunIfEntity(selector, _) => [Condition(If, Entity(selector))]
    case RunIfScoreEquals(selector, objective, value, _) =>
      [Condition(If, Score(selector, objective, Equals(value)))]
    case RunIfScoreRange(selector, objective, min, max, _) =>
      [Condition(If, Score(selector, objective, Range(min, max)))]
    case RunUnlessBlock(x, y, z, block, _) =>
      [Condition(Unless, Block(Position(Abs(x), Abs(y), Abs(z)), block))]
    case RunUnlessBlockRelative(x, y, z, block, _) =>
      [Condition(Unless, Block(Position(Rel(x), Rel(y), Rel(z)), block))]
    case RunUnlessEntity(selector, _) => [Condition(Unless, Entity(selector))]
    case RunUnlessScoreEquals(selector, objective, value, _) =>
      [Condition(Unless, Score(selector, objective, Equals(value)))]
    case RunUnlessScoreRange(selector, objective, min, max, _) =>
      [Condition(Unless, Score(selector, objective, Range(min, max)))]
    case RunPositioned(x, y, z, _) => [Positioned(Position(Abs(x), Abs(y), Abs(z)))]
    case RunPositionedRelative(x, y, z, _) => [Positioned(Position(Rel(x), Rel(y), Rel(z)))]
    case RunFacing(x, y, z, _) => [Facing(Position(Abs(x), Abs(y), Abs(z)))]
    case RunFacingEntity(selector, anchor, _) => [FacingEntity(selector, anchor)]
    case ExecuteRaw(subcommands, _) => [Raw(subcommands)]
    case RunAsAtFacingEntity(asSelector, facingSelector, anchor, _) =>
      [As(asSelector), At("@s"), FacingEntity(facingSelector, anchor)]
  }

}
