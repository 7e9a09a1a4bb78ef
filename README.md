# executeCmd: Minecraft `execute` command builders in Dafny

The `executeCmd` namespace (`execute.ts`) is a set of block-editor helpers for
Minecraft Bedrock. Each of its nineteen exported functions builds one
`execute <modifiers> run <command>` command string from fixed tokens and its
arguments, then hands the string to the host with `player.execute`. The
modifiers are `as`, `at`, `positioned` and `facing` (absolute or relative
coordinates), `facing entity` with a feet/eyes anchor, `if`/`unless` conditions
on a block, an entity or a score (a value or a `min..max` range), and the escape
hatch `executeRaw`, which takes pre-formed modifier text.

The model has these modules:

- `Text`: `Option`, counting a character, finding a character, joining tokens
  with single spaces.
- `Numerals`: the decimal rendering of integral `number` values (`IntToString`)
  and its reader `ParseInt`.
- `Tokens`: the leaf tokens. These are the anchor (`AnchorPoint`, `AnchorName`),
  coordinates (`Coord = Abs | Rel`, `FormatCoord`) and score comparators
  (`Comparator = Equals | Range`, `FormatComparator`). Each has a reader, and
  each reader is proved to invert its formatter.
- `Grammar`: a reference definition of the command grammar. It has one
  `Modifier` variant per grammar production, plus `Render` and `Assemble`, which
  places the rendered modifiers in order, joined by single spaces, between
  `execute ` and ` run <command>`.
- `ExecuteCmd`: the nineteen builders. Each is written as the source writes it,
  as one concatenation. Each returns the string the source hands to the host.
  Each is proved equal to `Assemble` of a fixed list of modifiers.
- `Operations`: one `Operation` variant per exported function, the modifiers
  each one stands for, and `Command`, the string it produces.
- `Host`: the sink. A `Player` records every command string handed to it.
  `Run` performs one operation and appends exactly one string.
- `Properties` and `Scenarios`: properties that relate builders to each other
  and to the escape hatch, and concrete calls.

All the formatting functions are pure, so formatting the same input twice gives
the same string.

## Model

| member | source | states |
|---|---|---|
| `ExecuteCmd.RunAsAt` | execute.ts:33-35 | the command is `as <selector>` then `at @s`, in that order, assembled around the command |
| `ExecuteCmd.RunAt` | execute.ts:47-49 | the command is the single modifier `at <selector>` assembled around the command |
| `ExecuteCmd.RunAs` | execute.ts:61-63 | the command is the single modifier `as <selector>` assembled around the command |
| `ExecuteCmd.RunIfBlock` | execute.ts:83-85 | the command is an `if block` condition at an absolute position (no tilde on any axis) naming the block |
| `ExecuteCmd.RunIfBlockRelative` | execute.ts:103-105 | the command is an `if block` condition at a position relative on all three axes |
| `ExecuteCmd.RunIfEntity` | execute.ts:117-119 | the command is an `if entity <selector>` condition |
| `ExecuteCmd.RunIfScoreEquals` | execute.ts:135-137 | the command is an `if score` condition whose comparator is the single value |
| `ExecuteCmd.RunIfScoreRange` | execute.ts:155-157 | the command is an `if score` condition whose comparator is the range `min..max`, with the bounds taken as given |
| `ExecuteCmd.RunUnlessBlock` | execute.ts:177-179 | the `unless` form of the absolute block condition |
| `ExecuteCmd.RunUnlessBlockRelative` | execute.ts:197-199 | the `unless` form of the relative block condition |
| `ExecuteCmd.RunUnlessEntity` | execute.ts:211-213 | the `unless` form of the entity condition |
| `ExecuteCmd.RunUnlessScoreEquals` | execute.ts:229-231 | the `unless` form of the score-equals condition |
| `ExecuteCmd.RunUnlessScoreRange` | execute.ts:249-251 | the `unless` form of the score-range condition |
| `ExecuteCmd.RunPositioned` | execute.ts:269-271 | the command is one `positioned` modifier at an absolute position |
| `ExecuteCmd.RunPositionedRelative` | execute.ts:287-289 | the command is one `positioned` modifier at a position relative on all three axes |
| `ExecuteCmd.RunFacing` | execute.ts:305-307 | the command is one `facing` modifier at an absolute position |
| `ExecuteCmd.RunFacingEntity` | execute.ts:320-323 | the command is one `facing entity <selector> <anchor>` modifier, with the anchor token given by `AnchorName` |
| `ExecuteCmd.ExecuteRaw` | execute.ts:338-340 | the command is one raw modifier holding the subcommand text unchanged |
| `ExecuteCmd.RunAsAtFacingEntity` | execute.ts:356-359 | the command is `as`, then `at @s`, then `facing entity`, in that order, with the same anchor mapping as `runFacingEntity` |
| `Tokens.AnchorName` | execute.ts:321 | the anchor token is `eyes` exactly for Eyes and `feet` exactly for Feet, and it is never anything else |
| `Tokens.AnchorRoundTrip` | execute.ts:14-19 | the anchor can be read back from its token, and only `feet` and `eyes` read as anchors |
| `Tokens.FormatCoord` | execute.ts:104 | a coordinate token is never empty; it starts with a tilde exactly when relative; it holds one tilde if relative and none if absolute, zero included |
| `Tokens.CoordRoundTrip` | execute.ts:104 | both the frame and the value of a coordinate can be read back from its token |
| `Tokens.FormatComparator` | execute.ts:156 | a range token holds exactly the two dots of `..`, and a single-value token holds none |
| `Tokens.ComparatorRoundTrip` | execute.ts:156 | the kind and the bounds of a comparator can be read back from its token, for every pair of bounds, inverted ranges included |
| `Numerals.NatToString` | execute.ts:84 | a non-negative value renders as a non-empty string of digits with no leading zero |
| `Numerals.IntToString` | execute.ts:84 | an integer renders as a numeral that starts with `-` exactly when the integer is negative |
| `Numerals.ParseInt` | execute.ts:136 | the reader accepts exactly the strings shaped like numerals |
| `Numerals.IntToStringRoundTrip` | execute.ts:136 | reading back a rendered integer gives that integer |
| `Numerals.IntToStringInjective` | execute.ts:136 | two integers render to the same numeral only when they are equal |
| `Grammar.Assemble` | execute.ts:339 | every command starts with `execute `, then holds the joined modifiers, then ` run `, then the command unchanged |
| `Grammar.AssembleAppend` | execute.ts:358 | assembling two lists places the first list's text before the second's, with one space between; nothing is reordered or dropped |
| `Grammar.RawReproducesAssembly` | execute.ts:338-340 | a raw modifier holding a list's joined text assembles to the same command as the list |
| `Operations.Command` | execute.ts:33-359 | the string each exported function produces is the assembly of that call's modifiers around its command |
| `Host.Player.Execute` | execute.ts:34 | the host receives the command string unchanged, appended after everything it received before |
| `Host.Run` | execute.ts:339 | one call of an exported function hands exactly one string to the host, and that string is the call's assembled command |
| `Properties.RawReproducesAnyAssembly` | execute.ts:338-340 | for any list of modifiers, `executeRaw` given the assembled subcommand text and the same command gives the identical string |
| `Properties.RawReproducesEveryBuilder` | execute.ts:338-340 | for every call of every builder, `executeRaw` given that call's subcommand text and the same command gives the identical string |
| `Properties.SelectorsVerbatim` | execute.ts:33-63 | the selector appears unchanged after `as ` or `at `, and `runAsAt` has the subcommand text `as <selector> at @s` |
| `Properties.CompositeIsConcatenation` | execute.ts:356-359 | the subcommands of `runAsAtFacingEntity` are those of `runAsAt`, then one space, then those of `runFacingEntity` |
| `Properties.ConditionPolarity` | execute.ts:83-251 | for any test, the `if` and `unless` conditions differ only in the keyword that follows `execute` |
| `Properties.BlockPolarity` | execute.ts:83-199 | each block builder and its `unless` twin differ only in the keyword, in both frames |
| `Properties.EntityPolarity` | execute.ts:117-213 | `runIfEntity` and `runUnlessEntity` differ only in the keyword |
| `Properties.ScorePolarity` | execute.ts:135-251 | each score builder and its `unless` twin differ only in the keyword, for both comparators |
| `Properties.PositionTildes` | execute.ts:288 | a position holds one tilde per relative axis and no others |
| `Properties.BlockConditionTildes` | execute.ts:104 | a block condition's command holds the tildes of its position, its block name and its command, and no others |
| `Properties.PositionModifierTildes` | execute.ts:288 | a `positioned` or `facing` command holds the tildes of its position and its command, and no others |
| `Properties.BlockBuilderTildes` | execute.ts:83-199 | the absolute block builders add no tilde; the relative ones add exactly three, one per axis |
| `Properties.PositionBuilderTildes` | execute.ts:269-307 | `runPositioned` and `runFacing` add no tilde; `runPositionedRelative` adds exactly three |
| `Scenarios.AsAtScenario` | execute.ts:33-35 | `runAsAt("@a", "say hello")` is `execute as @a at @s run say hello` |
| `Scenarios.RelativeCoordScenario` | execute.ts:104 | relative zero and minus one render as `~0` and `~-1` |
| `Scenarios.RangeScenario` | execute.ts:156 | the ranges 1 to 10 and 10 to 1 render as `1..10` and `10..1` |
| `Scenarios.RawScenario` | execute.ts:338-340 | `executeRaw("as @a at @s", "say hello")` equals `runAsAt("@a", "say hello")` |

## Left out

- The effect of `player.execute` on the game is left out. The host is an
  external call, so the model records only the strings it receives (`Host.Player.log`).
- The block-editor annotations (`//% block=`, defaults, weights, colours,
  icons, input modes) are left out. They are editor metadata, not behaviour.
- Non-integral `number` arguments are left out. JavaScript's rendering of
  fractions, `NaN`, infinities and exponent forms belongs to the runtime.
  Coordinates and score values are unbounded integers, so precision loss
  beyond 2^53 is not modelled either.
- `Tokens.AnchorName`: the source's ternary sends every value other than `Eyes`
  to `feet`, including numbers outside the enum that a caller might pass. The
  Dafny `AnchorPoint` has exactly two values, so no such number can be
  represented.
- Selectors, block ids, objectives and range order are not validated, because
  the source does not validate them. An inverted range is rendered as given.
- `Scenarios`: the whole-command scenarios whose arguments include numbers or
  an anchor are stated at the token level (`RelativeCoordScenario`,
  `RangeScenario`, the contract of `AnchorName`), together with the builders'
  `Assemble` contracts. The full literal strings for those calls are not
  stated.
