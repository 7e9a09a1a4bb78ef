/** The execution sink. Every exported builder of `executeCmd` ends by handing
    its command string to the host player's `execute`; what the game then does
    with the command is outside this model. The player is modelled by the list of
    command strings it has been handed, in order. */
module Host {
  import opened Grammar
  import opened Operations

  class Player {
    /** Every command string handed to this player so far, oldest first. */
    var log: seq<string>

    constructor()
      ensures log == []
    {
      log := [];
    }

    /** Hands one command string to the host, unchanged. */
    method Execute(command: string)
      modifies this
      ensures log == old(log) + [command]
    {
      log := log + [command];
    }
  }

  /** One call of an exported builder: exactly one command string reaches the
      host, and it is the builder's assembly of the call's modifiers around its
      command. */
  method Run(player: Player, op: Operation)
    modifies player
    ensures player.log == old(player.log) + [Command(op)]
    ensures player.log[|player.log| - 1] == Assemble(Modifiers(op), op.command)
  {
    player.Execute(Command(op));
  }
}
