/** Conversation turns and the mutable list that holds a player's history. */
module History {

  const SYSTEM := "system"
  const USER := "user"
  const ASSISTANT := "assistant"

  /** One JSON turn {"role": ..., "content": ...}. */
  datatype Turn = Turn(role: string, content: string)

  /**
   * A java.util.List of turns. Lists are shared by reference: the list cached
   * for a player is the very object that the reply pipeline appends to.
   */
  class TurnList {
    var turns: seq<Turn>

    constructor (turns: seq<Turn>)
      ensures this.turns == turns
    {
      this.turns := turns;
    }
  }
}
