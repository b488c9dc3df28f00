/**
 * NpcToPlayerMessageEvent: Fired when an NPC sends a player a message, a greeting or a reply.
 * It carries the player, the message, the NPC's name and a private copy of the
 * NPC's location, taken when the event is built.
 */
module NpcToPlayerMessageEvent {
  import opened Game

  class NpcToPlayerMessageEvent {
    const player: Player
    const message: string
    const npcName: string
    const npcLocation: Location?

    /** The location argument is cloned; a null location stays null. */
    constructor (player: Player, message: string, npcName: string, npcLocation: Location?)
      ensures this.player == player && this.message == message && this.npcName == npcName
      ensures npcLocation == null ==> this.npcLocation == null
      ensures npcLocation != null ==>
        this.npcLocation != null && fresh(this.npcLocation) && this.npcLocation.Value() == npcLocation.Value()
    {
      this.player := player;
      this.message := message;
      this.npcName := npcName;
      if npcLocation == null {
        this.npcLocation := null;
      } else {
        var copy := npcLocation.Clone();
        this.npcLocation := copy;
      }
    }

    function GetPlayer(): Player
    {
      player
    }

    function GetMessage(): string
    {
      message
    }

    function GetNpcName(): string
    {
      npcName
    }

    /** A new copy of the stored location on every call; null when none was given. */
    method GetNpcLocation() returns (loc: Location?)
      ensures npcLocation == null ==> loc == null
      ensures npcLocation != null ==> loc != null && fresh(loc) && loc.Value() == npcLocation.Value()
    {
      if npcLocation == null {
        return null;
      }
      loc := npcLocation.Clone();
    }
  }

  /**
   * The getters report the constructor's arguments; the location comes back as a
   * new copy of the argument's value, or null when none was given.
   */
  method ReportsArguments(player: Player, message: string, npcName: string, npcLocation: Location?)
    returns (event: NpcToPlayerMessageEvent, loc: Location?)
    ensures event.GetPlayer() == player && event.GetMessage() == message && event.GetNpcName() == npcName
    ensures npcLocation == null ==> loc == null
    ensures npcLocation != null ==> loc != null && loc != npcLocation && loc.Value() == npcLocation.Value()
  {
    event := new NpcToPlayerMessageEvent(player, message, npcName, npcLocation);
    loc := event.GetNpcLocation();
  }

  /**
   * Neither moving the location passed to the constructor nor moving a location
   * the getter returned changes what the event reports.
   */
  method LocationIsSnapshot(player: Player, message: string, npcName: string, at: Position, elsewhere: Position)
    returns (reported: Position)
    ensures reported == at
  {
    var original := new Location(at);
    var event := new NpcToPlayerMessageEvent(player, message, npcName, original);
    original.MoveTo(elsewhere);
    var first := event.GetNpcLocation();
    first.MoveTo(elsewhere);
    var second := event.GetNpcLocation();
    reported := second.Value();
  }
}
