/** The game-side values the core handles: players, NPCs and locations. */
module Game {
  import opened Wrappers

  type Uuid = nat

  /** An online player; only its identity and name are read. */
  class Player {
    const uuid: Uuid
    const name: string

    constructor (uuid: Uuid, name: string)
      ensures this.uuid == uuid && this.name == name
    {
      this.uuid := uuid;
      this.name := name;
    }
  }

  /** A Citizens NPC, seen through its id and name. */
  datatype Npc = Npc(id: nat, name: string)

  /** The value of a Location: world, coordinates and rotation. */
  datatype Position = Position(world: Option<string>, x: real, y: real, z: real, yaw: real, pitch: real)

  /** A mutable Bukkit Location. */
  class Location {
    var world: Option<string>
    var x: real
    var y: real
    var z: real
    var yaw: real
    var pitch: real

    function Value(): Position
      reads this
    {
      Position(world, x, y, z, yaw, pitch)
    }

    constructor (p: Position)
      ensures Value() == p
    {
      world, x, y, z, yaw, pitch := p.world, p.x, p.y, p.z, p.yaw, p.pitch;
    }

    /** Location.clone(): a new object with the same field values. */
    method Clone() returns (c: Location)
      ensures fresh(c) && c.Value() == Value()
    {
      c := new Location(Value());
    }

    /** Moves the location to another position. */
    method MoveTo(p: Position)
      modifies this
      ensures Value() == p
    {
      world, x, y, z, yaw, pitch := p.world, p.x, p.y, p.z, p.yaw, p.pitch;
    }
  }
}
