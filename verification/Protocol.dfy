/** The wire types of protocol.ts and the constants of config.ts. */
module Protocol {

  type Id = string

  datatype Option<+T> = None | Some(value: T)

  datatype Vec3 = Vec3(x: real, y: real, z: real)

  datatype Snapshot = Snapshot(
    id: Id,
    name: string,
    pos: Vec3,
    rotY: real,
    vel: Vec3,
    hp: int,
    crouch: bool,
    deadUntil: int,
    updatedAt: int,
    pingMs: Option<real>)

  /** A `state` message: a component is `None` when the server finds it is not finite or absent. */
  datatype StateMsg = StateMsg(
    pos: Option<Vec3>,
    rotY: Option<real>,
    vel: Option<Vec3>,
    crouch: bool,
    pingMs: Option<real>)

  datatype Body =
    | Join(player: Snapshot)
    | Leave(playerId: Id, name: string)
    | Chat(playerId: Id, name: string, text: string)
    | Moved(playerId: Id, pos: Vec3, rotY: real, vel: Vec3, crouch: bool)
    | Snowball(id: string, ownerId: Id, origin: Vec3, dir: Vec3, speed: real)
    | Hit(attackerId: Id, victimId: Id, victimHp: int, shotId: string)
    | Rename(playerId: Id, name: string)
    | Death(victimId: Id, victimName: string, attackerId: Id, attackerName: string, shotId: string, respawnAt: int)
    | Respawn(playerId: Id, pos: Vec3, hp: int)

  datatype Event = Event(seqNo: nat, at: int, body: Body)

  // --- config.ts ---

  const MAP_HALF := 190.0
  const CLEANUP_IDLE_MS := 5000
  const EVENT_MS := 120000
  const SHOT_DEDUP_MS := 10000

  const GRAVITY := 20.0
  const SNOWBALL_SPEED := 25.0
  const SNOWBALL_LIFE_SEC := 3.0
  const SIM_STEPS: nat := 60
  const HIT_RADIUS := 0.9
  const HIT_HEIGHT := 2.2
  const DAMAGE := 10
  const FULL_HP := 100
  const RESPAWN_MS := 3000

  const ZERO := Vec3(0.0, 0.0, 0.0)

  /** The square `|x|, |z| <= half` of the horizontal plane. */
  predicate InSquare(p: Vec3, half: real) {
    -half <= p.x <= half && -half <= p.z <= half
  }
}
