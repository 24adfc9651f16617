/** Shared value types. */
module Core {

  datatype Option<+T> = None | Some(value: T)

  /** A UUID primary key: only its identity matters to the tables. */
  type Id = nat

  /** Go's int32, the width of the token counts a provider reports. */
  type Int32 = x: int | -0x8000_0000 <= x < 0x8000_0000

  /** The identity a virtual key resolves to; `team` is None for a NULL team_id. */
  datatype Identity = Identity(org: Id, user: Id, team: Option<Id>, key: Id)
}
