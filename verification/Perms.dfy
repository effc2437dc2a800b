/** Ranks and the action matrix (perms.go). */
module Perms {
  datatype Role = Readonly | Member | Mod | Admin | Owner

  datatype ServerRole = Guest | User | ServerAdmin | ServerOwner

  const NONE := 0
  const SERVER_ADMIN := 6
  const SERVER_OWNER := 7

  function RoleRank(r: Role): nat {
    match r
    case Readonly => 1
    case Member => 2
    case Mod => 3
    case Admin => 4
    case Owner => 5
  }

  datatype Action =
    | Read | Members | Send | DelOwn
    | SetTopic | MakeInvite | AddMember | KickMember | BanMember | Mute | DelAny
    | RevokeAny | SetRole | Settings | Rotate
    | Purge | DeleteIt | TransferIt

  function Need(a: Action): nat {
    match a
    case Read => 1
    case Members => 1
    case Send => 2
    case DelOwn => 2
    case RevokeAny => 4
    case SetRole => 4
    case Settings => 4
    case Rotate => 4
    case Purge => 5
    case DeleteIt => 5
    case TransferIt => 5
    case _ => 3
  }

  predicate Can(rank: nat, a: Action) { rank >= Need(a) }

  /** Only upwards ranks act downwards, and only the server owner on server staff. */
  predicate CanTarget(actor: nat, target: nat) {
    if target >= SERVER_ADMIN && actor != SERVER_OWNER then false else actor > target
  }

  predicate CanSend(rank: nat, readonly: bool) {
    Can(rank, Send) && !(readonly && rank < 3)
  }

  function ServerRank(r: ServerRole): nat {
    match r
    case Guest => 0
    case User => 1
    case ServerAdmin => 2
    case ServerOwner => 3
  }
}
