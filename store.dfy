/** The game database that every route handler reads and writes: its tables,
    the invariants the handlers keep, and the lookups they share. */
module Store {
  import opened Ledger

  datatype Option<T> = None | Some(value: T)

  /** A handler's reply: a value, or the error it answers with. */
  datatype Result<T> = Ok(value: T) | Err(error: Error)

  /** The handlers' error replies, one per message in the source; `ServerError`
      is the 500 reply of a query that throws. */
  datatype Error =
    | NotAuthorized
    | KingdomNotFound
    | AttackerNotFound
    | DefenderNotFound
    | SenderKingdomNotFound
    | ReceiverKingdomNotFound
    | AlreadyHasKingdom
    | InvalidUnits
    | InvalidUnitType
    | InvalidBuildingType
    | BarracksNotFound
    | UnitNotFound
    | BuildingNotFound
    | NotEnoughResources
    | NotEnoughResourcesToPay
    | NotEnoughUnits
    | OfferNotFound
    | NotEnoughQuantity
    | AlreadyInAlliance
    | AllianceNotFound
    | NotInThisAlliance
    | NotAMember
    | TargetNotInAlliance
    | TaskNotFound
    | TaskAlreadyCompleted
    | ServerError

  type UserId = int
  type BuildingId = int
  type OfferId = int
  type AllianceId = int
  type TaskId = int

  datatype UnitType = Spearman | Archer | Cavalry | ShieldBearer

  /** The unit types in the order the stat and cost tables list them. */
  const AllUnitTypes: seq<UnitType> := [Spearman, Archer, Cavalry, ShieldBearer]

  lemma AllUnitTypesListed()
    ensures forall t: UnitType :: t in AllUnitTypes
    ensures forall i, j :: 0 <= i < j < |AllUnitTypes| ==> AllUnitTypes[i] != AllUnitTypes[j]
  {
    forall t: UnitType ensures t in AllUnitTypes {
      match t
      case Spearman => assert AllUnitTypes[0] == t;
      case Archer => assert AllUnitTypes[1] == t;
      case Cavalry => assert AllUnitTypes[2] == t;
      case ShieldBearer => assert AllUnitTypes[3] == t;
    }
  }

  function UnitName(t: UnitType): string {
    match t
    case Spearman => "spearman"
    case Archer => "archer"
    case Cavalry => "cavalry"
    case ShieldBearer => "shield_bearer"
  }

  /** A unit-type name as a request or URL carries it; any other name is
      absent from every table keyed by unit type. */
  function ParseUnitType(name: string): (r: Option<UnitType>)
    ensures r.Some? ==> UnitName(r.value) == name
    ensures forall t :: UnitName(t) == name ==> r == Some(t)
  {
    if name == "spearman" then Some(Spearman)
    else if name == "archer" then Some(Archer)
    else if name == "cavalry" then Some(Cavalry)
    else if name == "shield_bearer" then Some(ShieldBearer)
    else None
  }

  datatype BuildingType = TownHall | Barracks | Hospital | Marketplace | School

  function BuildingName(t: BuildingType): string {
    match t
    case TownHall => "town_hall"
    case Barracks => "barracks"
    case Hospital => "hospital"
    case Marketplace => "market"
    case School => "school"
  }

  function ParseBuildingType(name: string): (r: Option<BuildingType>)
    ensures r.Some? ==> BuildingName(r.value) == name
    ensures forall t :: BuildingName(t) == name ==> r == Some(t)
  {
    if name == "town_hall" then Some(TownHall)
    else if name == "barracks" then Some(Barracks)
    else if name == "hospital" then Some(Hospital)
    else if name == "market" then Some(Marketplace)
    else if name == "school" then Some(School)
    else None
  }

  /** A `kingdoms` row. */
  datatype Kingdom = Kingdom(owner: UserId, name: string, race: int, country: int)

  /** A `units` row: the quantity already counts units still in training. */
  datatype UnitRow = UnitRow(quantity: int, level: int, training: bool, trainingEnd: Option<int>)

  /** A `buildings` row. */
  datatype Building = Building(kingdom: KingdomId, kind: BuildingType, level: int, x: int, y: int)

  /** A `market_offers` row; a seller of None is an NPC offer. The quantity is
      held in escrow: it has already left the seller's balance. */
  datatype Offer = Offer(seller: Option<KingdomId>, resource: ResourceType, quantity: int,
                         priceType: ResourceType, price: int)

  datatype Role = Leader | Member

  /** An `alliances` row. */
  datatype Alliance = Alliance(name: string, leader: UserId)

  /** A `daily_tasks` row. */
  datatype Task = Task(kind: string, description: string, rewardType: ResourceType,
                       rewardAmount: int, difficulty: int)

  datatype AttackStatus = Completed | Failed

  /** An `attacks` row; a failed attack stores no stolen resources. */
  datatype BattleRecord = BattleRecord(attacker: KingdomId, defender: KingdomId, status: AttackStatus,
                                       stolen: Option<map<ResourceType, int>>,
                                       attackerLosses: map<UnitType, int>,
                                       defenderLosses: map<UnitType, int>)

  /** The next value of each table's serial id. */
  datatype Serials = Serials(kingdom: int, building: int, offer: int, alliance: int, task: int)

  /** The whole database as a value. */
  datatype World = World(
    roles: map<UserId, string>,
    kingdoms: map<KingdomId, Kingdom>,
    resources: Balances,
    units: map<(KingdomId, UnitType), UnitRow>,
    buildings: map<BuildingId, Building>,
    offers: map<OfferId, Offer>,
    alliances: map<AllianceId, Alliance>,
    members: map<(AllianceId, UserId), Role>,
    tasks: map<TaskId, Task>,
    completions: map<(UserId, TaskId), int>,
    attacks: seq<BattleRecord>,
    serial: Serials)

  /** No user owns two kingdoms (kingdom creation refuses a second one). */
  ghost predicate OneKingdomPerUser(ks: map<KingdomId, Kingdom>) {
    forall k1, k2 :: k1 in ks && k2 in ks && ks[k1].owner == ks[k2].owner ==> k1 == k2
  }

  /** No user belongs to two alliances. */
  ghost predicate OneAlliancePerUser(members: map<(AllianceId, UserId), Role>) {
    forall m1, m2 :: m1 in members && m2 in members && m1.1 == m2.1 ==> m1.0 == m2.0
  }

  /** Every id in use is below its table's serial counter. */
  ghost predicate SerialsAhead(w: World) {
    && (forall id :: id in w.kingdoms ==> id < w.serial.kingdom)
    && (forall id :: id in w.buildings ==> id < w.serial.building)
    && (forall id :: id in w.offers ==> id < w.serial.offer)
    && (forall id :: id in w.alliances ==> id < w.serial.alliance)
    && (forall id :: id in w.tasks ==> id < w.serial.task)
  }

  ghost predicate WorldValid(w: World) {
    OneKingdomPerUser(w.kingdoms) && OneAlliancePerUser(w.members) && SerialsAhead(w)
  }

  /** The invariants speak of no unit, resource or battle row, so writes to
      those tables keep them. */
  lemma ValidUnderRowWrites(w: World, units: map<(KingdomId, UnitType), UnitRow>, resources: Balances,
                            attacks: seq<BattleRecord>)
    requires WorldValid(w)
    ensures WorldValid(w.(units := units, resources := resources, attacks := attacks))
  {
  }

  /** `SELECT * FROM kingdoms WHERE user_id = $1`, first row. */
  function KingdomOf(ks: map<KingdomId, Kingdom>, u: UserId): (r: Option<KingdomId>)
    requires OneKingdomPerUser(ks)
    ensures r.Some? ==> r.value in ks && ks[r.value].owner == u
    ensures r.None? ==> forall k :: k in ks ==> ks[k].owner != u
  {
    if exists k :: k in ks && ks[k].owner == u then
      var k :| k in ks && ks[k].owner == u; Some(k)
    else None
  }

  /** `SELECT * FROM kingdoms WHERE id = $1 AND user_id = $2` returns a row. */
  predicate Owns(ks: map<KingdomId, Kingdom>, u: UserId, k: KingdomId) {
    k in ks && ks[k].owner == u
  }

  /** The database: one field per table, replaced by each query that writes it. */
  class Db {
    var roles: map<UserId, string>
    var kingdoms: map<KingdomId, Kingdom>
    var resources: Balances
    var units: map<(KingdomId, UnitType), UnitRow>
    var buildings: map<BuildingId, Building>
    var offers: map<OfferId, Offer>
    var alliances: map<AllianceId, Alliance>
    var members: map<(AllianceId, UserId), Role>
    var tasks: map<TaskId, Task>
    var completions: map<(UserId, TaskId), int>
    var attacks: seq<BattleRecord>
    var serial: Serials

    ghost function Snapshot(): World
      reads this
    {
      World(roles, kingdoms, resources, units, buildings, offers, alliances, members,
            tasks, completions, attacks, serial)
    }

    ghost predicate Valid()
      reads this
    {
      WorldValid(Snapshot())
    }

    constructor (w: World)
      requires WorldValid(w)
      ensures Valid() && Snapshot() == w
    {
      roles, kingdoms, resources, units := w.roles, w.kingdoms, w.resources, w.units;
      buildings, offers, alliances, members := w.buildings, w.offers, w.alliances, w.members;
      tasks, completions, attacks, serial := w.tasks, w.completions, w.attacks, w.serial;
    }
  }
}
