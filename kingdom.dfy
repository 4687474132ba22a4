/** The kingdom routes: founding a kingdom with its starting treasury, the
    signed resource adjustment, and paying for new and upgraded buildings. */
module Kingdoms {
  import opened Ledger
  import opened Store

  /** The balances after the four-row INSERT of a new kingdom's starting
      treasury: 1000 gold, 500 wood, 500 stone and 1000 food. */
  function Endowed(b: Balances, k: KingdomId): Balances {
    b[(k, "gold") := 1000][(k, "wood") := 500][(k, "stone") := 500][(k, "food") := 1000]
  }

  /** `buildingCosts[building_type]`. */
  function BuildCost(t: BuildingType): Cost {
    match t
    case TownHall => [("gold", 1000), ("wood", 500), ("stone", 500)]
    case Barracks => [("gold", 300), ("wood", 200), ("stone", 100)]
    case Hospital => [("gold", 400), ("wood", 300), ("stone", 200)]
    case Marketplace => [("gold", 500), ("wood", 400), ("stone", 300)]
    case School => [("gold", 600), ("wood", 500), ("stone", 400)]
  }

  /** `upgradeCosts[building_type]` at the building's current level. */
  function UpgradeCost(t: BuildingType, level: int): Cost {
    match t
    case TownHall => [("gold", 1000 * level), ("wood", 500 * level), ("stone", 500 * level)]
    case Barracks => [("gold", 300 * level), ("wood", 200 * level), ("stone", 100 * level)]
    case Hospital => [("gold", 400 * level), ("wood", 300 * level), ("stone", 200 * level)]
    case Marketplace => [("gold", 500 * level), ("wood", 400 * level), ("stone", 300 * level)]
    case School => [("gold", 600 * level), ("wood", 500 * level), ("stone", 400 * level)]
  }

  /** A new kingdom under a fresh id, with its four resource rows, keeps the invariants. */
  lemma ValidAfterFounding(w: World, user: UserId, kingdom: Kingdom)
    requires WorldValid(w)
    requires kingdom.owner == user && forall k :: k in w.kingdoms ==> w.kingdoms[k].owner != user
    ensures WorldValid(w.(kingdoms := w.kingdoms[w.serial.kingdom := kingdom],
                          resources := Endowed(w.resources, w.serial.kingdom),
                          serial := w.serial.(kingdom := w.serial.kingdom + 1)))
  {
  }

  /** A new building under a fresh id keeps the invariants. */
  lemma ValidAfterBuildingInsert(w: World, resources: Balances, building: Building)
    requires WorldValid(w)
    ensures WorldValid(w.(resources := resources, buildings := w.buildings[w.serial.building := building],
                          serial := w.serial.(building := w.serial.building + 1)))
  {
  }

  /** Rewriting existing buildings, and moving resources, keeps the invariants. */
  lemma ValidAfterBuildingWrite(w: World, resources: Balances, buildings: map<BuildingId, Building>)
    requires WorldValid(w)
    requires buildings.Keys == w.buildings.Keys
    ensures WorldValid(w.(resources := resources, buildings := buildings))
  {
  }

  /** `POST /kingdoms` on the database as a value: the reply is the new row and its id. */
  function CreateKingdom(w: World, user: UserId, name: string, race: int, country: int)
    : (r: (Result<(KingdomId, Kingdom)>, World))
    requires WorldValid(w)
    ensures WorldValid(r.1)
    ensures r.0.Err? ==> r.1 == w
  {
    if KingdomOf(w.kingdoms, user).Some? then (Err(AlreadyHasKingdom), w)
    else
      var id := w.serial.kingdom;
      var kingdom := Kingdom(user, name, race, country);
      ValidAfterFounding(w, user, kingdom);
      (Ok((id, kingdom)), w.(kingdoms := w.kingdoms[id := kingdom], resources := Endowed(w.resources, id),
                             serial := w.serial.(kingdom := id + 1)))
  }

  /** `PUT /kingdoms/:id/resources` on the database as a value. The reply is
      the updated amount, or None when the kingdom has no row of that type
      (the UPDATE matches nothing and the body is empty). */
  function UpdateResources(w: World, user: UserId, k: KingdomId, t: ResourceType, amount: int)
    : (r: (Result<Option<int>>, World))
    requires WorldValid(w)
    ensures WorldValid(r.1)
    ensures r.0.Err? ==> r.1 == w
  {
    if !Owns(w.kingdoms, user, k) then (Err(NotAuthorized), w)
    else
      var resources := Adjust(w.resources, k, t, amount);
      ValidUnderRowWrites(w, w.units, resources, w.attacks);
      (Ok(if (k, t) in resources then Some(resources[(k, t)]) else None), w.(resources := resources))
  }

  /** `POST /kingdoms/:id/buildings` on the database as a value;
      `defaultLevel` is the level the `buildings` table gives a new row. */
  function AddBuilding(w: World, user: UserId, k: KingdomId, name: string, x: int, y: int, defaultLevel: int)
    : (r: (Result<(BuildingId, Building)>, World))
    requires WorldValid(w)
    ensures WorldValid(r.1)
    ensures r.0.Err? ==> r.1 == w
  {
    if !Owns(w.kingdoms, user, k) then (Err(NotAuthorized), w)
    else match ParseBuildingType(name)
      case None => (Err(InvalidBuildingType), w)
      case Some(t) =>
        if !Affordable(w.resources, k, BuildCost(t)) then (Err(NotEnoughResources), w)
        else
          var id := w.serial.building;
          var building := Building(k, t, defaultLevel, x, y);
          var resources := Deducted(w.resources, k, BuildCost(t));
          ValidAfterBuildingInsert(w, resources, building);
          (Ok((id, building)), w.(resources := resources, buildings := w.buildings[id := building],
                                  serial := w.serial.(building := id + 1)))
  }

  /** `PUT /kingdoms/:id/buildings/:buildingId` on the database as a value. */
  function UpgradeBuilding(w: World, user: UserId, k: KingdomId, id: BuildingId)
    : (r: (Result<Building>, World))
    requires WorldValid(w)
    ensures WorldValid(r.1)
    ensures r.0.Err? ==> r.1 == w
  {
    if !Owns(w.kingdoms, user, k) then (Err(NotAuthorized), w)
    else if id !in w.buildings || w.buildings[id].kingdom != k then (Err(BuildingNotFound), w)
    else
      var b := w.buildings[id];
      var cost := UpgradeCost(b.kind, b.level);
      if !Affordable(w.resources, k, cost) then (Err(NotEnoughResources), w)
      else
        var resources := Deducted(w.resources, k, cost);
        var buildings := w.buildings[id := b.(level := b.level + 1)];
        ValidAfterBuildingWrite(w, resources, buildings);
        (Ok(buildings[id]), w.(resources := resources, buildings := buildings))
  }

  /** The create-kingdom route, query by query. */
  method HandleCreateKingdom(db: Db, user: UserId, name: string, race: int, country: int)
    returns (r: Result<(KingdomId, Kingdom)>)
    requires db.Valid()
    modifies db
    ensures db.Valid()
    ensures (r, db.Snapshot()) == CreateKingdom(old(db.Snapshot()), user, name, race, country)
  {
    if KingdomOf(db.kingdoms, user).Some? {
      return Err(AlreadyHasKingdom);
    }
    ghost var w := db.Snapshot();
    var id := db.serial.kingdom;
    var kingdom := Kingdom(user, name, race, country);
    db.kingdoms := db.kingdoms[id := kingdom];
    db.serial := db.serial.(kingdom := id + 1);
    db.resources := Endowed(db.resources, id);
    assert db.Snapshot() == w.(kingdoms := db.kingdoms, resources := db.resources, serial := db.serial);
    ValidAfterFounding(w, user, kingdom);
    r := Ok((id, kingdom));
  }

  /** The update-resources route: one UPDATE ... RETURNING. */
  method HandleUpdateResources(db: Db, user: UserId, k: KingdomId, t: ResourceType, amount: int)
    returns (r: Result<Option<int>>)
    requires db.Valid()
    modifies db
    ensures db.Valid()
    ensures (r, db.Snapshot()) == UpdateResources(old(db.Snapshot()), user, k, t, amount)
  {
    if !Owns(db.kingdoms, user, k) {
      return Err(NotAuthorized);
    }
    ghost var w := db.Snapshot();
    db.resources := Adjust(db.resources, k, t, amount);
    r := Ok(if (k, t) in db.resources then Some(db.resources[(k, t)]) else None);
    assert db.Snapshot() == w.(resources := db.resources);
    ValidUnderRowWrites(w, w.units, db.resources, w.attacks);
  }

  /** The add-building route, query by query. */
  method HandleAddBuilding(db: Db, user: UserId, k: KingdomId, name: string, x: int, y: int, defaultLevel: int)
    returns (r: Result<(BuildingId, Building)>)
    requires db.Valid()
    modifies db
    ensures db.Valid()
    ensures (r, db.Snapshot()) == AddBuilding(old(db.Snapshot()), user, k, name, x, y, defaultLevel)
  {
    if !Owns(db.kingdoms, user, k) {
      return Err(NotAuthorized);
    }
    var parsed := ParseBuildingType(name);
    if parsed.None? {
      return Err(InvalidBuildingType);
    }
    var cost := BuildCost(parsed.value);
    if !Affordable(db.resources, k, cost) {
      return Err(NotEnoughResources);
    }
    var id := Construct(db, Building(k, parsed.value, defaultLevel, x, y), cost);
    r := Ok((id, Building(k, parsed.value, defaultLevel, x, y)));
  }

  /** The writes of an accepted building order: the deduction loop, then the INSERT. */
  method Construct(db: Db, building: Building, cost: Cost) returns (id: BuildingId)
    requires db.Valid()
    modifies db`resources, db`buildings, db`serial
    ensures db.Valid()
    ensures id == old(db.serial.building)
    ensures db.Snapshot() == old(db.Snapshot()).(resources := Deducted(old(db.resources), building.kingdom, cost),
                                                 buildings := old(db.buildings)[id := building],
                                                 serial := old(db.serial).(building := id + 1))
  {
    ghost var w := db.Snapshot();
    var resources := Deduct(db.resources, building.kingdom, cost);
    db.resources := resources;
    id := db.serial.building;
    db.buildings := db.buildings[id := building];
    db.serial := db.serial.(building := id + 1);
    assert db.Snapshot() == w.(resources := db.resources, buildings := db.buildings, serial := db.serial);
    ValidAfterBuildingInsert(w, db.resources, building);
  }

  /** The upgrade-building route, query by query. */
  method HandleUpgradeBuilding(db: Db, user: UserId, k: KingdomId, id: BuildingId) returns (r: Result<Building>)
    requires db.Valid()
    modifies db
    ensures db.Valid()
    ensures (r, db.Snapshot()) == UpgradeBuilding(old(db.Snapshot()), user, k, id)
  {
    if !Owns(db.kingdoms, user, k) {
      return Err(NotAuthorized);
    }
    if id !in db.buildings || db.buildings[id].kingdom != k {
      return Err(BuildingNotFound);
    }
    var cost := UpgradeCost(db.buildings[id].kind, db.buildings[id].level);
    if !Affordable(db.resources, k, cost) {
      return Err(NotEnoughResources);
    }
    var b := Raise(db, k, id, cost);
    r := Ok(b);
  }

  /** The writes of an accepted upgrade: the deduction loop, then
      `level = level + 1` on the building with that id. */
  method Raise(db: Db, k: KingdomId, id: BuildingId, cost: Cost) returns (b: Building)
    requires db.Valid()
    requires id in db.buildings
    modifies db`resources, db`buildings
    ensures db.Valid()
    ensures b == old(db.buildings)[id].(level := old(db.buildings)[id].level + 1)
    ensures db.Snapshot() == old(db.Snapshot()).(resources := Deducted(old(db.resources), k, cost),
                                                 buildings := old(db.buildings)[id := b])
  {
    ghost var w := db.Snapshot();
    var resources := Deduct(db.resources, k, cost);
    db.resources := resources;
    b := db.buildings[id].(level := db.buildings[id].level + 1);
    db.buildings := db.buildings[id := b];
    assert db.Snapshot() == w.(resources := db.resources, buildings := db.buildings);
    ValidAfterBuildingWrite(w, db.resources, db.buildings);
  }

  /** Founding is refused, with AlreadyHasKingdom, exactly when the user
      already owns a kingdom. */
  lemma CreateKingdomAccepted(w: World, user: UserId, name: string, race: int, country: int)
    requires WorldValid(w)
    ensures var r := CreateKingdom(w, user, name, race, country).0;
      && (r.Ok? <==> forall k :: k in w.kingdoms ==> w.kingdoms[k].owner != user)
      && (r.Err? ==> r.error == AlreadyHasKingdom)
  {
  }

  /** An accepted founding gives the new kingdom a fresh id, makes it the
      user's one kingdom, and starts it with 1000 gold, 500 wood, 500 stone
      and 1000 food, no other resource row changing. */
  lemma CreateKingdomEndows(w: World, user: UserId, name: string, race: int, country: int)
    requires WorldValid(w)
    requires CreateKingdom(w, user, name, race, country).0.Ok?
    ensures var (r, w') := CreateKingdom(w, user, name, race, country);
      var id := r.value.0;
      && id !in w.kingdoms
      && KingdomOf(w'.kingdoms, user) == Some(id)
      && w'.kingdoms == w.kingdoms[id := Kingdom(user, name, race, country)]
      && w'.resources[(id, "gold")] == 1000 && w'.resources[(id, "wood")] == 500
      && w'.resources[(id, "stone")] == 500 && w'.resources[(id, "food")] == 1000
      && w'.resources.Keys == w.resources.Keys + {(id, "gold"), (id, "wood"), (id, "stone"), (id, "food")}
      && (forall key :: key in w.resources && key.0 != id ==> w'.resources[key] == w.resources[key])
  {
    var (r, w') := CreateKingdom(w, user, name, race, country);
    var id := r.value.0;
    assert w'.kingdoms[id].owner == user;
    assert KingdomOf(w'.kingdoms, user).value == id;
  }

  /** A user who has founded a kingdom cannot found a second one. */
  lemma CreateKingdomOnce(w: World, user: UserId, name: string, race: int, country: int,
                          name2: string, race2: int, country2: int)
    requires WorldValid(w)
    requires CreateKingdom(w, user, name, race, country).0.Ok?
    ensures var w' := CreateKingdom(w, user, name, race, country).1;
      CreateKingdom(w', user, name2, race2, country2) == (Err(AlreadyHasKingdom), w')
  {
    var w' := CreateKingdom(w, user, name, race, country).1;
    assert w'.kingdoms[w.serial.kingdom].owner == user;
  }

  /** The resource update is accepted exactly when the user owns the kingdom;
      it then adds the signed amount to that one row (when the row exists)
      and replies with the new amount, leaving every other row alone. */
  lemma UpdateResourcesOutcome(w: World, user: UserId, k: KingdomId, t: ResourceType, amount: int)
    requires WorldValid(w)
    ensures var (r, w') := UpdateResources(w, user, k, t, amount);
      && (r.Ok? <==> Owns(w.kingdoms, user, k))
      && (r.Err? ==> r.error == NotAuthorized)
      && (r.Ok? ==>
            && w'.resources.Keys == w.resources.Keys
            && ((k, t) in w.resources ==>
                  r.value == Some(w.resources[(k, t)] + amount) && w'.resources[(k, t)] == w.resources[(k, t)] + amount)
            && ((k, t) !in w.resources ==> r.value == None && w' == w)
            && (forall key :: key in w.resources && key != (k, t) ==> w'.resources[key] == w.resources[key]))
  {
  }

  /** Nothing bounds the update from below: an owner can drive a row negative. */
  lemma UpdateResourcesCanOverdraw(w: World, user: UserId, k: KingdomId, t: ResourceType)
    requires WorldValid(w)
    requires Owns(w.kingdoms, user, k) && (k, t) in w.resources
    ensures var (r, w') := UpdateResources(w, user, k, t, -w.resources[(k, t)] - 1);
      r == Ok(Some(-1)) && w'.resources[(k, t)] == -1
  {
  }

  /** Every building cost lists gold, wood and stone once each. */
  lemma BuildCostDistinct(t: BuildingType, level: int)
    ensures DistinctTypes(BuildCost(t))
    ensures DistinctTypes(UpgradeCost(t, level))
  {
  }

  /** Upgrading a building at level n costs its construction cost times n. */
  lemma UpgradeCostIsScaledBuildCost(t: BuildingType, level: int)
    ensures UpgradeCost(t, level) == Scaled(BuildCost(t), level)
  {
  }

  /** A building order is accepted exactly when the user owns the kingdom,
      the type is one of the five, and every resource row of the kingdom
      covers its share of the construction cost; the new building takes a
      fresh id at the default level, and the cost is deducted. */
  lemma AddBuildingOutcome(w: World, user: UserId, k: KingdomId, name: string, x: int, y: int, defaultLevel: int)
    requires WorldValid(w)
    ensures var (r, w') := AddBuilding(w, user, k, name, x, y, defaultLevel);
      var t := ParseBuildingType(name);
      && (r.Ok? <==> Owns(w.kingdoms, user, k) && t.Some? && Affordable(w.resources, k, BuildCost(t.value)))
      && (!Owns(w.kingdoms, user, k) ==> r == Err(NotAuthorized))
      && (Owns(w.kingdoms, user, k) && t.None? ==> r == Err(InvalidBuildingType))
      && (r.Ok? ==>
            && r.value.0 !in w.buildings
            && r.value.1 == Building(k, t.value, defaultLevel, x, y)
            && w'.buildings == w.buildings[r.value.0 := r.value.1]
            && w'.resources == Deducted(w.resources, k, BuildCost(t.value)))
  {
  }

  /** A building upgrade is accepted exactly when the user owns the kingdom,
      the building belongs to it, and every resource row of the kingdom covers
      its share of the cost at the building's level; it then raises that one
      building's level by exactly one and deducts the cost. */
  lemma UpgradeBuildingOutcome(w: World, user: UserId, k: KingdomId, id: BuildingId)
    requires WorldValid(w)
    ensures var (r, w') := UpgradeBuilding(w, user, k, id);
      && (r.Ok? <==>
            && Owns(w.kingdoms, user, k) && id in w.buildings && w.buildings[id].kingdom == k
            && Affordable(w.resources, k, UpgradeCost(w.buildings[id].kind, w.buildings[id].level)))
      && (Owns(w.kingdoms, user, k) && (id !in w.buildings || w.buildings[id].kingdom != k) ==>
            r == Err(BuildingNotFound))
      && (r.Ok? ==>
            var b := w.buildings[id];
            && r.value == b.(level := b.level + 1)
            && w'.buildings == w.buildings[id := r.value]
            && w'.resources == Deducted(w.resources, k, UpgradeCost(b.kind, b.level)))
  {
  }

  /** A purchase of a building or an upgrade leaves none of the kingdom's
      resource rows negative and no other kingdom's rows changed. */
  lemma BuildingPurchaseKeepsRowsCovered(b: Balances, k: KingdomId, t: BuildingType, level: int, upgrade: bool)
    requires Affordable(b, k, if upgrade then UpgradeCost(t, level) else BuildCost(t))
    ensures var b' := Deducted(b, k, if upgrade then UpgradeCost(t, level) else BuildCost(t));
      && (forall key :: key in b && key.0 == k ==> b'[key] >= 0)
      && (forall key :: key in b && key.0 != k ==> b'[key] == b[key])
  {
    BuildCostDistinct(t, level);
    PurchaseKeepsRowsCovered(b, k, if upgrade then UpgradeCost(t, level) else BuildCost(t));
  }
}
