/** The unit routes: training paid per unit behind a barracks, the bulk
    completion of finished training, and level upgrades paid per level. */
module Units {
  import opened Ledger
  import opened Store

  /** One entry of `unitSpecs`: gold and food per unit, and seconds of training per unit. */
  datatype UnitSpec = UnitSpec(gold: int, food: int, trainingTime: int)

  function Spec(t: UnitType): UnitSpec {
    match t
    case Spearman => UnitSpec(100, 50, 300)
    case Archer => UnitSpec(150, 75, 450)
    case Cavalry => UnitSpec(200, 100, 600)
    case ShieldBearer => UnitSpec(250, 125, 750)
  }

  /** `totalCost`: the spec's gold and food, each times the quantity. */
  function TrainingCost(t: UnitType, quantity: int): Cost {
    [("gold", Spec(t).gold * quantity), ("food", Spec(t).food * quantity)]
  }

  /** `upgradeCosts[unitType]` at the row's current level. */
  function UpgradeCost(t: UnitType, level: int): Cost {
    match t
    case Spearman => [("gold", 500 * level), ("food", 250 * level)]
    case Archer => [("gold", 750 * level), ("food", 375 * level)]
    case Cavalry => [("gold", 1000 * level), ("food", 500 * level)]
    case ShieldBearer => [("gold", 1250 * level), ("food", 625 * level)]
  }

  /** The kingdom has a `buildings` row of type barracks. */
  predicate HasBarracks(buildings: map<BuildingId, Building>, k: KingdomId) {
    exists id :: id in buildings && buildings[id].kingdom == k && buildings[id].kind == Barracks
  }

  /** The unit table after training: an existing row grows at once by the
      quantity and restarts its timer; otherwise a new row is inserted at the
      table's default level. */
  function Enlisted(units: map<(KingdomId, UnitType), UnitRow>, k: KingdomId, t: UnitType, quantity: int,
                    end: int, defaultLevel: int): map<(KingdomId, UnitType), UnitRow>
  {
    if (k, t) in units then
      units[(k, t) := units[(k, t)].(quantity := units[(k, t)].quantity + quantity, training := true,
                                     trainingEnd := Some(end))]
    else units[(k, t) := UnitRow(quantity, defaultLevel, true, Some(end))]
  }

  /** `POST /:kingdomId/train` on the database as a value, at time `now` in
      seconds; `defaultLevel` is the level the `units` table gives a new row. */
  function Train(w: World, user: UserId, k: KingdomId, name: string, quantity: int, now: int,
                 defaultLevel: int): (r: (Result<UnitRow>, World))
    requires WorldValid(w)
    ensures WorldValid(r.1)
    ensures r.0.Err? ==> r.1 == w
  {
    if !Owns(w.kingdoms, user, k) then (Err(NotAuthorized), w)
    else if !HasBarracks(w.buildings, k) then (Err(BarracksNotFound), w)
    else match ParseUnitType(name)
      case None => (Err(InvalidUnitType), w)
      case Some(t) =>
        var cost := TrainingCost(t, quantity);
        if !Affordable(w.resources, k, cost) then (Err(NotEnoughResources), w)
        else
          var units := Enlisted(w.units, k, t, quantity, now + Spec(t).trainingTime * quantity, defaultLevel);
          var resources := Deducted(w.resources, k, cost);
          ValidUnderRowWrites(w, units, resources, w.attacks);
          (Ok(units[(k, t)]), w.(resources := resources, units := units))
  }

  /** A row whose training has ended by `now`: `is_training = true AND
      training_end_time <= CURRENT_TIMESTAMP` (a null end time never matches). */
  predicate Due(u: UnitRow, now: int) {
    u.training && u.trainingEnd.Some? && u.trainingEnd.value <= now
  }

  /** The unit table after the completion UPDATE: every due row of kingdom k
      stops training and loses its end time. */
  function Finished(units: map<(KingdomId, UnitType), UnitRow>, k: KingdomId, now: int)
    : map<(KingdomId, UnitType), UnitRow>
  {
    map key | key in units :: if key.0 == k && Due(units[key], now) then units[key].(training := false, trainingEnd := None)
                              else units[key]
  }

  /** The rows the completion UPDATE returns, by unit type. */
  function FinishedRows(units: map<(KingdomId, UnitType), UnitRow>, k: KingdomId, now: int)
    : map<UnitType, UnitRow>
  {
    map t | (k, t) in units && Due(units[(k, t)], now) :: units[(k, t)].(training := false, trainingEnd := None)
  }

  /** `POST /:kingdomId/complete-training` on the database as a value. */
  function CompleteTraining(w: World, user: UserId, k: KingdomId, now: int)
    : (r: (Result<map<UnitType, UnitRow>>, World))
    requires WorldValid(w)
    ensures WorldValid(r.1)
    ensures r.0.Err? ==> r.1 == w
  {
    if !Owns(w.kingdoms, user, k) then (Err(NotAuthorized), w)
    else
      ValidUnderRowWrites(w, Finished(w.units, k, now), w.resources, w.attacks);
      (Ok(FinishedRows(w.units, k, now)), w.(units := Finished(w.units, k, now)))
  }

  /** `PUT /:kingdomId/:unitType/upgrade` on the database as a value. */
  function Upgrade(w: World, user: UserId, k: KingdomId, name: string): (r: (Result<UnitRow>, World))
    requires WorldValid(w)
    ensures WorldValid(r.1)
    ensures r.0.Err? ==> r.1 == w
  {
    if !Owns(w.kingdoms, user, k) then (Err(NotAuthorized), w)
    else match ParseUnitType(name)
      case None => (Err(UnitNotFound), w)
      case Some(t) =>
        if (k, t) !in w.units then (Err(UnitNotFound), w)
        else
          var row := w.units[(k, t)];
          var cost := UpgradeCost(t, row.level);
          if !Affordable(w.resources, k, cost) then (Err(NotEnoughResources), w)
          else
            var units := w.units[(k, t) := row.(level := row.level + 1)];
            var resources := Deducted(w.resources, k, cost);
            ValidUnderRowWrites(w, units, resources, w.attacks);
            (Ok(units[(k, t)]), w.(resources := resources, units := units))
  }

  /** The train route, query by query. */
  method HandleTrain(db: Db, user: UserId, k: KingdomId, name: string, quantity: int, now: int,
                     defaultLevel: int) returns (r: Result<UnitRow>)
    requires db.Valid()
    modifies db
    ensures db.Valid()
    ensures (r, db.Snapshot()) == Train(old(db.Snapshot()), user, k, name, quantity, now, defaultLevel)
  {
    if !Owns(db.kingdoms, user, k) {
      return Err(NotAuthorized);
    }
    if !HasBarracks(db.buildings, k) {
      return Err(BarracksNotFound);
    }
    var parsed := ParseUnitType(name);
    if parsed.None? {
      return Err(InvalidUnitType);
    }
    var t := parsed.value;
    var cost := TrainingCost(t, quantity);
    if !Affordable(db.resources, k, cost) {
      return Err(NotEnoughResources);
    }
    var row := Enlist(db, k, t, quantity, now + Spec(t).trainingTime * quantity, defaultLevel, cost);
    r := Ok(row);
  }

  /** The writes of an accepted training order: the deduction loop, then the
      update or insert of the unit row. */
  method Enlist(db: Db, k: KingdomId, t: UnitType, quantity: int, end: int, defaultLevel: int, cost: Cost)
    returns (row: UnitRow)
    requires db.Valid()
    modifies db`resources, db`units
    ensures db.Valid()
    ensures db.Snapshot() == old(db.Snapshot()).(resources := Deducted(old(db.resources), k, cost),
                                                 units := Enlisted(old(db.units), k, t, quantity, end, defaultLevel))
    ensures row == db.units[(k, t)]
  {
    ghost var w := db.Snapshot();
    var resources := Deduct(db.resources, k, cost);
    db.resources := resources;
    if (k, t) in db.units {
      var u := db.units[(k, t)];
      row := u.(quantity := u.quantity + quantity, training := true, trainingEnd := Some(end));
    } else {
      row := UnitRow(quantity, defaultLevel, true, Some(end));
    }
    db.units := db.units[(k, t) := row];
    assert db.Snapshot() == w.(resources := db.resources, units := db.units);
    ValidUnderRowWrites(w, db.units, db.resources, w.attacks);
  }

  /** The complete-training route: one bulk UPDATE. */
  method HandleCompleteTraining(db: Db, user: UserId, k: KingdomId, now: int)
    returns (r: Result<map<UnitType, UnitRow>>)
    requires db.Valid()
    modifies db
    ensures db.Valid()
    ensures (r, db.Snapshot()) == CompleteTraining(old(db.Snapshot()), user, k, now)
  {
    if !Owns(db.kingdoms, user, k) {
      return Err(NotAuthorized);
    }
    ghost var w := db.Snapshot();
    r := Ok(FinishedRows(db.units, k, now));
    db.units := Finished(db.units, k, now);
    assert db.Snapshot() == w.(units := db.units);
    ValidUnderRowWrites(w, db.units, w.resources, w.attacks);
  }

  /** The upgrade route, query by query. */
  method HandleUpgrade(db: Db, user: UserId, k: KingdomId, name: string) returns (r: Result<UnitRow>)
    requires db.Valid()
    modifies db
    ensures db.Valid()
    ensures (r, db.Snapshot()) == Upgrade(old(db.Snapshot()), user, k, name)
  {
    if !Owns(db.kingdoms, user, k) {
      return Err(NotAuthorized);
    }
    var parsed := ParseUnitType(name);
    if parsed.None? || (k, parsed.value) !in db.units {
      return Err(UnitNotFound);
    }
    var t := parsed.value;
    var cost := UpgradeCost(t, db.units[(k, t)].level);
    if !Affordable(db.resources, k, cost) {
      return Err(NotEnoughResources);
    }
    var row := Promote(db, k, t, cost);
    r := Ok(row);
  }

  /** The writes of an accepted upgrade: the deduction loop, then `level = level + 1`. */
  method Promote(db: Db, k: KingdomId, t: UnitType, cost: Cost) returns (row: UnitRow)
    requires db.Valid()
    requires (k, t) in db.units
    modifies db`resources, db`units
    ensures db.Valid()
    ensures row == old(db.units)[(k, t)].(level := old(db.units)[(k, t)].level + 1)
    ensures db.Snapshot() == old(db.Snapshot()).(resources := Deducted(old(db.resources), k, cost),
                                                 units := old(db.units)[(k, t) := row])
  {
    ghost var w := db.Snapshot();
    var resources := Deduct(db.resources, k, cost);
    db.resources := resources;
    var u := db.units[(k, t)];
    row := u.(level := u.level + 1);
    db.units := db.units[(k, t) := row];
    assert db.Snapshot() == w.(resources := db.resources, units := db.units);
    ValidUnderRowWrites(w, db.units, db.resources, w.attacks);
  }

  /** The training cost lists gold and food once each. */
  lemma TrainingCostDistinct(t: UnitType, quantity: int)
    ensures DistinctTypes(TrainingCost(t, quantity))
    ensures Required(TrainingCost(t, quantity), "gold") == Spec(t).gold * quantity
    ensures Required(TrainingCost(t, quantity), "food") == Spec(t).food * quantity
  {
    var c := TrainingCost(t, quantity);
    assert c[..1] == [c[0]];
    assert c[..1][..0] == [];
  }

  /** A training order is accepted exactly when the user owns the kingdom,
      the kingdom has a barracks, the name is a unit type, and every
      resource row the kingdom has covers that row's share of the cost;
      the checks answer in that order. */
  lemma TrainAccepted(w: World, user: UserId, k: KingdomId, name: string, quantity: int, now: int,
                      defaultLevel: int)
    requires WorldValid(w)
    ensures var r := Train(w, user, k, name, quantity, now, defaultLevel).0;
      && (r.Ok? <==>
            && Owns(w.kingdoms, user, k) && HasBarracks(w.buildings, k) && ParseUnitType(name).Some?
            && Affordable(w.resources, k, TrainingCost(ParseUnitType(name).value, quantity)))
      && (!Owns(w.kingdoms, user, k) ==> r == Err(NotAuthorized))
      && (Owns(w.kingdoms, user, k) && !HasBarracks(w.buildings, k) ==> r == Err(BarracksNotFound))
      && (Owns(w.kingdoms, user, k) && HasBarracks(w.buildings, k) && ParseUnitType(name).None? ==>
            r == Err(InvalidUnitType))
  {
  }

  /** Deducting a training cost from the balances: gold and food go down by
      spec times quantity, every other row stays, and the kingdom's rows stay
      non-negative when they could afford it. */
  lemma TrainingDeduction(b: Balances, k: KingdomId, t: UnitType, quantity: int)
    requires Affordable(b, k, TrainingCost(t, quantity))
    ensures var b' := Deducted(b, k, TrainingCost(t, quantity));
      && b'.Keys == b.Keys
      && ((k, "gold") in b ==> b'[(k, "gold")] == b[(k, "gold")] - Spec(t).gold * quantity)
      && ((k, "food") in b ==> b'[(k, "food")] == b[(k, "food")] - Spec(t).food * quantity)
      && (forall key :: key in b && key.0 == k && key.1 != "gold" && key.1 != "food" ==> b'[key] == b[key])
      && (forall key :: key in b && key.0 != k ==> b'[key] == b[key])
      && (forall key :: key in b && key.0 == k ==> b'[key] >= 0)
  {
    var cost := TrainingCost(t, quantity);
    TrainingCostDistinct(t, quantity);
    PurchaseKeepsRowsCovered(b, k, cost);
    forall key | key in b
      ensures Deducted(b, k, cost)[key] == b[key] - (if key.0 == k then Required(cost, key.1) else 0)
    {
      DeductedAt(b, k, cost, key);
    }
    forall key | key in b && key.0 == k && key.1 != "gold" && key.1 != "food"
      ensures Required(cost, key.1) == 0
    {
      RequiredUnlisted(cost, key.1);
    }
  }

  /** An accepted training order takes gold and food from the kingdom's
      rows, spec times quantity, leaves every other row alone, and leaves no
      row of the kingdom negative. */
  lemma TrainPays(w: World, user: UserId, k: KingdomId, t: UnitType, quantity: int, now: int, defaultLevel: int)
    requires WorldValid(w)
    requires Train(w, user, k, UnitName(t), quantity, now, defaultLevel).0.Ok?
    ensures Train(w, user, k, UnitName(t), quantity, now, defaultLevel).1.resources
         == Deducted(w.resources, k, TrainingCost(t, quantity))
    ensures Affordable(w.resources, k, TrainingCost(t, quantity))
  {
    assert ParseUnitType(UnitName(t)) == Some(t);
  }

  /** An accepted training order grows the row at once and sets its timer to
      `now` plus the per-unit training time times the quantity: an existing
      row keeps its level, a new row starts at the default level; no other
      row changes. */
  lemma TrainEnlists(w: World, user: UserId, k: KingdomId, t: UnitType, quantity: int, now: int, defaultLevel: int)
    requires WorldValid(w)
    requires Train(w, user, k, UnitName(t), quantity, now, defaultLevel).0.Ok?
    ensures var (r, w') := Train(w, user, k, UnitName(t), quantity, now, defaultLevel);
      var end := now + Spec(t).trainingTime * quantity;
      && r.value == w'.units[(k, t)]
      && w'.units.Keys == w.units.Keys + {(k, t)}
      && ((k, t) in w.units ==>
            w'.units[(k, t)] == UnitRow(w.units[(k, t)].quantity + quantity, w.units[(k, t)].level, true, Some(end)))
      && ((k, t) !in w.units ==> w'.units[(k, t)] == UnitRow(quantity, defaultLevel, true, Some(end)))
      && (forall key :: key in w.units && key != (k, t) ==> w'.units[key] == w.units[key])
  {
    assert ParseUnitType(UnitName(t)) == Some(t);
  }

  /** Completing training clears exactly the due rows of the kingdom: no
      quantity or level changes, and no row of another kingdom changes. */
  lemma CompletionClearsDueRows(units: map<(KingdomId, UnitType), UnitRow>, k: KingdomId, now: int)
    ensures var f := Finished(units, k, now);
      && f.Keys == units.Keys
      && (forall key :: key in units ==>
            && f[key].quantity == units[key].quantity && f[key].level == units[key].level
            && (key.0 == k && Due(units[key], now) ==> !f[key].training && f[key].trainingEnd.None?)
            && (key.0 != k || !Due(units[key], now) ==> f[key] == units[key]))
      && (forall key :: key in units && key.0 == k ==> !Due(f[key], now))
  {
  }

  /** The completion UPDATE finds nothing left to clear in its own result. */
  lemma FinishedTwice(units: map<(KingdomId, UnitType), UnitRow>, k: KingdomId, now: int)
    ensures Finished(Finished(units, k, now), k, now) == Finished(units, k, now)
    ensures FinishedRows(Finished(units, k, now), k, now) == map[]
  {
    var f := Finished(units, k, now);
    assert forall key | key in f && key.0 == k :: !Due(f[key], now);
  }

  /** Completing training twice is completing it once: the second call
      changes nothing and returns no rows. */
  lemma CompleteTrainingIdempotent(w: World, user: UserId, k: KingdomId, now: int)
    requires WorldValid(w)
    requires CompleteTraining(w, user, k, now).0.Ok?
    ensures var w1 := CompleteTraining(w, user, k, now).1;
      CompleteTraining(w1, user, k, now) == (Ok(map[]), w1)
  {
    FinishedTwice(w.units, k, now);
  }

  /** The upgrade cost is linear in the level: the level-1 cost, times the level. */
  lemma UpgradeCostLinear(t: UnitType, level: int)
    ensures UpgradeCost(t, level) == Scaled(UpgradeCost(t, 1), level)
  {
  }

  /** An upgrade is accepted exactly when the user owns the kingdom, the
      kingdom has a row of the named type, and every resource row of the
      kingdom covers its share of the cost at the row's level; it then raises
      the level by exactly one, keeps the quantity and training state, and
      pays the cost. */
  lemma UpgradeOutcome(w: World, user: UserId, k: KingdomId, name: string)
    requires WorldValid(w)
    ensures var (r, w') := Upgrade(w, user, k, name);
      var t := ParseUnitType(name);
      && (r.Ok? <==>
            && Owns(w.kingdoms, user, k) && t.Some? && (k, t.value) in w.units
            && Affordable(w.resources, k, UpgradeCost(t.value, w.units[(k, t.value)].level)))
      && (r.Ok? ==>
            var row := w.units[(k, t.value)];
            && r.value == row.(level := row.level + 1)
            && w'.units == w.units[(k, t.value) := r.value]
            && w'.resources == Deducted(w.resources, k, UpgradeCost(t.value, row.level)))
  {
  }
}
