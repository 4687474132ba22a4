/** The `/attack` route: the declared-units check, the resolver, the loss
    updates on both sides, `stealResources` and the `attacks` record. */
module Battle {
  import opened Ledger
  import opened Store
  import opened Combat

  /** One element of the request's `units` array: a type name and a quantity. */
  datatype Declared = Declared(name: string, quantity: int)

  /** `existingUnit && existingUnit.quantity >= unit.quantity`: kingdom k has a
      row of the declared type holding at least the declared quantity. */
  predicate Holds(units: map<(KingdomId, UnitType), UnitRow>, k: KingdomId, u: Declared) {
    match ParseUnitType(u.name)
    case None => false
    case Some(t) => (k, t) in units && units[(k, t)].quantity >= u.quantity
  }

  /** `units.every(...)`: the attacker holds every declared unit. */
  predicate HasUnits(units: map<(KingdomId, UnitType), UnitRow>, k: KingdomId, declared: seq<Declared>) {
    forall i :: 0 <= i < |declared| ==> Holds(units, k, declared[i])
  }

  /** The declared units as forces, once every name is known to be a unit type. */
  function Typed(declared: seq<Declared>): (r: seq<Force>)
    requires forall i :: 0 <= i < |declared| ==> ParseUnitType(declared[i].name).Some?
    ensures |r| == |declared|
    ensures forall i :: 0 <= i < |declared| ==>
      UnitName(r[i].kind) == declared[i].name && r[i].quantity == declared[i].quantity
  {
    seq(|declared|, i requires 0 <= i < |declared| =>
      Force(ParseUnitType(declared[i].name).value, declared[i].quantity))
  }

  /** The rows of kingdom k whose types are listed in `types`, in that order. */
  function RowsOf(units: map<(KingdomId, UnitType), UnitRow>, k: KingdomId, types: seq<UnitType>): (r: seq<Force>)
    ensures forall i :: 0 <= i < |r| ==> (k, r[i].kind) in units && r[i].quantity == units[(k, r[i].kind)].quantity
    ensures forall i :: 0 <= i < |r| ==> r[i].kind in types
    decreases |types|
  {
    if types == [] then []
    else
      var rest := RowsOf(units, k, types[1..]);
      assert forall i :: 0 <= i < |rest| ==> rest[i].kind in types;
      if (k, types[0]) in units then [Force(types[0], units[(k, types[0])].quantity)] + rest else rest
  }

  /** Every row of a listed type is picked up. */
  lemma {:induction false} RowsOfCovers(units: map<(KingdomId, UnitType), UnitRow>, k: KingdomId,
                                        types: seq<UnitType>, t: UnitType)
    requires t in types && (k, t) in units
    ensures exists i :: 0 <= i < |RowsOf(units, k, types)| && RowsOf(units, k, types)[i].kind == t
    decreases |types|
  {
    var r := RowsOf(units, k, types);
    if t == types[0] {
      assert r[0].kind == t;
    } else {
      assert t in types[1..];
      RowsOfCovers(units, k, types[1..], t);
      var rest := RowsOf(units, k, types[1..]);
      var i :| 0 <= i < |rest| && rest[i].kind == t;
      if (k, types[0]) in units { assert r[i + 1].kind == t; } else { assert r[i].kind == t; }
    }
  }

  /** With distinct listed types, no type is picked up twice. */
  lemma {:induction false} RowsOfDistinct(units: map<(KingdomId, UnitType), UnitRow>, k: KingdomId,
                                          types: seq<UnitType>)
    requires forall i, j :: 0 <= i < j < |types| ==> types[i] != types[j]
    ensures DistinctKinds(RowsOf(units, k, types))
    decreases |types|
  {
    if types != [] {
      RowsOfDistinct(units, k, types[1..]);
      var rest := RowsOf(units, k, types[1..]);
      assert forall i :: 0 <= i < |rest| ==> rest[i].kind != types[0] by {
        forall i | 0 <= i < |rest| ensures rest[i].kind != types[0] {
          assert rest[i].kind in types[1..];
        }
      }
    }
  }

  /** `SELECT * FROM units WHERE kingdom_id = $1`: rows of the kingdom, each type once. */
  function DefenderRows(units: map<(KingdomId, UnitType), UnitRow>, k: KingdomId): (r: seq<Force>)
    ensures DistinctKinds(r)
    ensures forall i :: 0 <= i < |r| ==> (k, r[i].kind) in units && r[i].quantity == units[(k, r[i].kind)].quantity
  {
    AllUnitTypesListed();
    RowsOfDistinct(units, k, AllUnitTypes);
    RowsOf(units, k, AllUnitTypes)
  }

  /** Every row of the kingdom is among them. */
  lemma DefenderRowsCover(units: map<(KingdomId, UnitType), UnitRow>, k: KingdomId, t: UnitType)
    requires (k, t) in units
    ensures exists i :: 0 <= i < |DefenderRows(units, k)| && DefenderRows(units, k)[i].kind == t
  {
    AllUnitTypesListed();
    RowsOfCovers(units, k, AllUnitTypes, t);
    var r := RowsOf(units, k, AllUnitTypes);
    var i :| 0 <= i < |r| && r[i].kind == t;
    assert DefenderRows(units, k) == r;
  }

  /** `losses[type] || 0`. */
  function LossOf(losses: map<UnitType, int>, t: UnitType): int {
    if t in losses then losses[t] else 0
  }

  /** `UPDATE units SET quantity = quantity - n WHERE kingdom_id = k AND unit_type = t`. */
  function Deplete(units: map<(KingdomId, UnitType), UnitRow>, k: KingdomId, t: UnitType, n: int)
    : (r: map<(KingdomId, UnitType), UnitRow>)
    ensures r.Keys == units.Keys
  {
    if (k, t) in units then units[(k, t) := units[(k, t)].(quantity := units[(k, t)].quantity - n)] else units
  }

  /** One loss update per force, in order. */
  function ApplyLosses(units: map<(KingdomId, UnitType), UnitRow>, k: KingdomId, f: seq<Force>,
                       losses: map<UnitType, int>): (r: map<(KingdomId, UnitType), UnitRow>)
    ensures r.Keys == units.Keys
    decreases |f|
  {
    if f == [] then units
    else Deplete(ApplyLosses(units, k, f[..|f| - 1], losses), k, f[|f| - 1].kind, LossOf(losses, f[|f| - 1].kind))
  }

  function Kinds(f: seq<Force>): set<UnitType> {
    set i | 0 <= i < |f| :: f[i].kind
  }

  /** With distinct types, applying the losses lowers each listed row of k by
      exactly its loss, keeps its level and training state, and leaves every
      other row as it was. */
  lemma {:induction false} ApplyLossesAt(units: map<(KingdomId, UnitType), UnitRow>, k: KingdomId,
                                         f: seq<Force>, losses: map<UnitType, int>,
                                         key: (KingdomId, UnitType))
    requires DistinctKinds(f)
    requires key in units
    ensures ApplyLosses(units, k, f, losses)[key] ==
      if key.0 == k && key.1 in Kinds(f)
      then units[key].(quantity := units[key].quantity - LossOf(losses, key.1))
      else units[key]
    decreases |f|
  {
    if f != [] {
      var init := f[..|f| - 1];
      assert DistinctKinds(init);
      ApplyLossesAt(units, k, init, losses, key);
      assert Kinds(f) == Kinds(init) + {f[|f| - 1].kind} by {
        forall t | t in Kinds(f) ensures t in Kinds(init) + {f[|f| - 1].kind} {
          var i :| 0 <= i < |f| && f[i].kind == t;
          if i < |f| - 1 { assert init[i] == f[i]; }
        }
      }
      if key == (k, f[|f| - 1].kind) {
        assert key.1 !in Kinds(init);
      }
    }
  }

  /** The resource types for which kingdom k has a row. */
  function TypesOf(b: Balances, k: KingdomId): (r: set<ResourceType>)
    ensures forall t :: t in r <==> (k, t) in b
  {
    var r := set key | key in b && key.0 == k :: key.1;
    assert forall t :: (k, t) in b ==> t in r by {
      forall t | (k, t) in b ensures t in r {
        var key := (k, t);
        assert key in b && key.0 == k;
      }
    }
    r
  }

  /** `Math.floor(amount * 0.2)`, for an integer amount. */
  function StealAmount(amount: int): int {
    amount / 5
  }

  /** The `stolenResources` of a successful attack: for each of the
      defender's rows, a fifth of its amount (rounded down) when that is
      positive; zero steals are not recorded. */
  function Loot(b: Balances, d: KingdomId): (r: map<ResourceType, int>)
    ensures forall t :: t in r <==> (d, t) in b && b[(d, t)] >= 5
  {
    map t | t in TypesOf(b, d) && (d, t) in b && StealAmount(b[(d, t)]) > 0 :: StealAmount(b[(d, t)])
  }

  /** Each looted amount is a positive fifth of the defender's row, rounded down. */
  lemma LootIsAFifth(b: Balances, d: KingdomId, t: ResourceType)
    requires t in Loot(b, d)
    ensures 0 < Loot(b, d)[t] && 5 * Loot(b, d)[t] <= b[(d, t)] < 5 * Loot(b, d)[t] + 5
  {
  }

  /** What a kingdom's row gains from the loot: its share when k is that kingdom. */
  function Share(loot: map<ResourceType, int>, k: KingdomId, key: (KingdomId, ResourceType)): int {
    if key.0 == k && key.1 in loot then loot[key.1] else 0
  }

  /** Every row after the steal: each looted amount leaves the defender's row
      and is added to the attacker's row of that type, if there is one. */
  function Plundered(b: Balances, a: KingdomId, d: KingdomId, loot: map<ResourceType, int>): (r: Balances)
    ensures r.Keys == b.Keys
  {
    map key | key in b :: b[key] + Share(loot, a, key) - Share(loot, d, key)
  }

  /** Looting one more type is one debit of the defender and one credit of the attacker. */
  lemma PlunderStep(b: Balances, a: KingdomId, d: KingdomId, loot: map<ResourceType, int>, t: ResourceType, s: int)
    requires t !in loot
    ensures Plundered(b, a, d, loot[t := s]) == Adjust(Adjust(Plundered(b, a, d, loot), d, t, -s), a, t, s)
  {
    var before := Plundered(b, a, d, loot);
    var lhs := Plundered(b, a, d, loot[t := s]);
    var mid := Adjust(before, d, t, -s);
    var rhs := Adjust(mid, a, t, s);
    forall key | key in b ensures lhs[key] == rhs[key] {
      assert Share(loot[t := s], a, key) == Share(loot, a, key) + (if key == (a, t) then s else 0);
      assert Share(loot[t := s], d, key) == Share(loot, d, key) + (if key == (d, t) then s else 0);
      assert mid[key] == before[key] - (if key == (d, t) then s else 0);
    }
    assert lhs.Keys == rhs.Keys;
  }

  /** The steal moves exactly the loot: the defender loses it, the attacker
      gains it where it has a row (so the two rows keep their sum), it is
      lost where the attacker has no row, and no other row changes. */
  lemma PlunderMovesLoot(b: Balances, a: KingdomId, d: KingdomId, t: ResourceType)
    requires a != d
    ensures var loot := Loot(b, d);
      var s := if t in loot then loot[t] else 0;
      var r := Plundered(b, a, d, loot);
      && ((d, t) in b ==> r[(d, t)] == b[(d, t)] - s)
      && ((a, t) in b ==> r[(a, t)] == b[(a, t)] + s)
      && ((a, t) in b && (d, t) in b ==> r[(a, t)] + r[(d, t)] == b[(a, t)] + b[(d, t)])
      && (forall key :: key in b && key.0 != a && key.0 != d ==> r[key] == b[key])
  {
  }

  /** A defender row that is not negative stays not negative after the steal. */
  lemma PlunderLeavesDefenderCovered(b: Balances, a: KingdomId, d: KingdomId, t: ResourceType)
    requires (d, t) in b && b[(d, t)] >= 0
    ensures Plundered(b, a, d, Loot(b, d))[(d, t)] >= 0
  {
  }

  /** The handler's reply: the outcome, the stolen resources of a success,
      and both loss tables. */
  datatype AttackReport = AttackReport(success: bool, stolen: Option<map<ResourceType, int>>,
                                       attackerLosses: map<UnitType, int>,
                                       defenderLosses: map<UnitType, int>)

  /** A declared unit that passes the check has a known type. */
  lemma HeldUnitsAreTyped(units: map<(KingdomId, UnitType), UnitRow>, k: KingdomId, declared: seq<Declared>)
    requires HasUnits(units, k, declared)
    ensures forall i :: 0 <= i < |declared| ==> ParseUnitType(declared[i].name).Some?
  {
    forall i | 0 <= i < |declared| ensures ParseUnitType(declared[i].name).Some? {
      assert Holds(units, k, declared[i]);
    }
  }

  /** The unit rows after both loss updates: the declared forces against
      every row of kingdom d, resolved on the rows as they were before. */
  function Fought(units: map<(KingdomId, UnitType), UnitRow>, a: KingdomId, d: KingdomId, forces: seq<Force>)
    : (r: map<(KingdomId, UnitType), UnitRow>)
    ensures r.Keys == units.Keys
  {
    var defenders := DefenderRows(units, d);
    var b := Resolve(forces, defenders);
    ApplyLosses(ApplyLosses(units, a, forces, b.attackerLosses), d, defenders, b.defenderLosses)
  }

  /** The resources after the battle: a success moves the loot, a defeat moves nothing. */
  function Spoils(b: Balances, a: KingdomId, d: KingdomId, success: bool): Balances {
    if success then Plundered(b, a, d, Loot(b, d)) else b
  }

  /** The `attacks` row of a resolved battle; a failed attack stores no loot. */
  function Record(a: KingdomId, d: KingdomId, b: BattleResult, loot: map<ResourceType, int>): BattleRecord {
    if b.success then BattleRecord(a, d, Completed, Some(loot), b.attackerLosses, b.defenderLosses)
    else BattleRecord(a, d, Failed, None, b.attackerLosses, b.defenderLosses)
  }

  /** The reply of a resolved battle, carrying the loot the record stores. */
  function Report(b: BattleResult, record: BattleRecord): AttackReport {
    AttackReport(b.success, record.stolen, b.attackerLosses, b.defenderLosses)
  }

  /** The writes of a resolved battle: both loss updates, the steal of a
      success, and the appended `attacks` row. */
  function Aftermath(w: World, a: KingdomId, d: KingdomId, forces: seq<Force>): (r: (AttackReport, World))
    requires WorldValid(w)
    ensures WorldValid(r.1)
  {
    var b := Resolve(forces, DefenderRows(w.units, d));
    var record := Record(a, d, b, Loot(w.resources, d));
    var units, resources := Fought(w.units, a, d, forces), Spoils(w.resources, a, d, b.success);
    ValidUnderRowWrites(w, units, resources, w.attacks + [record]);
    (Report(b, record), w.(units := units, resources := resources, attacks := w.attacks + [record]))
  }

  /** The `/attack` route on the database as a value. */
  function Attack(w: World, user: UserId, target: KingdomId, declared: seq<Declared>)
    : (r: (Result<AttackReport>, World))
    requires WorldValid(w)
    ensures WorldValid(r.1)
    ensures r.0.Err? ==> r.1 == w
  {
    match KingdomOf(w.kingdoms, user)
    case None => (Err(AttackerNotFound), w)
    case Some(a) =>
      if target !in w.kingdoms then (Err(DefenderNotFound), w)
      else if !HasUnits(w.units, a, declared) then (Err(InvalidUnits), w)
      else
        HeldUnitsAreTyped(w.units, a, declared);
        var forces := Typed(declared);
        var defenders := DefenderRows(w.units, target);
        var b := Resolve(forces, defenders);
        if b.attackPower + b.defensePower == 0 && b.attackPower != 0 then (Err(ServerError), w)
        else
          var (report, w') := Aftermath(w, a, target, forces);
          (Ok(report), w')
  }

  /** One loss update per force, in order (the two `for` loops of the route). */
  method DepleteAll(db: Db, k: KingdomId, forces: seq<Force>, losses: map<UnitType, int>)
    modifies db`units
    ensures db.units == ApplyLosses(old(db.units), k, forces, losses)
  {
    for i := 0 to |forces|
      invariant db.units == ApplyLosses(old(db.units), k, forces[..i], losses)
    {
      assert forces[..i + 1][..i] == forces[..i];
      var t := forces[i].kind;
      db.units := Deplete(db.units, k, t, LossOf(losses, t));
    }
    assert forces[..|forces|] == forces;
  }

  /** `stealResources`: reads the defender's rows once, then moves each
      positive fifth from the defender to the attacker. */
  method StealResources(db: Db, attacker: KingdomId, defender: KingdomId, success: bool)
    returns (stolen: map<ResourceType, int>)
    modifies db`resources
    ensures !success ==> stolen == map[] && db.resources == old(db.resources)
    ensures success ==> stolen == Loot(old(db.resources), defender)
    ensures db.resources == Plundered(old(db.resources), attacker, defender, stolen)
  {
    stolen := map[];
    if !success {
      assert Plundered(db.resources, attacker, defender, stolen) == db.resources;
      return;
    }
    var rows := db.resources;
    var loot := Loot(rows, defender);
    var pending := TypesOf(rows, defender);
    assert Plundered(rows, attacker, defender, stolen) == rows;
    while pending != {}
      invariant pending <= TypesOf(rows, defender)
      invariant forall t :: t in stolen <==> t in loot && t !in pending
      invariant forall t :: t in stolen ==> stolen[t] == loot[t]
      invariant db.resources == Plundered(rows, attacker, defender, stolen)
      decreases pending
    {
      var t :| t in pending;
      var steal := StealAmount(rows[(defender, t)]);
      if steal > 0 {
        assert t in loot && loot[t] == steal;
        PlunderStep(rows, attacker, defender, stolen, t, steal);
        db.resources := Adjust(db.resources, defender, t, -steal);
        db.resources := Adjust(db.resources, attacker, t, steal);
        stolen := stolen[t := steal];
      } else {
        assert t !in loot;
      }
      pending := pending - {t};
    }
  }

  /** Both loss loops of the route: the declared units, then the defender's rows. */
  method UpdateUnits(db: Db, a: KingdomId, d: KingdomId, forces: seq<Force>, defenders: seq<Force>,
                     b: BattleResult)
    requires defenders == DefenderRows(db.units, d) && b == Resolve(forces, defenders)
    modifies db`units
    ensures db.units == Fought(old(db.units), a, d, forces)
  {
    DepleteAll(db, a, forces, b.attackerLosses);
    DepleteAll(db, d, defenders, b.defenderLosses);
  }

  /** The writes after the resolver, in the order the route issues them. */
  method Conclude(db: Db, a: KingdomId, d: KingdomId, forces: seq<Force>, defenders: seq<Force>,
                  b: BattleResult) returns (report: AttackReport)
    requires defenders == DefenderRows(db.units, d) && b == Resolve(forces, defenders)
    modifies db`units, db`resources, db`attacks
    ensures db.units == Fought(old(db.units), a, d, forces)
    ensures db.resources == Spoils(old(db.resources), a, d, b.success)
    ensures db.attacks == old(db.attacks) + [Record(a, d, b, Loot(old(db.resources), d))]
    ensures report == Report(b, Record(a, d, b, Loot(old(db.resources), d)))
  {
    UpdateUnits(db, a, d, forces, defenders, b);
    var record;
    if b.success {
      var stolen := StealResources(db, a, d, b.success);
      record := BattleRecord(a, d, Completed, Some(stolen), b.attackerLosses, b.defenderLosses);
    } else {
      record := BattleRecord(a, d, Failed, None, b.attackerLosses, b.defenderLosses);
    }
    db.attacks := db.attacks + [record];
    report := AttackReport(b.success, record.stolen, b.attackerLosses, b.defenderLosses);
  }

  /** The `/attack` route as the source runs it, query by query. */
  method HandleAttack(db: Db, user: UserId, target: KingdomId, declared: seq<Declared>)
    returns (r: Result<AttackReport>)
    requires db.Valid()
    modifies db
    ensures db.Valid()
    ensures (r, db.Snapshot()) == Attack(old(db.Snapshot()), user, target, declared)
  {
    var attacker := KingdomOf(db.kingdoms, user);
    if attacker.None? {
      return Err(AttackerNotFound);
    }
    if target !in db.kingdoms {
      return Err(DefenderNotFound);
    }
    if !HasUnits(db.units, attacker.value, declared) {
      return Err(InvalidUnits);
    }
    r := Engage(db, user, attacker.value, target, declared);
  }

  /** The route once its checks have passed: the resolver, then the writes. */
  method Engage(db: Db, user: UserId, a: KingdomId, target: KingdomId, declared: seq<Declared>)
    returns (r: Result<AttackReport>)
    requires db.Valid()
    requires KingdomOf(db.kingdoms, user) == Some(a) && target in db.kingdoms && HasUnits(db.units, a, declared)
    modifies db
    ensures db.Valid()
    ensures (r, db.Snapshot()) == Attack(old(db.Snapshot()), user, target, declared)
  {
    HeldUnitsAreTyped(db.units, a, declared);
    var forces := Typed(declared);
    var defenders := DefenderRows(db.units, target);
    var battle := CalculateBattle(forces, defenders);
    if battle.attackPower + battle.defensePower == 0 && battle.attackPower != 0 {
      // An infinite loss reaches the first UPDATE with a non-zero quantity; an integer
      // `quantity` column rejects it and the query throws.
      return Err(ServerError);
    }
    var report := Settle(db, user, a, target, declared, defenders, battle);
    r := Ok(report);
  }

  /** The writes of a battle that the resolver did not break off. */
  method Settle(db: Db, user: UserId, a: KingdomId, target: KingdomId, declared: seq<Declared>,
                defenders: seq<Force>, b: BattleResult) returns (report: AttackReport)
    requires db.Valid()
    requires KingdomOf(db.kingdoms, user) == Some(a) && target in db.kingdoms && HasUnits(db.units, a, declared)
    requires defenders == DefenderRows(db.units, target) && b == Resolve(Typed(declared), defenders)
    requires !(b.attackPower + b.defensePower == 0 && b.attackPower != 0)
    modifies db`units, db`resources, db`attacks
    ensures db.Valid()
    ensures (Ok(report), db.Snapshot()) == Attack(old(db.Snapshot()), user, target, declared)
  {
    ghost var w := db.Snapshot();
    report := Conclude(db, a, target, Typed(declared), defenders, b);
    AttackWrites(w, user, a, target, declared);
    assert db.Snapshot() == w.(units := db.units, resources := db.resources, attacks := db.attacks);
    ValidUnderRowWrites(w, db.units, db.resources, db.attacks);
  }

  /** A call that passes every check makes the writes of its resolved battle. */
  lemma AttackWrites(w: World, user: UserId, a: KingdomId, target: KingdomId, declared: seq<Declared>)
    requires WorldValid(w)
    requires KingdomOf(w.kingdoms, user) == Some(a) && target in w.kingdoms && HasUnits(w.units, a, declared)
    requires var b := Resolve(Typed(declared), DefenderRows(w.units, target));
      !(b.attackPower + b.defensePower == 0 && b.attackPower != 0)
    ensures forall i :: 0 <= i < |declared| ==> ParseUnitType(declared[i].name).Some?
    ensures var b := Resolve(Typed(declared), DefenderRows(w.units, target));
      var record := Record(a, target, b, Loot(w.resources, target));
      Attack(w, user, target, declared) ==
        (Ok(Report(b, record)),
         w.(units := Fought(w.units, a, target, Typed(declared)),
            resources := Spoils(w.resources, a, target, b.success),
            attacks := w.attacks + [record]))
  {
    HeldUnitsAreTyped(w.units, a, declared);
  }

  /** No unit type name is declared twice. */
  predicate DistinctNames(declared: seq<Declared>) {
    forall i, j :: 0 <= i < j < |declared| ==> declared[i].name != declared[j].name
  }

  /** Some declared unit carries the name of type t. */
  predicate Declares(declared: seq<Declared>, t: UnitType) {
    exists i :: 0 <= i < |declared| && declared[i].name == UnitName(t)
  }

  /** The route refuses, in this order, a user without a kingdom, a target
      that is no kingdom, and a declaration the attacker's rows do not cover;
      a refusal changes nothing. */
  lemma AttackRefused(w: World, user: UserId, target: KingdomId, declared: seq<Declared>)
    requires WorldValid(w)
    ensures var (r, w') := Attack(w, user, target, declared);
      var a := KingdomOf(w.kingdoms, user);
      && (a.None? ==> r == Err(AttackerNotFound))
      && (a.Some? && target !in w.kingdoms ==> r == Err(DefenderNotFound))
      && (a.Some? && target in w.kingdoms && !HasUnits(w.units, a.value, declared) ==> r == Err(InvalidUnits))
      && (r.Err? ==> w' == w)
  {
  }

  /** The route answers with success exactly when the declared attack power
      strictly exceeds the defence power of all the defender's rows, and it
      appends one `attacks` row, completed with the loot on a success and
      failed without loot otherwise; only a success moves resources. */
  lemma AttackOutcome(w: World, user: UserId, target: KingdomId, declared: seq<Declared>)
    requires WorldValid(w)
    requires Attack(w, user, target, declared).0.Ok?
    ensures KingdomOf(w.kingdoms, user).Some? && target in w.kingdoms
    ensures HasUnits(w.units, KingdomOf(w.kingdoms, user).value, declared)
    ensures var (r, w') := Attack(w, user, target, declared);
      var a := KingdomOf(w.kingdoms, user).value;
      && (forall i :: 0 <= i < |declared| ==> ParseUnitType(declared[i].name).Some?)
      && (r.value.success <==> AttackPower(Typed(declared)) > DefensePower(DefenderRows(w.units, target)))
      && |w'.attacks| == |w.attacks| + 1 && w'.attacks[..|w.attacks|] == w.attacks
      && w'.attacks[|w.attacks|].attacker == a && w'.attacks[|w.attacks|].defender == target
      && (r.value.success ==>
            && r.value.stolen == Some(Loot(w.resources, target))
            && w'.resources == Plundered(w.resources, a, target, Loot(w.resources, target))
            && w'.attacks[|w.attacks|].status == Completed
            && w'.attacks[|w.attacks|].stolen == r.value.stolen)
      && (!r.value.success ==>
            && r.value.stolen == None
            && w'.resources == w.resources
            && w'.attacks[|w.attacks|].status == Failed
            && w'.attacks[|w.attacks|].stolen == None)
      && w'.kingdoms == w.kingdoms && w'.buildings == w.buildings && w'.offers == w.offers
      && w'.members == w.members && w'.tasks == w.tasks && w'.completions == w.completions
  {
    var a := KingdomOf(w.kingdoms, user).value;
    HeldUnitsAreTyped(w.units, a, declared);
  }

  /** Two loss shares of one row, the attacker's taken from a declared
      quantity no larger than the row and the defender's from the whole row,
      together never exceed the row. */
  lemma TwoLossesBounded(x: int, y: int, attack: int, defense: int)
    requires 0 <= x <= y && attack >= 0 && defense >= 0
    ensures 0 <= Loss(x, defense, attack + defense) && 0 <= Loss(y, attack, attack + defense)
    ensures Loss(x, defense, attack + defense) + Loss(y, attack, attack + defense) <= y
  {
    var t := attack + defense;
    if t > 0 {
      LossBounded(x, defense, t);
      LossBounded(y, attack, t);
      var p, q := (x * defense) / t, (y * attack) / t;
      DivFloor(x * defense, t);
      DivFloor(y * attack, t);
      MulLeMono(x, y, defense);
      assert (p + q) * t == p * t + q * t;
      assert y * t == y * defense + y * attack;
      CancelFactor(p + q, y, t);
    }
  }

  /** Two rounds of loss updates on distinct types, as one change per row. */
  lemma TwoRoundsAt(units: map<(KingdomId, UnitType), UnitRow>, a: KingdomId, f1: seq<Force>,
                    l1: map<UnitType, int>, d: KingdomId, f2: seq<Force>, l2: map<UnitType, int>,
                    key: (KingdomId, UnitType))
    requires DistinctKinds(f1) && DistinctKinds(f2)
    requires key in units
    ensures ApplyLosses(ApplyLosses(units, a, f1, l1), d, f2, l2)[key] ==
      units[key].(quantity := units[key].quantity
        - (if key.0 == a && key.1 in Kinds(f1) then LossOf(l1, key.1) else 0)
        - (if key.0 == d && key.1 in Kinds(f2) then LossOf(l2, key.1) else 0))
  {
    var mid := ApplyLosses(units, a, f1, l1);
    ApplyLossesAt(units, a, f1, l1, key);
    ApplyLossesAt(mid, d, f2, l2, key);
  }

  /** With distinct types, the rows after the loss updates: every row keeps
      its level and training state, an attacker row of a declared type loses
      that type's share, a defender row loses its type's share (a row of a
      kingdom attacking itself loses both), and every other row is unchanged. */
  lemma FoughtAt(units: map<(KingdomId, UnitType), UnitRow>, a: KingdomId, d: KingdomId,
                 forces: seq<Force>, key: (KingdomId, UnitType))
    requires DistinctKinds(forces)
    requires key in units
    ensures var b := Resolve(forces, DefenderRows(units, d));
      Fought(units, a, d, forces)[key] == units[key].(quantity := units[key].quantity
           - (if key.0 == a && key.1 in Kinds(forces) then LossOf(b.attackerLosses, key.1) else 0)
           - (if key.0 == d then LossOf(b.defenderLosses, key.1) else 0))
  {
    var defenders := DefenderRows(units, d);
    var b := Resolve(forces, defenders);
    if key.0 == d {
      DefenderRowsCover(units, d, key.1);
      var j :| 0 <= j < |defenders| && defenders[j].kind == key.1;
      assert key.1 in Kinds(defenders);
    }
    assert Fought(units, a, d, forces)
      == ApplyLosses(ApplyLosses(units, a, forces, b.attackerLosses), d, defenders, b.defenderLosses);
    TwoRoundsAt(units, a, forces, b.attackerLosses, d, defenders, b.defenderLosses, key);
  }

  /** An attacker row of a declared type loses a share of a declared
      quantity that the row covers. */
  lemma AttackerShare(units: map<(KingdomId, UnitType), UnitRow>, a: KingdomId, d: KingdomId,
                      forces: seq<Force>, key: (KingdomId, UnitType)) returns (x: int)
    requires DistinctKinds(forces) && NonNegative(forces)
    requires forall i :: 0 <= i < |forces| ==>
      (a, forces[i].kind) in units && forces[i].quantity <= units[(a, forces[i].kind)].quantity
    requires key in units && key.0 == a && key.1 in Kinds(forces)
    ensures var b := Resolve(forces, DefenderRows(units, d));
      && 0 <= x <= units[key].quantity
      && LossOf(b.attackerLosses, key.1) == Loss(x, b.defensePower, b.attackPower + b.defensePower)
  {
    var i :| 0 <= i < |forces| && forces[i].kind == key.1;
    AttackerLossAt(forces, DefenderRows(units, d), i);
    assert (a, forces[i].kind) == key;
    x := forces[i].quantity;
  }

  /** A defender row loses a share of its whole quantity. */
  lemma DefenderShare(units: map<(KingdomId, UnitType), UnitRow>, d: KingdomId, forces: seq<Force>,
                      key: (KingdomId, UnitType))
    requires key in units && key.0 == d
    ensures var b := Resolve(forces, DefenderRows(units, d));
      LossOf(b.defenderLosses, key.1) == Loss(units[key].quantity, b.attackPower, b.attackPower + b.defensePower)
  {
    var defenders := DefenderRows(units, d);
    DefenderRowsCover(units, d, key.1);
    var j :| 0 <= j < |defenders| && defenders[j].kind == key.1;
    DefenderLossAt(forces, defenders, j);
    assert (d, defenders[j].kind) == key;
  }

  /** When every row is non-negative and the declared forces are non-negative,
      of distinct types and held by the attacker, no row goes negative, not
      even when a kingdom attacks itself. */
  lemma FoughtNonNegative(units: map<(KingdomId, UnitType), UnitRow>, a: KingdomId, d: KingdomId,
                          forces: seq<Force>, key: (KingdomId, UnitType))
    requires forall key :: key in units ==> units[key].quantity >= 0
    requires NonNegative(forces) && DistinctKinds(forces)
    requires forall i :: 0 <= i < |forces| ==>
      (a, forces[i].kind) in units && forces[i].quantity <= units[(a, forces[i].kind)].quantity
    requires key in units
    ensures Fought(units, a, d, forces)[key].quantity >= 0
  {
    FoughtAt(units, a, d, forces, key);
    RowLossesBounded(units, a, d, forces, key);
  }

  /** The two losses a row can suffer in one attack together stay within the row. */
  lemma RowLossesBounded(units: map<(KingdomId, UnitType), UnitRow>, a: KingdomId, d: KingdomId,
                         forces: seq<Force>, key: (KingdomId, UnitType))
    requires forall key :: key in units ==> units[key].quantity >= 0
    requires NonNegative(forces) && DistinctKinds(forces)
    requires forall i :: 0 <= i < |forces| ==>
      (a, forces[i].kind) in units && forces[i].quantity <= units[(a, forces[i].kind)].quantity
    requires key in units
    ensures var b := Resolve(forces, DefenderRows(units, d));
      units[key].quantity
        - (if key.0 == a && key.1 in Kinds(forces) then LossOf(b.attackerLosses, key.1) else 0)
        - (if key.0 == d then LossOf(b.defenderLosses, key.1) else 0) >= 0
  {
    var defenders := DefenderRows(units, d);
    var b := Resolve(forces, defenders);
    PowersNonNegative(forces);
    PowersNonNegative(defenders);
    var hasA, hasD := key.0 == a && key.1 in Kinds(forces), key.0 == d;
    var x := 0;
    if hasA {
      x := AttackerShare(units, a, d, forces, key);
    }
    if hasD {
      DefenderShare(units, d, forces, key);
    }
    RowStaysNonNegative(units[key].quantity, x, LossOf(b.attackerLosses, key.1), LossOf(b.defenderLosses, key.1),
                        b.attackPower, b.defensePower, hasA, hasD);
  }

  lemma RowStaysNonNegative(y: int, x: int, la: int, ld: int, attack: int, defense: int, hasA: bool, hasD: bool)
    requires 0 <= x <= y && attack >= 0 && defense >= 0
    requires hasA ==> la == Loss(x, defense, attack + defense)
    requires hasD ==> ld == Loss(y, attack, attack + defense)
    ensures y - (if hasA then la else 0) - (if hasD then ld else 0) >= 0
  {
    TwoLossesBounded(x, y, attack, defense);
  }

  /** The declared names, typed, are the declared types. */
  lemma TypedKinds(declared: seq<Declared>, t: UnitType)
    requires forall i :: 0 <= i < |declared| ==> ParseUnitType(declared[i].name).Some?
    ensures t in Kinds(Typed(declared)) <==> Declares(declared, t)
  {
    var forces := Typed(declared);
    if t in Kinds(forces) {
      var i :| 0 <= i < |forces| && forces[i].kind == t;
      assert declared[i].name == UnitName(t);
    }
    if Declares(declared, t) {
      var i :| 0 <= i < |declared| && declared[i].name == UnitName(t);
      assert ParseUnitType(declared[i].name) == Some(forces[i].kind);
    }
  }

  lemma TypedDistinct(declared: seq<Declared>)
    requires forall i :: 0 <= i < |declared| ==> ParseUnitType(declared[i].name).Some?
    requires DistinctNames(declared)
    ensures DistinctKinds(Typed(declared))
  {
  }

  /** A repeated declaration is checked entry by entry, but counted once per
      entry: 10 spearmen declared twice pass the check against a row of 10,
      attack with power 200, and the row is depleted once per entry. */
  lemma RepeatedDeclarationCountsTwice(units: map<(KingdomId, UnitType), UnitRow>, k: KingdomId,
                                       losses: map<UnitType, int>)
    requires (k, Spearman) in units && units[(k, Spearman)].quantity == 10
    ensures var declared := [Declared("spearman", 10), Declared("spearman", 10)];
      && HasUnits(units, k, declared)
      && AttackPower(Typed(declared)) == 200
      && ApplyLosses(units, k, Typed(declared), losses)[(k, Spearman)].quantity == 10 - 2 * LossOf(losses, Spearman)
  {
    var declared := [Declared("spearman", 10), Declared("spearman", 10)];
    var f := Typed(declared);
    assert f == [Force(Spearman, 10), Force(Spearman, 10)];
    assert f[..1][..0] == [] && f[..1] == [Force(Spearman, 10)];
    assert AttackPower(f[..1]) == 100;
    assert ApplyLosses(units, k, f[..1][..0], losses) == units;
    var once := ApplyLosses(units, k, f[..1], losses);
    assert once == Deplete(units, k, Spearman, LossOf(losses, Spearman));
    assert once[(k, Spearman)].quantity == 10 - LossOf(losses, Spearman);
  }

  /** With non-negative declared quantities and rows, both powers are
      non-negative, so the route never fails on an infinite loss. */
  lemma AttackNeverOverflows(w: World, user: UserId, target: KingdomId, declared: seq<Declared>)
    requires WorldValid(w)
    requires forall key :: key in w.units ==> w.units[key].quantity >= 0
    requires forall i :: 0 <= i < |declared| ==> declared[i].quantity >= 0
    ensures Attack(w, user, target, declared).0 != Err(ServerError)
  {
    var a := KingdomOf(w.kingdoms, user);
    if a.Some? && target in w.kingdoms && HasUnits(w.units, a.value, declared) {
      HeldUnitsAreTyped(w.units, a.value, declared);
      var forces := Typed(declared);
      assert NonNegative(forces);
      PowersNonNegative(forces);
      PowersNonNegative(DefenderRows(w.units, target));
    }
  }

  /** With non-negative rows and non-negative, distinct declared quantities,
      no unit row goes negative, not even when a kingdom attacks itself. */
  lemma AttackKeepsUnitsNonNegative(w: World, user: UserId, target: KingdomId, declared: seq<Declared>)
    requires WorldValid(w)
    requires forall key :: key in w.units ==> w.units[key].quantity >= 0
    requires forall i :: 0 <= i < |declared| ==> declared[i].quantity >= 0
    requires DistinctNames(declared)
    ensures forall key :: key in Attack(w, user, target, declared).1.units ==>
      Attack(w, user, target, declared).1.units[key].quantity >= 0
  {
    var a := KingdomOf(w.kingdoms, user);
    if a.Some? && target in w.kingdoms && HasUnits(w.units, a.value, declared) {
      HeldUnitsAreTyped(w.units, a.value, declared);
      var forces := Typed(declared);
      assert NonNegative(forces);
      PowersNonNegative(forces);
      PowersNonNegative(DefenderRows(w.units, target));
      AttackWrites(w, user, a.value, target, declared);
      var units := Attack(w, user, target, declared).1.units;
      assert units == Fought(w.units, a.value, target, forces);
      TypedDistinct(declared);
      forall i | 0 <= i < |forces|
        ensures (a.value, forces[i].kind) in w.units && forces[i].quantity <= w.units[(a.value, forces[i].kind)].quantity
      {
        assert Holds(w.units, a.value, declared[i]);
      }
      forall key | key in units ensures units[key].quantity >= 0 {
        FoughtNonNegative(w.units, a.value, target, forces, key);
      }
    }
  }
}
