/** `calculateBattle`: the deterministic combat resolver. Powers are sums over
    a fixed stat table, each side loses a share of every unit type in
    proportion to the opposing power, rounded down per type, and the attacker
    wins only with strictly greater power. */
module Combat {
  import opened Store

  /** A unit type with a quantity: one declared attacker unit or one defender row. */
  datatype Force = Force(kind: UnitType, quantity: int)

  /** The attack column of the stat table (speed is not used in resolution). */
  function AttackStat(t: UnitType): nat {
    match t
    case Spearman => 10
    case Archer => 15
    case Cavalry => 20
    case ShieldBearer => 5
  }

  /** The defense column of the stat table. */
  function DefenseStat(t: UnitType): nat {
    match t
    case Spearman => 5
    case Archer => 3
    case Cavalry => 8
    case ShieldBearer => 15
  }

  /** The sum of attack x quantity over the forces. */
  function AttackPower(f: seq<Force>): int
    decreases |f|
  {
    if f == [] then 0
    else AttackPower(f[..|f| - 1]) + AttackStat(f[|f| - 1].kind) * f[|f| - 1].quantity
  }

  /** The sum of defense x quantity over the forces. */
  function DefensePower(f: seq<Force>): int
    decreases |f|
  {
    if f == [] then 0
    else DefensePower(f[..|f| - 1]) + DefenseStat(f[|f| - 1].kind) * f[|f| - 1].quantity
  }

  predicate NonNegative(f: seq<Force>) {
    forall i :: 0 <= i < |f| ==> f[i].quantity >= 0
  }

  /** No unit type occurs twice. */
  predicate DistinctKinds(f: seq<Force>) {
    forall i, j :: 0 <= i < j < |f| ==> f[i].kind != f[j].kind
  }

  lemma {:induction false} PowersNonNegative(f: seq<Force>)
    requires NonNegative(f)
    ensures AttackPower(f) >= 0 && DefensePower(f) >= 0
    decreases |f|
  {
    if f != [] {
      PowersNonNegative(f[..|f| - 1]);
    }
  }

  /** `Math.floor(a / b)` on exact rationals. Dafny's `/` rounds toward
      negative infinity only for a positive divisor. */
  function FloorDiv(a: int, b: int): int
    requires b != 0
  {
    if b > 0 then a / b else (-a) / (-b)
  }

  /** The quotient is the floor of a / b for either sign of b. */
  lemma FloorDivIsFloor(a: int, b: int)
    requires b != 0
    ensures b > 0 ==> FloorDiv(a, b) * b <= a < FloorDiv(a, b) * b + b
    ensures b < 0 ==> FloorDiv(a, b) * b + b < a <= FloorDiv(a, b) * b
  {
  }

  lemma MulLeMono(a: int, b: int, c: int)
    requires a <= b && c >= 0
    ensures a * c <= b * c
  {
  }

  lemma DivFloor(n: int, t: int)
    requires t > 0
    ensures (n / t) * t <= n
  {
  }

  lemma CancelFactor(a: int, b: int, t: int)
    requires t > 0 && a * t <= b * t
    ensures a <= b
  {
    if a > b {
      MulLeMono(b + 1, a, t);
    }
  }

  /** `Math.floor(quantity * opposing / total)`. A zero total makes the
      source's ratio NaN (0/0) when both powers are zero, and the handler
      applies a NaN loss as `NaN || 0`, that is as 0. */
  function Loss(quantity: int, opposing: int, total: int): int {
    if total == 0 then 0 else FloorDiv(quantity * opposing, total)
  }

  /** With non-negative powers, a loss is between 0 and the quantity it is
      taken from (a zero total loses nothing). */
  lemma LossBounded(quantity: int, opposing: int, total: int)
    requires quantity >= 0 && 0 <= opposing <= total
    ensures 0 <= Loss(quantity, opposing, total) <= quantity
  {
    if total > 0 {
      assert 0 <= quantity * opposing <= quantity * total;
      assert 0 <= (quantity * opposing) / total <= quantity;
    }
  }

  /** The loss table: `losses[unit.type] = ...` for each force in order, so a
      later force of the same type overwrites an earlier one. */
  function Losses(f: seq<Force>, opposing: int, total: int): map<UnitType, int>
    decreases |f|
  {
    if f == [] then map[]
    else Losses(f[..|f| - 1], opposing, total)[f[|f| - 1].kind := Loss(f[|f| - 1].quantity, opposing, total)]
  }

  /** With distinct types, each force's entry is the loss computed from its own quantity. */
  lemma {:induction false} LossesAt(f: seq<Force>, opposing: int, total: int, i: int)
    requires DistinctKinds(f)
    requires 0 <= i < |f|
    ensures f[i].kind in Losses(f, opposing, total)
    ensures Losses(f, opposing, total)[f[i].kind] == Loss(f[i].quantity, opposing, total)
    decreases |f|
  {
    if i < |f| - 1 {
      LossesAt(f[..|f| - 1], opposing, total, i);
    }
  }

  /** What `calculateBattle` returns, with the two powers it computes on the way. */
  datatype BattleResult = BattleResult(attackPower: int, defensePower: int, success: bool,
                                       attackerLosses: map<UnitType, int>,
                                       defenderLosses: map<UnitType, int>)

  /** The resolution of declared attackers against the defender's rows. */
  function Resolve(attackers: seq<Force>, defenders: seq<Force>): BattleResult {
    var a := AttackPower(attackers);
    var d := DefensePower(defenders);
    BattleResult(a, d, a > d, Losses(attackers, d, a + d), Losses(defenders, a, a + d))
  }

  /** The first accumulation loop: `attackerPower += stats.attack * unit.quantity`. */
  method SumAttack(f: seq<Force>) returns (power: int)
    ensures power == AttackPower(f)
  {
    power := 0;
    for i := 0 to |f|
      invariant power == AttackPower(f[..i])
    {
      assert f[..i + 1][..i] == f[..i];
      power := power + AttackStat(f[i].kind) * f[i].quantity;
    }
    assert f[..|f|] == f;
  }

  /** The second accumulation loop: `defenderPower += stats.defense * unit.quantity`. */
  method SumDefense(f: seq<Force>) returns (power: int)
    ensures power == DefensePower(f)
  {
    power := 0;
    for i := 0 to |f|
      invariant power == DefensePower(f[..i])
    {
      assert f[..i + 1][..i] == f[..i];
      power := power + DefenseStat(f[i].kind) * f[i].quantity;
    }
    assert f[..|f|] == f;
  }

  /** A loss loop: one entry per force, written in order. */
  method LossTable(f: seq<Force>, opposing: int, total: int) returns (losses: map<UnitType, int>)
    ensures losses == Losses(f, opposing, total)
  {
    losses := map[];
    for i := 0 to |f|
      invariant losses == Losses(f[..i], opposing, total)
    {
      assert f[..i + 1][..i] == f[..i];
      losses := losses[f[i].kind := Loss(f[i].quantity, opposing, total)];
    }
    assert f[..|f|] == f;
  }

  /** The resolver as the source runs it: two accumulation loops, then two loss loops. */
  method CalculateBattle(attackers: seq<Force>, defenders: seq<Force>) returns (r: BattleResult)
    ensures r.attackPower == AttackPower(attackers) && r.defensePower == DefensePower(defenders)
    ensures r.success <==> r.attackPower > r.defensePower
    ensures r == Resolve(attackers, defenders)
  {
    var attackPower := SumAttack(attackers);
    var defensePower := SumDefense(defenders);
    var total := attackPower + defensePower;
    var attackerLosses := LossTable(attackers, defensePower, total);
    var defenderLosses := LossTable(defenders, attackPower, total);
    r := BattleResult(attackPower, defensePower, attackPower > defensePower, attackerLosses, defenderLosses);
  }

  /** The attacker's loss for one of its distinct types is that type's share
      of its declared quantity, in the ratio of defence power to total power. */
  lemma AttackerLossAt(attackers: seq<Force>, defenders: seq<Force>, i: int)
    requires DistinctKinds(attackers)
    requires 0 <= i < |attackers|
    ensures var b := Resolve(attackers, defenders);
      && attackers[i].kind in b.attackerLosses
      && b.attackerLosses[attackers[i].kind] == Loss(attackers[i].quantity, b.defensePower, b.attackPower + b.defensePower)
  {
    var b := Resolve(attackers, defenders);
    var d, t := b.defensePower, b.attackPower + b.defensePower;
    assert b.attackerLosses == Losses(attackers, d, t);
    LossesAt(attackers, d, t, i);
  }

  /** The defender's loss for one of its distinct types is that type's share
      of the row, in the ratio of attack power to total power. */
  lemma DefenderLossAt(attackers: seq<Force>, defenders: seq<Force>, j: int)
    requires DistinctKinds(defenders)
    requires 0 <= j < |defenders|
    ensures var b := Resolve(attackers, defenders);
      && defenders[j].kind in b.defenderLosses
      && b.defenderLosses[defenders[j].kind] == Loss(defenders[j].quantity, b.attackPower, b.attackPower + b.defensePower)
  {
    var b := Resolve(attackers, defenders);
    var a, t := b.attackPower, b.attackPower + b.defensePower;
    assert b.defenderLosses == Losses(defenders, a, t);
    LossesAt(defenders, a, t, j);
  }

  /** Success is strict: equal powers are a defender win. */
  lemma TieIsDefeat(attackers: seq<Force>, defenders: seq<Force>)
    requires AttackPower(attackers) == DefensePower(defenders)
    ensures !Resolve(attackers, defenders).success
  {
  }

  /** With non-negative forces, each declared type loses between 0 and its quantity. */
  lemma AttackerLossBounded(attackers: seq<Force>, defenders: seq<Force>, i: int)
    requires NonNegative(attackers) && NonNegative(defenders) && DistinctKinds(attackers)
    requires 0 <= i < |attackers|
    ensures var b := Resolve(attackers, defenders);
      attackers[i].kind in b.attackerLosses && 0 <= b.attackerLosses[attackers[i].kind] <= attackers[i].quantity
  {
    var b := Resolve(attackers, defenders);
    PowersNonNegative(attackers);
    PowersNonNegative(defenders);
    AttackerLossAt(attackers, defenders, i);
    LossBounded(attackers[i].quantity, b.defensePower, b.attackPower + b.defensePower);
  }

  /** With non-negative forces, each defending row loses between 0 and its quantity. */
  lemma DefenderLossBounded(attackers: seq<Force>, defenders: seq<Force>, j: int)
    requires NonNegative(attackers) && NonNegative(defenders) && DistinctKinds(defenders)
    requires 0 <= j < |defenders|
    ensures var b := Resolve(attackers, defenders);
      defenders[j].kind in b.defenderLosses && 0 <= b.defenderLosses[defenders[j].kind] <= defenders[j].quantity
  {
    var b := Resolve(attackers, defenders);
    PowersNonNegative(attackers);
    PowersNonNegative(defenders);
    DefenderLossAt(attackers, defenders, j);
    LossBounded(defenders[j].quantity, b.attackPower, b.attackPower + b.defensePower);
  }

  /** With non-negative forces of distinct types, every side loses between 0
      and what it committed, type by type. */
  lemma LossesWithinForces(attackers: seq<Force>, defenders: seq<Force>)
    requires NonNegative(attackers) && NonNegative(defenders)
    requires DistinctKinds(attackers) && DistinctKinds(defenders)
    ensures var b := Resolve(attackers, defenders);
      && (forall i :: 0 <= i < |attackers| ==>
            attackers[i].kind in b.attackerLosses && 0 <= b.attackerLosses[attackers[i].kind] <= attackers[i].quantity)
      && (forall i :: 0 <= i < |defenders| ==>
            defenders[i].kind in b.defenderLosses && 0 <= b.defenderLosses[defenders[i].kind] <= defenders[i].quantity)
  {
    forall i | 0 <= i < |attackers|
      ensures var b := Resolve(attackers, defenders);
        attackers[i].kind in b.attackerLosses && 0 <= b.attackerLosses[attackers[i].kind] <= attackers[i].quantity
    {
      AttackerLossBounded(attackers, defenders, i);
    }
    forall i | 0 <= i < |defenders|
      ensures var b := Resolve(attackers, defenders);
        defenders[i].kind in b.defenderLosses && 0 <= b.defenderLosses[defenders[i].kind] <= defenders[i].quantity
    {
      DefenderLossBounded(attackers, defenders, i);
    }
  }

  /** Ten spearmen against ten spearmen: 100 against 50, the attacker wins,
      losing floor(10 * 50 / 150) = 3 and killing floor(10 * 100 / 150) = 6. */
  lemma TenSpearmenEach()
    ensures var b := Resolve([Force(Spearman, 10)], [Force(Spearman, 10)]);
      b.attackPower == 100 && b.defensePower == 50 && b.success
      && b.attackerLosses == map[Spearman := 3] && b.defenderLosses == map[Spearman := 6]
  {
  }

  /** Ten spearmen against ten shield bearers: 100 against 150, the attack
      fails, losing floor(10 * 150 / 250) = 6 and killing floor(10 * 100 / 250) = 4. */
  lemma SpearmenAgainstShieldBearers()
    ensures var b := Resolve([Force(Spearman, 10)], [Force(ShieldBearer, 10)]);
      b.attackPower == 100 && b.defensePower == 150 && !b.success
      && b.attackerLosses == map[Spearman := 6] && b.defenderLosses == map[ShieldBearer := 4]
  {
  }
}
