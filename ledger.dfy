/** The `resources` table: one balance per (kingdom, resource type), and the
    cost tables that purchases deduct from it. */
module Ledger {

  type KingdomId = int
  type ResourceType = string

  /** The rows of the `resources` table; a missing key is a missing row. */
  type Balances = map<(KingdomId, ResourceType), int>

  /** `UPDATE resources SET amount = amount + delta WHERE kingdom_id = k AND
      resource_type = t`: there is no lower bound, and on a missing row the
      statement matches nothing, so the delta is lost. */
  function Adjust(b: Balances, k: KingdomId, t: ResourceType, delta: int): (r: Balances)
  {
    if (k, t) in b then b[(k, t) := b[(k, t)] + delta] else b
  }

  /** Undoing an adjustment restores the table exactly, whether or not the row exists. */
  lemma AdjustUndo(b: Balances, k: KingdomId, t: ResourceType, delta: int)
    ensures Adjust(Adjust(b, k, t, delta), k, t, -delta) == b
  {
    if (k, t) in b {
      assert Adjust(Adjust(b, k, t, delta), k, t, -delta) == b[(k, t) := b[(k, t)]];
    }
  }

  /** Debiting one row and crediting another by the same amount keeps the
      sum of the two rows, when both rows exist. */
  lemma TransferConserves(b: Balances, from: KingdomId, to: KingdomId, t: ResourceType, n: int)
    requires (from, t) in b && (to, t) in b && from != to
    ensures var r := Adjust(Adjust(b, from, t, -n), to, t, n);
      && r[(from, t)] == b[(from, t)] - n
      && r[(to, t)] == b[(to, t)] + n
      && r[(from, t)] + r[(to, t)] == b[(from, t)] + b[(to, t)]
  {
  }

  /** A cost: (resource type, amount) entries in the order of the source's
      object literal, which is the order `Object.entries` visits them. */
  type Cost = seq<(ResourceType, int)>

  /** No resource type is listed twice. */
  predicate DistinctTypes(c: Cost) {
    forall i, j :: 0 <= i < j < |c| ==> c[i].0 != c[j].0
  }

  /** `cost[t] || 0`: the amount the cost lists for t (a later entry wins, as
      in an object literal), or 0 when t is not listed. */
  function Required(c: Cost, t: ResourceType): int
  {
    if c == [] then 0
    else if c[|c| - 1].0 == t then c[|c| - 1].1
    else Required(c[..|c| - 1], t)
  }

  /** The source's affordability test (`resources.rows.every(...)`): every row
      the kingdom HAS covers what the cost lists for its type. A listed type
      for which the kingdom has no row never blocks the purchase. */
  predicate Affordable(b: Balances, k: KingdomId, c: Cost) {
    forall key :: key in b && key.0 == k ==> b[key] >= Required(c, key.1)
  }

  /** The state after deducting every entry in turn from kingdom k. */
  function Deducted(b: Balances, k: KingdomId, c: Cost): (r: Balances)
    ensures r.Keys == b.Keys
    decreases |c|
  {
    if c == [] then b
    else Adjust(Deducted(b, k, c[..|c| - 1]), k, c[|c| - 1].0, -c[|c| - 1].1)
  }

  /** The deduction loop of the purchase routes:
      `for (const [resourceType, amount] of Object.entries(cost))` issues one
      `UPDATE resources SET amount = amount - $1 ...` per entry, in order. */
  method Deduct(b: Balances, k: KingdomId, c: Cost) returns (r: Balances)
    ensures r == Deducted(b, k, c)
  {
    r := b;
    for i := 0 to |c|
      invariant r == Deducted(b, k, c[..i])
    {
      assert c[..i + 1][..i] == c[..i];
      r := Adjust(r, k, c[i].0, -c[i].1);
    }
    assert c[..|c|] == c;
  }

  lemma {:induction false} RequiredUnlisted(c: Cost, t: ResourceType)
    requires forall i :: 0 <= i < |c| ==> c[i].0 != t
    ensures Required(c, t) == 0
    decreases |c|
  {
    if c != [] {
      RequiredUnlisted(c[..|c| - 1], t);
    }
  }

  /** With distinct types, deducting a cost lowers each of k's rows by exactly
      what the cost lists for its type and leaves every other row alone. */
  lemma {:induction false} DeductedAt(b: Balances, k: KingdomId, c: Cost, key: (KingdomId, ResourceType))
    requires DistinctTypes(c)
    requires key in b
    ensures Deducted(b, k, c)[key] == b[key] - (if key.0 == k then Required(c, key.1) else 0)
    decreases |c|
  {
    if c != [] {
      var init := c[..|c| - 1];
      var last := c[|c| - 1];
      assert DistinctTypes(init);
      DeductedAt(b, k, init, key);
      if key == (k, last.0) {
        RequiredUnlisted(init, last.0);
      }
    }
  }

  /** A purchase that passes the affordability test leaves every row of the
      buyer non-negative; rows of other kingdoms are untouched. */
  lemma PurchaseKeepsRowsCovered(b: Balances, k: KingdomId, c: Cost)
    requires DistinctTypes(c)
    requires Affordable(b, k, c)
    ensures forall key :: key in b && key.0 == k ==> Deducted(b, k, c)[key] >= 0
    ensures forall key :: key in b && key.0 != k ==> Deducted(b, k, c)[key] == b[key]
  {
    forall key | key in b
      ensures Deducted(b, k, c)[key] == b[key] - (if key.0 == k then Required(c, key.1) else 0)
    {
      DeductedAt(b, k, c, key);
    }
  }

  /** Every entry of a cost multiplied by n (an upgrade at level n). */
  function Scaled(c: Cost, n: int): (r: Cost)
    ensures |r| == |c|
    ensures forall i :: 0 <= i < |c| ==> r[i] == (c[i].0, c[i].1 * n)
  {
    seq(|c|, i requires 0 <= i < |c| => (c[i].0, c[i].1 * n))
  }
}
