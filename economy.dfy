/** Arithmetic shared by the credits and the resource ledgers: geometric
    purchase costs, the capped offline catch-up, and the rule by which a saved
    list of `{id, level}` records restores catalog levels. */
module Economy {
  import opened Wrappers

  /** `Math.pow(b, n)` for the natural exponents (levels) the game uses, in
      exact arithmetic. */
  function Pow(b: real, n: nat): real
  {
    if n == 0 then 1.0 else b * Pow(b, n - 1)
  }

  lemma {:induction false} PowAtLeastOne(b: real, n: nat)
    requires b >= 1.0
    ensures Pow(b, n) >= 1.0
  {
    if n > 0 {
      PowAtLeastOne(b, n - 1);
      assert b * Pow(b, n - 1) >= 1.0 * Pow(b, n - 1);
    }
  }

  /** A power of a base of at least one never shrinks as the exponent grows. */
  lemma {:induction false} PowMonotone(b: real, m: nat, n: nat)
    requires b >= 1.0 && m <= n
    ensures Pow(b, m) <= Pow(b, n)
  {
    if m < n {
      PowMonotone(b, m, n - 1);
      PowAtLeastOne(b, n - 1);
      assert b * Pow(b, n - 1) >= 1.0 * Pow(b, n - 1);
    }
  }

  /** `Math.floor(baseCost * Math.pow(costMultiplier, level))`, the price of
      the next level of an upgrade or an extractor. */
  function GeometricCost(baseCost: real, costMultiplier: real, level: nat): (cost: int)
    ensures level == 0 ==> cost == baseCost.Floor
    ensures level == 0 && baseCost == baseCost.Floor as real ==> cost as real == baseCost
  {
    (baseCost * Pow(costMultiplier, level)).Floor
  }

  /** With a non-negative base cost and a multiplier of at least one, the price
      never falls as the level rises. */
  lemma {:induction false} GeometricCostMonotone(baseCost: real, costMultiplier: real, m: nat, n: nat)
    requires baseCost >= 0.0 && costMultiplier >= 1.0 && m <= n
    ensures 0 <= GeometricCost(baseCost, costMultiplier, m) <= GeometricCost(baseCost, costMultiplier, n)
  {
    PowMonotone(costMultiplier, m, n);
    PowAtLeastOne(costMultiplier, m);
    assert baseCost * Pow(costMultiplier, m) <= baseCost * Pow(costMultiplier, n);
    assert baseCost * Pow(costMultiplier, m) >= 0.0;
  }

  /** The longest absence that offline catch-up pays for, in seconds. */
  const MaxOfflineSeconds: real := 3600.0

  /** `Math.min((now - lastSave) / 1000, 3600)`: the seconds of absence paid
      for; `now` and `lastSave` are epoch milliseconds. */
  function OfflineSeconds(now: int, lastSave: int): (t: real)
    ensures t <= MaxOfflineSeconds
    ensures t == MaxOfflineSeconds || t == (now - lastSave) as real / 1000.0
    ensures now - lastSave <= 3_600_000 ==> t == (now - lastSave) as real / 1000.0
  {
    var elapsed := (now - lastSave) as real / 1000.0;
    if elapsed < MaxOfflineSeconds then elapsed else MaxOfflineSeconds
  }

  /** What a load adds to one balance for the time since `lastSave` at
      `rate` per second: `Math.floor(rate * offlineTime)` when `lastSave` is
      truthy (present and not 0) and that floor is positive, otherwise
      nothing. */
  function OfflineBonus(lastSave: Option<int>, now: int, rate: real): (bonus: nat)
    ensures lastSave.None? || lastSave.value == 0 ==> bonus == 0
    ensures rate >= 0.0 ==> bonus <= (rate * MaxOfflineSeconds).Floor
    ensures bonus > 0 ==> bonus == (rate * OfflineSeconds(now, lastSave.value)).Floor
    // a positive floor of the paid time is paid in full
    ensures lastSave.Some? && lastSave.value != 0 && (rate * OfflineSeconds(now, lastSave.value)).Floor > 0
            ==> bonus == (rate * OfflineSeconds(now, lastSave.value)).Floor
    // an absence of an hour or more pays exactly the capped amount
    ensures lastSave.Some? && lastSave.value != 0 && rate >= 0.0 && now - lastSave.value >= 3_600_000
            ==> bonus == (rate * MaxOfflineSeconds).Floor
  {
    if lastSave.Some? && lastSave.value != 0 then
      var earned := (rate * OfflineSeconds(now, lastSave.value)).Floor;
      ScaleFloorMonotone(rate, OfflineSeconds(now, lastSave.value), MaxOfflineSeconds);
      if earned > 0 then earned else 0
    else 0
  }

  /** Paying for a shorter time at a non-negative rate never pays more. */
  lemma ScaleFloorMonotone(rate: real, t: real, u: real)
    requires t <= u
    ensures rate >= 0.0 ==> (rate * t).Floor <= (rate * u).Floor
  {
    assert rate * u - rate * t == rate * (u - t);
  }

  /** One record of the `upgrades` or `extractors` list of a save. */
  datatype SavedLevel = SavedLevel(id: string, level: nat)

  /** The level that restoring `saved` in order leaves on the catalog entry
      `id`: that of the LAST record with this id, since each record
      overwrites the level; `None` when no record names it. */
  function LastSavedLevel(saved: seq<SavedLevel>, id: string): (r: Option<nat>)
    ensures r.None? <==> forall i :: 0 <= i < |saved| ==> saved[i].id != id
    ensures r.Some? ==> SavedLevel(id, r.value) in saved
  {
    if saved == [] then None
    else if saved[|saved| - 1].id == id then Some(saved[|saved| - 1].level)
    else
      var r := LastSavedLevel(saved[..|saved| - 1], id);
      assert r.Some? ==> SavedLevel(id, r.value) in saved[..|saved| - 1];
      r
  }

  /** Appending a record changes the restored level of its own id only, and
      for that id it wins over every earlier record. */
  lemma LastSavedLevelAppend(saved: seq<SavedLevel>, e: SavedLevel, id: string)
    ensures LastSavedLevel(saved + [e], id)
            == if e.id == id then Some(e.level) else LastSavedLevel(saved, id)
  {
    assert (saved + [e])[..|saved|] == saved;
  }
}
