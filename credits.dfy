/** The credits ledger of src/stores/credits.ts: the spendable balance, the
    lifetime counters, and the fixed catalog of click and idle upgrades whose
    levels raise the per-click and per-second yields. */
module Credits {
  import opened Wrappers
  import opened Economy

  datatype UpgradeKind = Click | Idle

  datatype Upgrade = Upgrade(
    id: string,
    name: string,
    description: string,
    baseCost: real,
    costMultiplier: real,
    level: nat,
    effect: real,  // credits per click, or per second, for each level
    kind: UpgradeKind)

  /** The upgrades as the store creates them, every one at level 0. */
  const UpgradeCatalog: seq<Upgrade> := [
    Upgrade("nav-data", "Nav Data Fragments", "Sell navigation data for credits",
            15.0, 1.15, 0, 1.0, Click),
    Upgrade("ordis-subroutine", "Ordis Subroutine", "Your ship's Cephalon generates passive credits",
            100.0, 1.2, 0, 1.0, Idle),
    Upgrade("cephalon-fragment", "Cephalon Fragment", "Ancient data caches generate steady income",
            500.0, 1.25, 0, 5.0, Idle),
    Upgrade("simaris-standing", "Simaris Standing", "Sanctuary data farming provides substantial credits",
            2500.0, 1.3, 0, 25.0, Idle),
    Upgrade("index-broker", "Index Broker", "Automated Index betting generates massive returns",
            15000.0, 1.35, 0, 100.0, Idle)
  ]

  /** The list the store holds is always the catalog with some levels changed:
      nothing adds, removes, reorders or re-prices an upgrade. */
  predicate IsCatalogState(ups: seq<Upgrade>)
  {
    |ups| == |UpgradeCatalog|
    && forall i :: 0 <= i < |ups| ==> ups[i] == UpgradeCatalog[i].(level := ups[i].level)
  }

  /** No two upgrades share an id. Each store keeps its own copy of this and
      of the level-restoring definitions below, because the source writes
      them out separately in each store over records of different shapes;
      what they share, `LastSavedLevel`, lives in `Economy`. */
  predicate DistinctIds(ups: seq<Upgrade>)
  {
    forall i, j :: 0 <= i < j < |ups| ==> ups[i].id != ups[j].id
  }

  predicate NonNegativeEffects(ups: seq<Upgrade>)
  {
    forall i :: 0 <= i < |ups| ==> ups[i].effect >= 0.0
  }

  lemma CatalogStateFacts(ups: seq<Upgrade>)
    requires IsCatalogState(ups)
    ensures DistinctIds(ups) && NonNegativeEffects(ups)
    ensures forall i :: 0 <= i < |ups| ==> ups[i].baseCost > 0.0 && ups[i].costMultiplier > 1.0
  {
    assert forall i :: 0 <= i < |ups| ==> ups[i].id == UpgradeCatalog[i].id;
  }

  /** `upgrades.find((u) => u.id === id)`, as the index of the first match. */
  function FindUpgrade(ups: seq<Upgrade>, id: string): (k: Option<nat>)
    ensures k.None? <==> forall i :: 0 <= i < |ups| ==> ups[i].id != id
    ensures k.Some? ==> k.value < |ups| && ups[k.value].id == id
                        && forall i :: 0 <= i < k.value ==> ups[i].id != id
  {
    Find(ups, (u: Upgrade) => u.id == id)
  }

  /** What one upgrade adds to the yield of `kind`. */
  function Yield(u: Upgrade, kind: UpgradeKind): real
  {
    if u.kind == kind then u.level as real * u.effect else 0.0
  }

  /** The total `level * effect` over the upgrades of one kind: the sum the
      `creditsPerClick` and `creditsPerSecond` computeds accumulate. */
  function RateSum(ups: seq<Upgrade>, kind: UpgradeKind): (total: real)
    ensures NonNegativeEffects(ups) ==> total >= 0.0
  {
    if ups == [] then 0.0
    else
      assert NonNegativeEffects(ups) ==> NonNegativeEffects(ups[1..]) && Yield(ups[0], kind) >= 0.0;
      Yield(ups[0], kind) + RateSum(ups[1..], kind)
  }

  /** Raising one upgrade's level by one raises the sum of its kind by its
      effect and leaves the sum of the other kind as it was. */
  lemma {:induction false} RateSumLevelUp(ups: seq<Upgrade>, k: nat, kind: UpgradeKind)
    requires k < |ups|
    ensures RateSum(ups[k := ups[k].(level := ups[k].level + 1)], kind)
            == RateSum(ups, kind) + (if ups[k].kind == kind then ups[k].effect else 0.0)
  {
    var up := ups[k].(level := ups[k].level + 1);
    var ups' := ups[k := up];
    if k == 0 {
      assert ups'[1..] == ups[1..];
      assert (ups[0].level + 1) as real * ups[0].effect == ups[0].level as real * ups[0].effect + ups[0].effect;
      assert Yield(up, kind) == Yield(ups[0], kind) + (if ups[k].kind == kind then ups[k].effect else 0.0);
    } else {
      var tail := ups[1..];
      assert ups'[0] == ups[0];
      assert ups'[1..] == tail[k - 1 := up];
      RateSumLevelUp(tail, k - 1, kind);
    }
  }

  /** With every level at 0, neither kind yields anything. */
  lemma {:induction false} RateSumAtLevelZero(ups: seq<Upgrade>, kind: UpgradeKind)
    requires forall i :: 0 <= i < |ups| ==> ups[i].level == 0
    ensures RateSum(ups, kind) == 0.0
  {
    if ups != [] {
      RateSumAtLevelZero(ups[1..], kind);
    }
  }

  /** `getUpgradeCost`: `floor(baseCost * costMultiplier ^ level)`. */
  function UpgradeCost(u: Upgrade): (cost: int)
    ensures u.level == 0 ==> cost == u.baseCost.Floor
  {
    GeometricCost(u.baseCost, u.costMultiplier, u.level)
  }

  /** Buying an upgrade never makes the next level cheaper. */
  lemma UpgradeCostNonDecreasing(u: Upgrade)
    requires u.baseCost >= 0.0 && u.costMultiplier >= 1.0
    ensures UpgradeCost(u) <= UpgradeCost(u.(level := u.level + 1))
  {
    GeometricCostMonotone(u.baseCost, u.costMultiplier, u.level, u.level + 1);
  }

  /** `nav-data` costs 15 credits, then 17 after one purchase, then 19. */
  lemma NavDataCosts()
    ensures UpgradeCost(UpgradeCatalog[0]) == 15
    ensures UpgradeCost(UpgradeCatalog[0].(level := 1)) == 17
    ensures UpgradeCost(UpgradeCatalog[0].(level := 2)) == 19
  {
    assert Pow(1.15, 2) == 1.3225;
  }

  /** The levels a load leaves on the catalog: each upgrade takes the level of
      the last saved record with its id; records whose id is not in the
      catalog are ignored. */
  function RestoreLevels(ups: seq<Upgrade>, saved: seq<SavedLevel>): (restored: seq<Upgrade>)
    ensures |restored| == |ups|
    ensures forall i :: 0 <= i < |ups| ==> restored[i] == ups[i].(level := restored[i].level)
  {
    seq(|ups|, i requires 0 <= i < |ups| => ups[i].(level := LastSavedLevel(saved, ups[i].id).GetOr(ups[i].level)))
  }

  /** Restoring levels keeps the catalog: only levels change. */
  lemma RestoreKeepsCatalog(ups: seq<Upgrade>, saved: seq<SavedLevel>)
    requires IsCatalogState(ups)
    ensures IsCatalogState(RestoreLevels(ups, saved))
  {
  }

  /** What one saved record does to the upgrades: the first upgrade with its
      id, if any, takes its level. */
  function ApplySavedLevel(ups: seq<Upgrade>, e: SavedLevel): seq<Upgrade>
  {
    match FindUpgrade(ups, e.id)
    case Some(k) => ups[k := ups[k].(level := e.level)]
    case None => ups
  }

  /** One step of the restoring `forEach`: applying the next saved record to
      what the earlier records restored. */
  lemma RestoreLevelsStep(ups: seq<Upgrade>, saved: seq<SavedLevel>, e: SavedLevel)
    requires DistinctIds(ups)
    ensures RestoreLevels(ups, saved + [e]) == ApplySavedLevel(RestoreLevels(ups, saved), e)
  {
    forall i | 0 <= i < |ups| {
      LastSavedLevelAppend(saved, e, ups[i].id);
    }
  }

  /** The restoring `forEach` of `loadFromLocalStorage`: each saved record,
      in order, overwrites the level of the first upgrade with its id. */
  method ApplySavedLevels(ups: seq<Upgrade>, saved: seq<SavedLevel>) returns (restored: seq<Upgrade>)
    requires DistinctIds(ups)
    ensures restored == RestoreLevels(ups, saved)
  {
    restored := ups;
    var i := 0;
    while i < |saved|
      invariant 0 <= i <= |saved|
      invariant restored == RestoreLevels(ups, saved[..i])
    {
      ghost var previous := restored;
      var found := FindUpgrade(restored, saved[i].id);
      if found.Some? {
        restored := restored[found.value := restored[found.value].(level := saved[i].level)];
      }
      assert restored == ApplySavedLevel(previous, saved[i]);
      RestoreLevelsStep(ups, saved[..i], saved[i]);
      assert saved[..i + 1] == saved[..i] + [saved[i]];
      i := i + 1;
    }
    assert saved[..i] == saved;
  }

  /** A saved record with an id the catalog does not know changes nothing. */
  lemma RestoreIgnoresUnknownId(ups: seq<Upgrade>, saved: seq<SavedLevel>, e: SavedLevel)
    requires forall i :: 0 <= i < |ups| ==> ups[i].id != e.id
    ensures RestoreLevels(ups, saved + [e]) == RestoreLevels(ups, saved)
  {
    forall i | 0 <= i < |ups| {
      LastSavedLevelAppend(saved, e, ups[i].id);
    }
  }

  /** An already-parsed `cephalon-save` record; a missing field is `None`. */
  datatype CreditsSave = CreditsSave(
    credits: Option<real>,
    totalCreditsEarned: Option<real>,
    lifetimeClicks: Option<nat>,
    upgrades: Option<seq<SavedLevel>>,
    lastSave: Option<int>)

  class CreditsStore {
    var credits: real
    var totalCreditsEarned: real
    var lifetimeClicks: nat
    var upgrades: seq<Upgrade>

    ghost predicate Valid()
      reads this
    {
      IsCatalogState(upgrades)
    }

    /** The balances the store can reach from a fresh start, where nothing
        was loaded from a tampered save. */
    ghost predicate NonNegative()
      reads this
    {
      credits >= 0.0 && totalCreditsEarned >= 0.0
    }

    constructor ()
      ensures Valid() && NonNegative()
      ensures credits == 0.0 && totalCreditsEarned == 0.0 && lifetimeClicks == 0
      ensures upgrades == UpgradeCatalog
    {
      credits, totalCreditsEarned, lifetimeClicks := 0.0, 0.0, 0;
      upgrades := UpgradeCatalog;
    }

    /** `creditsPerClick`: one plus `level * effect` over the click upgrades. */
    function CreditsPerClick(): (perClick: real)
      reads this
      requires Valid()
      ensures perClick >= 1.0
    {
      CatalogStateFacts(upgrades);
      1.0 + RateSum(upgrades, UpgradeKind.Click)
    }

    /** `creditsPerSecond`: `level * effect` over the idle upgrades. */
    function CreditsPerSecond(): (perSecond: real)
      reads this
      requires Valid()
      ensures perSecond >= 0.0
    {
      CatalogStateFacts(upgrades);
      RateSum(upgrades, Idle)
    }

    predicate CanAffordUpgrade(u: Upgrade)
      reads this
    {
      credits >= UpgradeCost(u) as real
    }

    /** `click`: earns `creditsPerClick` and returns it. */
    method Click() returns (earned: real)
      requires Valid()
      modifies this
      ensures Valid() && upgrades == old(upgrades)
      ensures earned == old(CreditsPerClick()) && earned >= 1.0
      ensures credits == old(credits) + earned
      ensures totalCreditsEarned == old(totalCreditsEarned) + earned
      ensures lifetimeClicks == old(lifetimeClicks) + 1
      ensures old(NonNegative()) ==> NonNegative()
    {
      earned := CreditsPerClick();
      credits := credits + earned;
      totalCreditsEarned := totalCreditsEarned + earned;
      lifetimeClicks := lifetimeClicks + 1;
    }

    /** `buyUpgrade`: all or nothing. An unknown id or a balance below the
        cost leaves everything as it was; otherwise exactly the cost is paid
        and only that upgrade gains a level. */
    method BuyUpgrade(upgradeId: string) returns (ok: bool)
      requires Valid()
      modifies this
      ensures Valid()
      ensures totalCreditsEarned == old(totalCreditsEarned) && lifetimeClicks == old(lifetimeClicks)
      ensures ok <==> FindUpgrade(old(upgrades), upgradeId).Some?
                      && old(CanAffordUpgrade(upgrades[FindUpgrade(upgrades, upgradeId).value]))
      ensures !ok ==> credits == old(credits) && upgrades == old(upgrades)
      ensures ok ==>
        var k := FindUpgrade(old(upgrades), upgradeId).value;
        && credits == old(credits) - UpgradeCost(old(upgrades)[k]) as real
        && credits >= 0.0
        && upgrades == old(upgrades)[k := old(upgrades)[k].(level := old(upgrades)[k].level + 1)]
      ensures old(NonNegative()) ==> NonNegative()
    {
      var found := FindUpgrade(upgrades, upgradeId);
      if found.None? {
        return false;
      }
      var k := found.value;
      var cost := UpgradeCost(upgrades[k]);
      CatalogStateFacts(upgrades);
      if credits >= cost as real {
        credits := credits - cost as real;
        upgrades := upgrades[k := upgrades[k].(level := upgrades[k].level + 1)];
        return true;
      }
      return false;
    }

    /** `tick`: one second of idle income, added only when it is positive. */
    method Tick()
      requires Valid()
      modifies this
      ensures Valid() && upgrades == old(upgrades) && lifetimeClicks == old(lifetimeClicks)
      ensures old(CreditsPerSecond()) > 0.0 ==>
                credits == old(credits) + old(CreditsPerSecond())
                && totalCreditsEarned == old(totalCreditsEarned) + old(CreditsPerSecond())
      ensures old(CreditsPerSecond()) <= 0.0 ==>
                credits == old(credits) && totalCreditsEarned == old(totalCreditsEarned)
      ensures credits >= old(credits) && totalCreditsEarned >= old(totalCreditsEarned)
    {
      var earned := CreditsPerSecond();
      if earned > 0.0 {
        credits := credits + earned;
        totalCreditsEarned := totalCreditsEarned + earned;
      }
    }

    /** `loadFromLocalStorage` after parsing: the balances are overwritten
        (a missing field reads as 0), the saved levels are restored in
        order, and then the time since `lastSave` is paid for at the
        RESTORED per-second rate, capped at an hour. */
    method Load(save: CreditsSave, now: int)
      requires Valid()
      modifies this
      ensures Valid()
      ensures upgrades == RestoreLevels(old(upgrades), save.upgrades.GetOr([]))
      ensures lifetimeClicks == save.lifetimeClicks.GetOr(0)
      ensures var bonus := OfflineBonus(save.lastSave, now, CreditsPerSecond());
        && credits == save.credits.GetOr(0.0) + bonus as real
        && totalCreditsEarned == save.totalCreditsEarned.GetOr(0.0) + bonus as real
        && bonus <= (CreditsPerSecond() * MaxOfflineSeconds).Floor
    {
      CatalogStateFacts(upgrades);
      var restored := ApplySavedLevels(upgrades, save.upgrades.GetOr([]));
      RestoreKeepsCatalog(upgrades, save.upgrades.GetOr([]));

      credits := save.credits.GetOr(0.0);
      totalCreditsEarned := save.totalCreditsEarned.GetOr(0.0);
      lifetimeClicks := save.lifetimeClicks.GetOr(0);
      upgrades := restored;

      var bonus := OfflineBonus(save.lastSave, now, CreditsPerSecond());
      if bonus > 0 {
        credits := credits + bonus as real;
        totalCreditsEarned := totalCreditsEarned + bonus as real;
      }
    }

    /** `resetGame`: every balance, counter and level back to 0, so a click
        earns 1 again and nothing is earned per second. */
    method Reset()
      requires Valid()
      modifies this
      ensures Valid() && NonNegative()
      ensures credits == 0.0 && totalCreditsEarned == 0.0 && lifetimeClicks == 0
      ensures |upgrades| == old(|upgrades|)
      ensures forall i :: 0 <= i < |upgrades| ==> upgrades[i] == old(upgrades[i]).(level := 0)
      ensures CreditsPerClick() == 1.0 && CreditsPerSecond() == 0.0
    {
      credits, totalCreditsEarned, lifetimeClicks := 0.0, 0.0, 0;
      var i := 0;
      while i < |upgrades|
        invariant 0 <= i <= |upgrades| == old(|upgrades|)
        invariant Valid()
        invariant forall j :: 0 <= j < i ==> upgrades[j] == old(upgrades[j]).(level := 0)
        invariant forall j :: i <= j < |upgrades| ==> upgrades[j] == old(upgrades[j])
        invariant credits == 0.0 && totalCreditsEarned == 0.0 && lifetimeClicks == 0
      {
        upgrades := upgrades[i := upgrades[i].(level := 0)];
        i := i + 1;
      }
      RateSumAtLevelZero(upgrades, UpgradeKind.Click);
      RateSumAtLevelZero(upgrades, Idle);
    }
  }

  /** Buying an upgrade raises the yield of its own kind by exactly its effect. */
  lemma BuyUpgradeRaisesRate(ups: seq<Upgrade>, k: nat)
    requires k < |ups|
    ensures var ups' := ups[k := ups[k].(level := ups[k].level + 1)];
      && RateSum(ups', ups[k].kind) == RateSum(ups, ups[k].kind) + ups[k].effect
      && (forall kind :: kind != ups[k].kind ==> RateSum(ups', kind) == RateSum(ups, kind))
  {
    RateSumLevelUp(ups, k, Click);
    RateSumLevelUp(ups, k, Idle);
  }

  /** A 10000 second absence at 5 credits per second pays 18000, the hour's
      worth, and not 50000 (a `lastSave` of 0 would read as no save time). */
  lemma OfflineCapExample(lastSave: int, now: int)
    requires lastSave != 0 && now == lastSave + 10_000_000
    ensures OfflineBonus(Some(lastSave), now, 5.0) == 18000
  {
    assert OfflineSeconds(now, lastSave) == 3600.0;
    assert (5.0 * 3600.0).Floor == 18000;
  }
}
