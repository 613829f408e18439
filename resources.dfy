/** The resource ledger of src/stores/resources.ts: four material balances,
    each with a lifetime counter, fed by four extractors that are bought with
    credits from the credits ledger. */
module Resources {
  import opened Wrappers
  import opened Economy
  import Credits

  /** The four materials. */
  datatype Resource = Ferrite | AlloyPlate | Plastids | Neurodes

  datatype ExtractorRarity = Common | Uncommon | Rare

  datatype Extractor = Extractor(
    id: string,
    name: string,
    description: string,
    baseCost: real,
    costMultiplier: real,
    level: nat,
    baseProduction: real,  // units per second for each level
    rarity: ExtractorRarity)

  /** The extractors as the store creates them, every one at level 0. */
  const ExtractorCatalog: seq<Extractor> := [
    Extractor("ferrite-extractor", "Ferrite Extractor", "Extracts Ferrite from planetary deposits",
              500.0, 1.25, 0, 1.0, Common),
    Extractor("alloy-extractor", "Alloy Plate Extractor", "Processes raw ore into Alloy Plates",
              2000.0, 1.3, 0, 0.5, Common),
    Extractor("plastids-extractor", "Plastids Extractor", "Harvests organic Plastids compounds",
              10000.0, 1.35, 0, 0.2, Uncommon),
    Extractor("neurodes-extractor", "Neurodes Extractor", "Recovers rare Neurodes from neural clusters",
              50000.0, 1.4, 0, 0.05, Rare)
  ]

  /** The id of the one extractor whose rate feeds `r`. */
  function ExtractorId(r: Resource): string
  {
    match r
    case Ferrite => "ferrite-extractor"
    case AlloyPlate => "alloy-extractor"
    case Plastids => "plastids-extractor"
    case Neurodes => "neurodes-extractor"
  }

  /** No two extractors share an id. This and the level restoring below
      mirror the upgrade versions in `Credits` over this store's own records,
      as the source does. */
  predicate DistinctIds(exts: seq<Extractor>)
  {
    forall i, j :: 0 <= i < j < |exts| ==> exts[i].id != exts[j].id
  }

  /** What holds of the store's extractor list from creation on, since only
      levels ever change: each resource has its own extractor at a fixed
      place, ids are distinct, and prices and yields are positive with
      multipliers above one. */
  predicate WellFormed(exts: seq<Extractor>)
  {
    && |exts| == 4
    && DistinctIds(exts)
    && (forall r :: exts[ResourceIndex(r)].id == ExtractorId(r))
    && (forall i :: 0 <= i < |exts| ==>
          exts[i].baseCost > 0.0 && exts[i].costMultiplier > 1.0 && exts[i].baseProduction > 0.0)
  }

  lemma CatalogWellFormed()
    ensures WellFormed(ExtractorCatalog)
  {
  }

  /** The extractor of `r` is found at its fixed place. */
  lemma FindExtractorOfResource(exts: seq<Extractor>, r: Resource)
    requires WellFormed(exts)
    ensures FindExtractor(exts, ExtractorId(r)) == Some(ResourceIndex(r))
  {
  }

  /** Rates are never negative. */
  lemma RateNonNegative(exts: seq<Extractor>, r: Resource)
    requires WellFormed(exts)
    ensures RateOf(exts, r) >= 0.0
  {
    RateIsProduction(exts, r);
  }

  /** Where the extractor of `r` stands in the catalog. */
  function ResourceIndex(r: Resource): nat
  {
    match r
    case Ferrite => 0
    case AlloyPlate => 1
    case Plastids => 2
    case Neurodes => 3
  }

  /** `extractors.find((e) => e.id === id)`, as the index of the first match. */
  function FindExtractor(exts: seq<Extractor>, id: string): (k: Option<nat>)
    ensures k.None? <==> forall i :: 0 <= i < |exts| ==> exts[i].id != id
    ensures k.Some? ==> k.value < |exts| && exts[k.value].id == id
                        && forall i :: 0 <= i < k.value ==> exts[i].id != id
  {
    Find(exts, (e: Extractor) => e.id == id)
  }

  /** `level * baseProduction`, written as `level` repeated additions so
      that the solver reasons about it linearly; `ProductionIsProduct`
      connects it to the product. */
  function Production(level: nat, baseProduction: real): (p: real)
    ensures baseProduction >= 0.0 ==> p >= 0.0
  {
    if level == 0 then 0.0 else Production(level - 1, baseProduction) + baseProduction
  }

  lemma {:induction false} ProductionIsProduct(level: nat, baseProduction: real)
    ensures Production(level, baseProduction) == level as real * baseProduction
  {
    if level > 0 {
      ProductionIsProduct(level - 1, baseProduction);
      assert level as real * baseProduction == (level - 1) as real * baseProduction + baseProduction;
    }
  }

  /** `ferritePerSecond` and its three siblings: `level * baseProduction` of
      the resource's extractor when it exists and its level is positive,
      otherwise 0. */
  function RateOf(exts: seq<Extractor>, r: Resource): real
  {
    match FindExtractor(exts, ExtractorId(r))
    case Some(k) => if exts[k].level > 0 then Production(exts[k].level, exts[k].baseProduction) else 0.0
    case None => 0.0
  }

  /** On a well-formed catalog the rate is the production of the resource's
      own extractor, whatever its level. */
  lemma RateIsProduction(exts: seq<Extractor>, r: Resource)
    requires WellFormed(exts)
    ensures RateOf(exts, r) == Production(exts[ResourceIndex(r)].level, exts[ResourceIndex(r)].baseProduction)
  {
    FindExtractorOfResource(exts, r);
  }

  /** On the store's catalog the rate is simply `level * baseProduction` of
      the resource's own extractor: never negative, and positive exactly when
      that extractor has been bought at least once. */
  lemma RateOfCatalogState(exts: seq<Extractor>, r: Resource)
    requires WellFormed(exts)
    ensures var e := exts[ResourceIndex(r)];
      && RateOf(exts, r) == e.level as real * e.baseProduction
      && (RateOf(exts, r) > 0.0 <==> e.level > 0)
  {
    var e := exts[ResourceIndex(r)];
    RateIsProduction(exts, r);
    ProductionIsProduct(e.level, e.baseProduction);
    if e.level > 0 {
      assert e.level as real * e.baseProduction >= e.baseProduction;
    }
  }

  /** Levels play no part in finding an extractor by id. */
  lemma FindExtractorIgnoresLevel(exts: seq<Extractor>, k: nat, level: nat, id: string)
    requires k < |exts|
    ensures FindExtractor(exts[k := exts[k].(level := level)], id) == FindExtractor(exts, id)
  {
    var exts' := exts[k := exts[k].(level := level)];
    assert forall i :: 0 <= i < |exts| ==> exts'[i].id == exts[i].id;
    var found', found := FindExtractor(exts', id), FindExtractor(exts, id);
    if found'.Some? && found.Some? {
      assert !(found'.value < found.value) && !(found.value < found'.value);
    }
  }

  /** Changing one extractor's level keeps the catalog's shape. */
  lemma LevelChangeWellFormed(exts: seq<Extractor>, k: nat, level: nat)
    requires WellFormed(exts) && k < |exts|
    ensures WellFormed(exts[k := exts[k].(level := level)])
  {
    var exts' := exts[k := exts[k].(level := level)];
    assert forall i :: 0 <= i < |exts| ==> exts'[i].id == exts[i].id;
  }

  /** Buying the extractor at `k` raises the rate of its own resource by its
      `baseProduction` and leaves the other three rates as they were. */
  lemma RateAfterLevelUp(exts: seq<Extractor>, k: nat, r: Resource)
    requires WellFormed(exts) && k < |exts|
    ensures var exts' := exts[k := exts[k].(level := exts[k].level + 1)];
      RateOf(exts', r) == RateOf(exts, r) + (if k == ResourceIndex(r) then exts[k].baseProduction else 0.0)
  {
    var e := exts[k];
    var exts' := exts[k := e.(level := e.level + 1)];
    var j := ResourceIndex(r);
    LevelChangeWellFormed(exts, k, e.level + 1);
    RateIsProduction(exts, r);
    RateIsProduction(exts', r);
    if k != j {
      assert exts'[j] == exts[j];
    }
  }

  /** `getExtractorCost`: `floor(baseCost * costMultiplier ^ level)`. */
  function ExtractorCost(e: Extractor): (cost: int)
    ensures e.level == 0 ==> cost == e.baseCost.Floor
  {
    GeometricCost(e.baseCost, e.costMultiplier, e.level)
  }

  /** Buying an extractor never makes its next level cheaper. */
  lemma ExtractorCostNonDecreasing(e: Extractor)
    requires e.baseCost >= 0.0 && e.costMultiplier >= 1.0
    ensures ExtractorCost(e) <= ExtractorCost(e.(level := e.level + 1))
  {
    GeometricCostMonotone(e.baseCost, e.costMultiplier, e.level, e.level + 1);
  }

  /** `canAffordExtractor`: the credits ledger holds at least the cost. */
  predicate CanAffordExtractor(creditsStore: Credits.CreditsStore, e: Extractor)
    reads creditsStore
  {
    creditsStore.credits >= ExtractorCost(e) as real
  }

  /** The levels a load leaves on the catalog: each extractor takes the level
      of the last saved record with its id; unknown ids are ignored. */
  function RestoreLevels(exts: seq<Extractor>, saved: seq<SavedLevel>): (restored: seq<Extractor>)
    ensures |restored| == |exts|
    ensures forall i :: 0 <= i < |exts| ==> restored[i] == exts[i].(level := restored[i].level)
    ensures WellFormed(exts) ==> WellFormed(restored)
  {
    seq(|exts|, i requires 0 <= i < |exts| => exts[i].(level := LastSavedLevel(saved, exts[i].id).GetOr(exts[i].level)))
  }

  /** What one saved record does: the first extractor with its id, if any,
      takes its level. */
  function ApplySavedLevel(exts: seq<Extractor>, e: SavedLevel): seq<Extractor>
  {
    match FindExtractor(exts, e.id)
    case Some(k) => exts[k := exts[k].(level := e.level)]
    case None => exts
  }

  lemma RestoreLevelsStep(exts: seq<Extractor>, saved: seq<SavedLevel>, e: SavedLevel)
    requires DistinctIds(exts)
    ensures RestoreLevels(exts, saved + [e]) == ApplySavedLevel(RestoreLevels(exts, saved), e)
  {
    forall i | 0 <= i < |exts| {
      LastSavedLevelAppend(saved, e, exts[i].id);
    }
  }

  /** A saved record with an id the catalog does not know changes nothing. */
  lemma RestoreIgnoresUnknownId(exts: seq<Extractor>, saved: seq<SavedLevel>, e: SavedLevel)
    requires forall i :: 0 <= i < |exts| ==> exts[i].id != e.id
    ensures RestoreLevels(exts, saved + [e]) == RestoreLevels(exts, saved)
  {
    forall i | 0 <= i < |exts| {
      LastSavedLevelAppend(saved, e, exts[i].id);
    }
  }

  /** The restoring `forEach` of `loadFromLocalStorage`. */
  method ApplySavedLevels(exts: seq<Extractor>, saved: seq<SavedLevel>) returns (restored: seq<Extractor>)
    requires DistinctIds(exts)
    ensures restored == RestoreLevels(exts, saved)
  {
    restored := exts;
    var i := 0;
    while i < |saved|
      invariant 0 <= i <= |saved|
      invariant restored == RestoreLevels(exts, saved[..i])
    {
      ghost var previous := restored;
      var found := FindExtractor(restored, saved[i].id);
      if found.Some? {
        restored := restored[found.value := restored[found.value].(level := saved[i].level)];
      }
      assert restored == ApplySavedLevel(previous, saved[i]);
      RestoreLevelsStep(exts, saved[..i], saved[i]);
      assert saved[..i + 1] == saved[..i] + [saved[i]];
      i := i + 1;
    }
    assert saved[..i] == saved;
  }

  /** One amount per material: the store's four balances, its four lifetime
      counters, the four rates or what one step adds to each. */
  datatype Amounts = Amounts(ferrite: real, alloyPlate: real, plastids: real, neurodes: real)
  {
    function Get(r: Resource): real
    {
      match r
      case Ferrite => ferrite
      case AlloyPlate => alloyPlate
      case Plastids => plastids
      case Neurodes => neurodes
    }

    predicate NonNegative()
    {
      ferrite >= 0.0 && alloyPlate >= 0.0 && plastids >= 0.0 && neurodes >= 0.0
    }

    /** Material by material addition. */
    function Plus(other: Amounts): (sum: Amounts)
      ensures forall r :: sum.Get(r) == Get(r) + other.Get(r)
      ensures NonNegative() && other.NonNegative() ==> sum.NonNegative()
    {
      Amounts(ferrite + other.ferrite, alloyPlate + other.alloyPlate,
              plastids + other.plastids, neurodes + other.neurodes)
    }
  }

  const Zero := Amounts(0.0, 0.0, 0.0, 0.0)

  /** The four computed rates `ferritePerSecond` … `neurodesPerSecond`. */
  function Rates(exts: seq<Extractor>): Amounts
  {
    Amounts(RateOf(exts, Ferrite), RateOf(exts, AlloyPlate), RateOf(exts, Plastids), RateOf(exts, Neurodes))
  }

  /** Each of the four rates is the rate of its own material. */
  lemma RatesGet(exts: seq<Extractor>, r: Resource)
    ensures Rates(exts).Get(r) == RateOf(exts, r)
  {
    match r
    case Ferrite =>
    case AlloyPlate =>
    case Plastids =>
    case Neurodes =>
  }

  /** With every level at 0 nothing is produced: the store as created, and
      after a reset. */
  lemma RatesAtLevelZero(exts: seq<Extractor>)
    requires WellFormed(exts)
    requires forall i :: 0 <= i < |exts| ==> exts[i].level == 0
    ensures Rates(exts) == Zero
  {
    RateIsProduction(exts, Ferrite);
    RateIsProduction(exts, AlloyPlate);
    RateIsProduction(exts, Plastids);
    RateIsProduction(exts, Neurodes);
  }

  /** The guard `if (earned > 0)` of `tick`: a positive amount is added,
      anything else adds nothing. */
  function Gain(amount: real): (added: real)
    ensures added >= 0.0
    ensures amount >= 0.0 ==> added == amount
  {
    if amount > 0.0 then amount else 0.0
  }

  /** `Gain` applied to each material. */
  function Gains(a: Amounts): (added: Amounts)
    ensures forall r :: added.Get(r) == Gain(a.Get(r))
    ensures added.NonNegative()
  {
    Amounts(Gain(a.ferrite), Gain(a.alloyPlate), Gain(a.plastids), Gain(a.neurodes))
  }

  /** Amounts that are never negative pass the guard unchanged. */
  lemma GainsOfNonNegative(a: Amounts)
    requires a.NonNegative()
    ensures Gains(a) == a
  {
  }

  /** On a well-formed catalog the guard of `tick` never bites: what a tick
      adds is exactly the four rates. */
  lemma GainsOfRates(exts: seq<Extractor>)
    requires WellFormed(exts)
    ensures Gains(Rates(exts)) == Rates(exts)
  {
    RateNonNegative(exts, Ferrite);
    RateNonNegative(exts, AlloyPlate);
    RateNonNegative(exts, Plastids);
    RateNonNegative(exts, Neurodes);
  }

  /** The offline catch-up of `loadFromLocalStorage` for each material. */
  function OfflineBonuses(lastSave: Option<int>, now: int, rates: Amounts): (bonus: Amounts)
    ensures forall r :: bonus.Get(r) == OfflineBonus(lastSave, now, rates.Get(r)) as real
    ensures bonus.NonNegative()
  {
    Amounts(OfflineBonus(lastSave, now, rates.ferrite) as real, OfflineBonus(lastSave, now, rates.alloyPlate) as real,
            OfflineBonus(lastSave, now, rates.plastids) as real, OfflineBonus(lastSave, now, rates.neurodes) as real)
  }

  /** An already-parsed `cephalon-resources` record; a missing field is `None`. */
  datatype ResourcesSave = ResourcesSave(
    ferrite: Option<real>,
    alloyPlate: Option<real>,
    plastids: Option<real>,
    neurodes: Option<real>,
    totalFerriteEarned: Option<real>,
    totalAlloyPlateEarned: Option<real>,
    totalPlastidsEarned: Option<real>,
    totalNeurodesEarned: Option<real>,
    extractors: Option<seq<SavedLevel>>,
    lastSave: Option<int>)
  {
    /** The saved balances, 0 for each one missing. */
    function Balances(): Amounts
    {
      Amounts(ferrite.GetOr(0.0), alloyPlate.GetOr(0.0), plastids.GetOr(0.0), neurodes.GetOr(0.0))
    }

    /** The saved lifetime counters, 0 for each one missing. */
    function Lifetimes(): Amounts
    {
      Amounts(totalFerriteEarned.GetOr(0.0), totalAlloyPlateEarned.GetOr(0.0),
              totalPlastidsEarned.GetOr(0.0), totalNeurodesEarned.GetOr(0.0))
    }
  }

  class ResourceStore {
    var ferrite: real
    var alloyPlate: real
    var plastids: real
    var neurodes: real
    var totalFerriteEarned: real
    var totalAlloyPlateEarned: real
    var totalPlastidsEarned: real
    var totalNeurodesEarned: real
    var extractors: seq<Extractor>

    ghost predicate Valid()
      reads this
    {
      WellFormed(extractors)
    }

    function Balances(): Amounts
      reads this
    {
      Amounts(ferrite, alloyPlate, plastids, neurodes)
    }

    function Lifetimes(): Amounts
      reads this
    {
      Amounts(totalFerriteEarned, totalAlloyPlateEarned, totalPlastidsEarned, totalNeurodesEarned)
    }

    function Balance(r: Resource): real
      reads this
    {
      Balances().Get(r)
    }

    function Lifetime(r: Resource): real
      reads this
    {
      Lifetimes().Get(r)
    }

    function Rate(r: Resource): real
      reads this
    {
      RateOf(extractors, r)
    }

    /** The balances reachable from a fresh start without a tampered save. */
    ghost predicate NonNegative()
      reads this
    {
      Balances().NonNegative() && Lifetimes().NonNegative()
    }

    constructor ()
      ensures Valid() && NonNegative() && extractors == ExtractorCatalog
      ensures Balances() == Zero && Lifetimes() == Zero
    {
      CatalogWellFormed();
      ferrite, alloyPlate, plastids, neurodes := 0.0, 0.0, 0.0, 0.0;
      totalFerriteEarned, totalAlloyPlateEarned, totalPlastidsEarned, totalNeurodesEarned := 0.0, 0.0, 0.0, 0.0;
      extractors := ExtractorCatalog;
    }

    /** `buyExtractor`, paid from the credits ledger. An unknown id or too few
        credits changes nothing in either ledger; otherwise exactly the cost
        leaves the credits balance and only that extractor gains a level. */
    method BuyExtractor(creditsStore: Credits.CreditsStore, extractorId: string) returns (ok: bool)
      requires Valid() && creditsStore.Valid()
      modifies this, creditsStore
      ensures Valid() && creditsStore.Valid()
      ensures Balances() == old(Balances()) && Lifetimes() == old(Lifetimes())
      ensures creditsStore.totalCreditsEarned == old(creditsStore.totalCreditsEarned)
      ensures creditsStore.lifetimeClicks == old(creditsStore.lifetimeClicks)
      ensures creditsStore.upgrades == old(creditsStore.upgrades)
      ensures ok <==> FindExtractor(old(extractors), extractorId).Some?
                      && old(CanAffordExtractor(creditsStore, extractors[FindExtractor(extractors, extractorId).value]))
      ensures !ok ==> extractors == old(extractors) && creditsStore.credits == old(creditsStore.credits)
      ensures ok ==>
        var k := FindExtractor(old(extractors), extractorId).value;
        && creditsStore.credits == old(creditsStore.credits) - ExtractorCost(old(extractors)[k]) as real
        && creditsStore.credits >= 0.0
        && extractors == old(extractors)[k := old(extractors)[k].(level := old(extractors)[k].level + 1)]
    {
      var found := FindExtractor(extractors, extractorId);
      if found.None? {
        return false;
      }
      ok := BuyAt(creditsStore, found.value);
    }

    /** The purchase half of `buyExtractor`, once the extractor is found at
        `k`: paid and raised when the credits suffice, else nothing. */
    method BuyAt(creditsStore: Credits.CreditsStore, k: nat) returns (ok: bool)
      requires Valid() && creditsStore.Valid() && k < |extractors|
      modifies this, creditsStore
      ensures Valid() && creditsStore.Valid()
      ensures Balances() == old(Balances()) && Lifetimes() == old(Lifetimes())
      ensures creditsStore.totalCreditsEarned == old(creditsStore.totalCreditsEarned)
      ensures creditsStore.lifetimeClicks == old(creditsStore.lifetimeClicks)
      ensures creditsStore.upgrades == old(creditsStore.upgrades)
      ensures ok <==> old(CanAffordExtractor(creditsStore, extractors[k]))
      ensures !ok ==> extractors == old(extractors) && creditsStore.credits == old(creditsStore.credits)
      ensures ok ==>
        && creditsStore.credits == old(creditsStore.credits) - ExtractorCost(old(extractors)[k]) as real
        && creditsStore.credits >= 0.0
        && extractors == old(extractors)[k := old(extractors)[k].(level := old(extractors)[k].level + 1)]
    {
      var cost := ExtractorCost(extractors[k]);
      if creditsStore.credits >= cost as real {
        LevelChangeWellFormed(extractors, k, extractors[k].level + 1);
        creditsStore.credits := creditsStore.credits - cost as real;
        extractors := extractors[k := extractors[k].(level := extractors[k].level + 1)];
        return true;
      }
      return false;
    }

    /** The step shared by `tick` and the offline catch-up: every positive
        amount is added to its balance and to its lifetime counter, and
        nothing else changes. */
    method AddEarnings(earned: Amounts)
      modifies this
      ensures extractors == old(extractors)
      ensures Balances() == old(Balances()).Plus(Gains(earned))
      ensures Lifetimes() == old(Lifetimes()).Plus(Gains(earned))
    {
      if earned.ferrite > 0.0 {
        ferrite, totalFerriteEarned := ferrite + earned.ferrite, totalFerriteEarned + earned.ferrite;
      }
      if earned.alloyPlate > 0.0 {
        alloyPlate, totalAlloyPlateEarned := alloyPlate + earned.alloyPlate, totalAlloyPlateEarned + earned.alloyPlate;
      }
      if earned.plastids > 0.0 {
        plastids, totalPlastidsEarned := plastids + earned.plastids, totalPlastidsEarned + earned.plastids;
      }
      if earned.neurodes > 0.0 {
        neurodes, totalNeurodesEarned := neurodes + earned.neurodes, totalNeurodesEarned + earned.neurodes;
      }
    }

    /** `tick`: each balance and its lifetime counter rise together by the
        resource's rate when that is positive; on a valid store that is
        simply the rate, so nothing ever decreases. */
    method Tick()
      modifies this
      ensures extractors == old(extractors)
      ensures Balances() == old(Balances()).Plus(Gains(Rates(extractors)))
      ensures Lifetimes() == old(Lifetimes()).Plus(Gains(Rates(extractors)))
      ensures Valid() ==> Balances() == old(Balances()).Plus(Rates(extractors))
      ensures Valid() ==> forall r :: Balance(r) == old(Balance(r)) + Rate(r)
                                      && Lifetime(r) == old(Lifetime(r)) + Rate(r)
      ensures old(NonNegative()) ==> NonNegative()
    {
      AddEarnings(Rates(extractors));
      if Valid() {
        GainsOfRates(extractors);
        forall r: Resource
          ensures Balance(r) == old(Balance(r)) + Rate(r) && Lifetime(r) == old(Lifetime(r)) + Rate(r)
        {
          RatesGet(extractors, r);
        }
      }
    }

    /** `loadFromLocalStorage` after parsing: the eight numbers are overwritten
        (a missing one reads as 0), the saved levels are restored in order,
        and then each resource is paid for the time since `lastSave` at its
        RESTORED rate, capped at an hour. */
    method Load(save: ResourcesSave, now: int)
      requires Valid()
      modifies this
      ensures Valid()
      ensures extractors == RestoreLevels(old(extractors), save.extractors.GetOr([]))
      ensures Balances() == save.Balances().Plus(OfflineBonuses(save.lastSave, now, Rates(extractors)))
      ensures Lifetimes() == save.Lifetimes().Plus(OfflineBonuses(save.lastSave, now, Rates(extractors)))
    {
      RestoreSaved(save);
      CatchUp(save.lastSave, now);
    }

    /** The overwriting half of `loadFromLocalStorage`. */
    method RestoreSaved(save: ResourcesSave)
      requires Valid()
      modifies this
      ensures Valid()
      ensures extractors == RestoreLevels(old(extractors), save.extractors.GetOr([]))
      ensures Balances() == save.Balances() && Lifetimes() == save.Lifetimes()
    {
      var restored := ApplySavedLevels(extractors, save.extractors.GetOr([]));
      ferrite := save.ferrite.GetOr(0.0);
      alloyPlate := save.alloyPlate.GetOr(0.0);
      plastids := save.plastids.GetOr(0.0);
      neurodes := save.neurodes.GetOr(0.0);
      totalFerriteEarned := save.totalFerriteEarned.GetOr(0.0);
      totalAlloyPlateEarned := save.totalAlloyPlateEarned.GetOr(0.0);
      totalPlastidsEarned := save.totalPlastidsEarned.GetOr(0.0);
      totalNeurodesEarned := save.totalNeurodesEarned.GetOr(0.0);
      extractors := restored;
    }

    /** The offline half of `loadFromLocalStorage`: each resource gains the
        floor of its rate times the capped absence, when that is positive. */
    method CatchUp(lastSave: Option<int>, now: int)
      modifies this
      ensures extractors == old(extractors)
      ensures Balances() == old(Balances()).Plus(OfflineBonuses(lastSave, now, Rates(extractors)))
      ensures Lifetimes() == old(Lifetimes()).Plus(OfflineBonuses(lastSave, now, Rates(extractors)))
    {
      AddEarnings(OfflineBonuses(lastSave, now, Rates(extractors)));
      GainsOfNonNegative(OfflineBonuses(lastSave, now, Rates(extractors)));
    }

    /** `resetResources`: all eight numbers and every level back to 0, so
        that every rate is 0 again (`RatesAtLevelZero`). */
    method Reset()
      requires Valid()
      modifies this
      ensures Valid() && NonNegative()
      ensures Balances() == Zero && Lifetimes() == Zero
      ensures |extractors| == old(|extractors|)
      ensures forall i :: 0 <= i < |extractors| ==> extractors[i] == old(extractors[i]).(level := 0)
    {
      ferrite, alloyPlate, plastids, neurodes := 0.0, 0.0, 0.0, 0.0;
      totalFerriteEarned, totalAlloyPlateEarned, totalPlastidsEarned, totalNeurodesEarned := 0.0, 0.0, 0.0, 0.0;
      var i := 0;
      while i < |extractors|
        invariant 0 <= i <= |extractors| == old(|extractors|)
        invariant WellFormed(extractors)
        invariant forall j :: 0 <= j < i ==> extractors[j] == old(extractors[j]).(level := 0)
        invariant forall j :: i <= j < |extractors| ==> extractors[j] == old(extractors[j])
        invariant Balances() == Zero && Lifetimes() == Zero
      {
        LevelChangeWellFormed(extractors, i, 0);
        extractors := extractors[i := extractors[i].(level := 0)];
        i := i + 1;
      }
    }
  }
}
