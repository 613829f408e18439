/** The foundry of src/stores/foundry.ts: a catalog of blueprints paid for in
    the four materials of the resource ledger, and a first-in first-out queue
    of timed builds whose completion raises an item's `owned` count. */
module Foundry {
  import opened Wrappers
  import Resources

  datatype ItemKind = Warframe | Weapon

  datatype ItemRarity = Common | Uncommon | Rare | Legendary

  /** Each material of a cost may be missing. */
  datatype ResourceCost = ResourceCost(
    ferrite: Option<real>,
    alloyPlate: Option<real>,
    plastids: Option<real>,
    neurodes: Option<real>)

  datatype FoundryItem = FoundryItem(
    id: string,
    name: string,
    description: string,
    kind: ItemKind,
    rarity: ItemRarity,
    cost: ResourceCost,
    buildTime: nat,  // seconds
    owned: nat,      // how many times built
    unlocked: bool)

  /** A queued build. Its id stands for the string `build-<n>`, `n` being the
      value of the store's counter when the build was started. */
  datatype BuildQueueItem = BuildQueueItem(
    id: nat,
    itemId: string,
    itemName: string,
    startTime: int,  // milliseconds
    endTime: int)

  function Component(cost: ResourceCost, r: Resources.Resource): Option<real>
  {
    match r
    case Ferrite => cost.ferrite
    case AlloyPlate => cost.alloyPlate
    case Plastids => cost.plastids
    case Neurodes => cost.neurodes
  }

  /** A material is charged when its component is present and non-zero: the
      truthiness test `if (item.cost.ferrite)`. */
  predicate Charged(cost: ResourceCost, r: Resources.Resource)
  {
    Component(cost, r).Some? && Component(cost, r).value != 0.0
  }

  /** What building takes of `r`: the component when charged, else nothing. */
  function Charge(cost: ResourceCost, r: Resources.Resource): real
  {
    if Charged(cost, r) then Component(cost, r).value else 0.0
  }

  function FullCost(ferrite: real, alloyPlate: real, plastids: real, neurodes: real): ResourceCost
  {
    ResourceCost(Some(ferrite), Some(alloyPlate), Some(plastids), Some(neurodes))
  }

  /** The blueprints as the store creates them: six warframes, none owned,
      all but ASH unlocked. */
  const FoundryCatalog: seq<FoundryItem> := [
    FoundryItem("excalibur", "EXCALIBUR", "Balanced offensive Warframe with powerful exalted blade abilities",
                Warframe, Common, FullCost(180.0, 80.0, 35.0, 3.0), 60, 0, true),
    FoundryItem("mag", "MAG", "Magnetic force manipulator excelling at shield disruption",
                Warframe, Common, FullCost(120.0, 120.0, 40.0, 3.0), 60, 0, true),
    FoundryItem("rhino", "RHINO", "Heavy assault Warframe with incredible durability and crowd control",
                Warframe, Common, FullCost(80.0, 180.0, 35.0, 3.0), 60, 0, true),
    FoundryItem("trinity", "TRINITY", "Support Warframe specialized in healing and energy restoration",
                Warframe, Common, FullCost(120.0, 100.0, 50.0, 3.0), 60, 0, true),
    FoundryItem("nova", "NOVA", "Antimatter specialist capable of devastating molecular manipulation",
                Warframe, Common, FullCost(140.0, 120.0, 30.0, 4.0), 60, 0, true),
    FoundryItem("ash", "ASH", "Deadly ninja Warframe with lethal stealth capabilities",
                Warframe, Common, FullCost(150.0, 110.0, 40.0, 3.0), 60, 0, false)
  ]

  /** No two items share an id. */
  predicate DistinctIds(items: seq<FoundryItem>)
  {
    forall i, j :: 0 <= i < j < |items| ==> items[i].id != items[j].id
  }

  lemma CatalogIdsDistinct()
    ensures DistinctIds(FoundryCatalog)
  {
  }

  /** `items.find((i) => i.id === id)`, as the index of the first match. */
  function FindItem(items: seq<FoundryItem>, id: string): (k: Option<nat>)
    ensures k.None? <==> forall i :: 0 <= i < |items| ==> items[i].id != id
    ensures k.Some? ==> k.value < |items| && items[k.value].id == id
                        && forall i :: 0 <= i < k.value ==> items[i].id != id
  {
    Find(items, (i: FoundryItem) => i.id == id)
  }

  /** `buildQueue.find((b) => b.id === buildId)`, as the index of the first match. */
  function FindEntry(q: seq<BuildQueueItem>, id: nat): (k: Option<nat>)
    ensures k.None? <==> forall i :: 0 <= i < |q| ==> q[i].id != id
    ensures k.Some? ==> k.value < |q| && q[k.value].id == id
                        && forall i :: 0 <= i < k.value ==> q[i].id != id
  {
    Find(q, (b: BuildQueueItem) => b.id == id)
  }

  /** `buildQueue.some((b) => b.itemId === itemId)`. */
  predicate Queued(q: seq<BuildQueueItem>, itemId: string)
  {
    exists i :: 0 <= i < |q| && q[i].itemId == itemId
  }

  /** At most one queue entry per item. */
  predicate OneEntryPerItem(q: seq<BuildQueueItem>)
  {
    forall i, j :: 0 <= i < j < |q| ==> q[i].itemId != q[j].itemId
  }

  /** No two queue entries share an id. */
  predicate UniqueIds(q: seq<BuildQueueItem>)
  {
    forall i, j :: 0 <= i < j < |q| ==> q[i].id != q[j].id
  }

  /** One guard of `canAffordItem`: the material is charged and the balance
      falls short of it. */
  predicate ShortOf(cost: ResourceCost, r: Resources.Resource, balance: real)
  {
    Charged(cost, r) && balance < Component(cost, r).value
  }

  /** `canAffordItem`: no charged material costs more than its balance;
      a missing or zero component demands nothing. */
  predicate CanAffordItem(res: Resources.ResourceStore, item: FoundryItem): (ok: bool)
    reads res
    ensures ok <==> forall r :: Charged(item.cost, r) ==> Charge(item.cost, r) <= res.Balance(r)
  {
    && !ShortOf(item.cost, Resources.Ferrite, res.ferrite)
    && !ShortOf(item.cost, Resources.AlloyPlate, res.alloyPlate)
    && !ShortOf(item.cost, Resources.Plastids, res.plastids)
    && !ShortOf(item.cost, Resources.Neurodes, res.neurodes)
  }

  /** `canBuildItem`: not an already owned warframe, affordable, and not queued. */
  predicate CanBuildItem(res: Resources.ResourceStore, q: seq<BuildQueueItem>, item: FoundryItem)
    reads res
  {
    && !(item.kind == Warframe && item.owned > 0)
    && CanAffordItem(res, item)
    && !Queued(q, item.id)
  }

  /** The entry `startBuild` appends: the counter's id, this item, and an end
      `buildTime` seconds after `now`. */
  function NewEntry(counter: nat, item: FoundryItem, now: int): BuildQueueItem
  {
    BuildQueueItem(counter, item.id, item.name, now, now + item.buildTime * 1000)
  }

  /** The entries whose id is not in `ids`, in order:
      `buildQueue.filter((b) => b.id !== buildId)` is the case `ids == {buildId}`. */
  function RemoveIds(q: seq<BuildQueueItem>, ids: set<nat>): (r: seq<BuildQueueItem>)
    ensures |r| <= |q|
  {
    if q == [] then []
    else if q[0].id in ids then RemoveIds(q[1..], ids)
    else [q[0]] + RemoveIds(q[1..], ids)
  }

  /** `buildQueue.filter((build) => build.endTime <= now)`. */
  function Expired(q: seq<BuildQueueItem>, now: int): (r: seq<BuildQueueItem>)
    ensures |r| <= |q|
  {
    if q == [] then []
    else if q[0].endTime <= now then [q[0]] + Expired(q[1..], now)
    else Expired(q[1..], now)
  }

  /** The entries still running at `now`, in order. */
  function Live(q: seq<BuildQueueItem>, now: int): (r: seq<BuildQueueItem>)
    ensures |r| <= |q|
  {
    if q == [] then []
    else if q[0].endTime > now then [q[0]] + Live(q[1..], now)
    else Live(q[1..], now)
  }

  function Ids(q: seq<BuildQueueItem>): (ids: seq<nat>)
    ensures |ids| == |q|
  {
    seq(|q|, i requires 0 <= i < |q| => q[i].id)
  }

  function ItemIds(q: seq<BuildQueueItem>): (itemIds: seq<string>)
    ensures |itemIds| == |q|
  {
    seq(|q|, i requires 0 <= i < |q| => q[i].itemId)
  }

  /** `item.owned += 1` for the first item with this id, if there is one. */
  function Bump(items: seq<FoundryItem>, itemId: string): seq<FoundryItem>
  {
    match FindItem(items, itemId)
    case Some(k) => items[k := items[k].(owned := items[k].owned + 1)]
    case None => items
  }

  /** `completeBuild(buildId)` on items and queue: without an entry of that
      id nothing happens; otherwise the first such entry's item gains one
      `owned` and every entry with that id leaves the queue. */
  function CompleteStep(items: seq<FoundryItem>, q: seq<BuildQueueItem>, id: nat)
    : (r: (seq<FoundryItem>, seq<BuildQueueItem>))
    ensures |r.0| == |items|
    ensures r.1 == RemoveIds(q, {id})
  {
    match FindEntry(q, id)
    case None =>
      assert RemoveIds(q, {id}) == q by { RemoveAbsentIds(q, {id}); }
      (items, q)
    case Some(k) => (Bump(items, q[k].itemId), RemoveIds(q, {id}))
  }

  /** `completeBuild` applied to each id in turn. */
  function CompleteAll(items: seq<FoundryItem>, q: seq<BuildQueueItem>, ids: seq<nat>)
    : (r: (seq<FoundryItem>, seq<BuildQueueItem>))
    ensures |r.0| == |items|
  {
    if ids == [] then (items, q)
    else
      var before := CompleteAll(items, q, ids[..|ids| - 1]);
      CompleteStep(before.0, before.1, ids[|ids| - 1])
  }

  /** `Bump` for each item id in turn. */
  function BumpAll(items: seq<FoundryItem>, itemIds: seq<string>): seq<FoundryItem>
  {
    if itemIds == [] then items
    else Bump(BumpAll(items, itemIds[..|itemIds| - 1]), itemIds[|itemIds| - 1])
  }

  /** `totalFramesBuilt`: the `owned` counts of the warframes, added up. */
  function TotalFramesBuilt(items: seq<FoundryItem>): nat
  {
    if items == [] then 0
    else (if items[0].kind == Warframe then items[0].owned else 0) + TotalFramesBuilt(items[1..])
  }

  /** `availableItems`: the unlocked items, in catalog order. */
  function AvailableItems(items: seq<FoundryItem>): (r: seq<FoundryItem>)
    ensures |r| <= |items|
    ensures forall x :: x in r <==> x in items && x.unlocked
  {
    if items == [] then []
    else if items[0].unlocked then [items[0]] + AvailableItems(items[1..])
    else AvailableItems(items[1..])
  }

  /** `currentBuild`: the head of the queue, if any. */
  function CurrentBuild(q: seq<BuildQueueItem>): (r: Option<BuildQueueItem>)
    ensures r.None? <==> q == []
  {
    if |q| > 0 then Some(q[0]) else None
  }

  function Min(a: real, b: real): real
  {
    if a <= b then a else b
  }

  function Max(a: int, b: int): int
  {
    if a >= b then a else b
  }

  /** `getBuildProgress`: the elapsed share of the build in percent, capped
      at 100. Never above 100; exactly 100 once the end time is reached;
      never negative once the build has started. */
  function BuildProgress(b: BuildQueueItem, now: int): (p: real)
    requires b.endTime != b.startTime
    ensures p <= 100.0
    ensures b.startTime < b.endTime ==> (p == 100.0 <==> now >= b.endTime)
    ensures b.startTime < b.endTime && b.startTime <= now ==> p >= 0.0
  {
    var totalTime := (b.endTime - b.startTime) as real;
    var elapsed := (now - b.startTime) as real;
    ProgressShare(elapsed, totalTime);
    Min(elapsed / totalTime * 100.0, 100.0)
  }

  lemma ProgressShare(elapsed: real, totalTime: real)
    requires totalTime != 0.0
    ensures totalTime > 0.0 ==> (elapsed / totalTime * 100.0 >= 100.0 <==> elapsed >= totalTime)
    ensures totalTime > 0.0 && elapsed >= 0.0 ==> elapsed / totalTime * 100.0 >= 0.0
  {
    if totalTime > 0.0 {
      var share := elapsed / totalTime;
      assert share * totalTime == elapsed;
      if share >= 1.0 {
        assert share * totalTime >= totalTime;
      } else {
        assert share * totalTime < totalTime;
      }
    }
  }

  /** `getBuildTimeRemaining`: the time to the end in whole seconds, rounded
      up; 0 exactly when the end time is reached. */
  function BuildTimeRemaining(b: BuildQueueItem, now: int): (s: int)
    ensures s >= 0
    ensures s == 0 <==> now >= b.endTime
    ensures now < b.endTime ==> (s - 1) * 1000 < b.endTime - now <= s * 1000
  {
    var remaining := Max(b.endTime - now, 0);
    (remaining + 999) / 1000
  }

  function Elements(ids: seq<nat>): set<nat>
  {
    set x | x in ids
  }

  // Facts about the queue filters

  /** `RemoveIds` keeps exactly the entries whose id is not in the set. */
  lemma {:induction false} RemoveIdsMembers(q: seq<BuildQueueItem>, ids: set<nat>)
    ensures forall e :: e in RemoveIds(q, ids) <==> e in q && e.id !in ids
  {
    if q != [] {
      RemoveIdsMembers(q[1..], ids);
      assert q == [q[0]] + q[1..];
    }
  }

  /** `Expired` keeps exactly the entries whose end time has come. */
  lemma {:induction false} ExpiredMembers(q: seq<BuildQueueItem>, now: int)
    ensures forall e :: e in Expired(q, now) <==> e in q && e.endTime <= now
  {
    if q != [] {
      ExpiredMembers(q[1..], now);
      assert q == [q[0]] + q[1..];
    }
  }

  /** `Live` keeps exactly the entries still running. */
  lemma {:induction false} LiveMembers(q: seq<BuildQueueItem>, now: int)
    ensures forall e :: e in Live(q, now) <==> e in q && e.endTime > now
  {
    if q != [] {
      LiveMembers(q[1..], now);
      assert q == [q[0]] + q[1..];
    }
  }

  lemma {:induction false} RemoveAbsentIds(q: seq<BuildQueueItem>, ids: set<nat>)
    requires forall i :: 0 <= i < |q| ==> q[i].id !in ids
    ensures RemoveIds(q, ids) == q
  {
    if q != [] {
      RemoveAbsentIds(q[1..], ids);
    }
  }

  /** Removing in two rounds removes the union. */
  lemma {:induction false} RemoveIdsTwice(q: seq<BuildQueueItem>, a: set<nat>, b: set<nat>)
    ensures RemoveIds(RemoveIds(q, a), b) == RemoveIds(q, a + b)
  {
    if q != [] {
      RemoveIdsTwice(q[1..], a, b);
      if q[0].id !in a {
        assert RemoveIds(q, a) == [q[0]] + RemoveIds(q[1..], a);
        assert RemoveIds(q, a)[1..] == RemoveIds(q[1..], a);
      }
    }
  }

  lemma {:induction false} RemoveIdsKeepsUniqueIds(q: seq<BuildQueueItem>, ids: set<nat>)
    requires UniqueIds(q)
    ensures UniqueIds(RemoveIds(q, ids))
  {
    if q != [] {
      RemoveIdsKeepsUniqueIds(q[1..], ids);
      RemoveIdsMembers(q[1..], ids);
      if q[0].id !in ids {
        var rest := RemoveIds(q[1..], ids);
        forall e | e in rest ensures e.id != q[0].id {
          var j :| 0 <= j < |q[1..]| && q[1..][j] == e;
          assert q[j + 1] == e;
        }
      }
    }
  }

  lemma {:induction false} RemoveIdsKeepsOneEntry(q: seq<BuildQueueItem>, ids: set<nat>)
    requires OneEntryPerItem(q)
    ensures OneEntryPerItem(RemoveIds(q, ids))
  {
    if q != [] {
      RemoveIdsKeepsOneEntry(q[1..], ids);
      RemoveIdsMembers(q[1..], ids);
      if q[0].id !in ids {
        var rest := RemoveIds(q[1..], ids);
        forall e | e in rest ensures e.itemId != q[0].itemId {
          var j :| 0 <= j < |q[1..]| && q[1..][j] == e;
          assert q[j + 1] == e;
        }
      }
    }
  }

  lemma {:induction false} ExpiredKeepsUniqueIds(q: seq<BuildQueueItem>, now: int)
    requires UniqueIds(q)
    ensures UniqueIds(Expired(q, now))
  {
    if q != [] {
      ExpiredKeepsUniqueIds(q[1..], now);
      ExpiredMembers(q[1..], now);
      if q[0].endTime <= now {
        var rest := Expired(q[1..], now);
        forall e | e in rest ensures e.id != q[0].id {
          var j :| 0 <= j < |q[1..]| && q[1..][j] == e;
          assert q[j + 1] == e;
        }
      }
    }
  }

  /** Removing exactly the ids of the expired entries leaves the live ones. */
  lemma {:induction false} RemoveExpiredIsLive(q: seq<BuildQueueItem>, ids: set<nat>, now: int)
    requires forall i :: 0 <= i < |q| ==> (q[i].id in ids <==> q[i].endTime <= now)
    ensures RemoveIds(q, ids) == Live(q, now)
  {
    if q != [] {
      RemoveExpiredIsLive(q[1..], ids, now);
    }
  }

  // Completing builds

  /** What removing ids keeps: no entry with a removed id is left, and
      distinct ids, one entry per item and ids below a bound all survive. */
  lemma RemoveIdsKeeps(q: seq<BuildQueueItem>, ids: set<nat>, bound: nat)
    ensures forall i :: 0 <= i < |RemoveIds(q, ids)| ==> RemoveIds(q, ids)[i].id !in ids
    ensures UniqueIds(q) ==> UniqueIds(RemoveIds(q, ids))
    ensures OneEntryPerItem(q) ==> OneEntryPerItem(RemoveIds(q, ids))
    ensures (forall i :: 0 <= i < |q| ==> q[i].id < bound) ==>
              forall i :: 0 <= i < |RemoveIds(q, ids)| ==> RemoveIds(q, ids)[i].id < bound
  {
    var r := RemoveIds(q, ids);
    RemoveIdsMembers(q, ids);
    forall i | 0 <= i < |r| ensures r[i] in q && r[i].id !in ids {
      assert r[i] in r;
    }
    if UniqueIds(q) {
      RemoveIdsKeepsUniqueIds(q, ids);
    }
    if OneEntryPerItem(q) {
      RemoveIdsKeepsOneEntry(q, ids);
    }
  }

  /** `RemoveIdsKeeps` for the single id `completeBuild` filters out. */
  lemma RemoveIdKeeps(q: seq<BuildQueueItem>, id: nat, bound: nat)
    ensures forall i :: 0 <= i < |RemoveIds(q, {id})| ==> RemoveIds(q, {id})[i].id != id
    ensures UniqueIds(q) ==> UniqueIds(RemoveIds(q, {id}))
    ensures OneEntryPerItem(q) ==> OneEntryPerItem(RemoveIds(q, {id}))
    ensures (forall i :: 0 <= i < |q| ==> q[i].id < bound) ==>
              forall i :: 0 <= i < |RemoveIds(q, {id})| ==> RemoveIds(q, {id})[i].id < bound
  {
    var r := RemoveIds(q, {id});
    RemoveIdsKeeps(q, {id}, bound);
    forall i | 0 <= i < |r| ensures r[i].id != id {
      assert r[i].id !in {id};
    }
  }

  /** A second `completeBuild` with the same id changes nothing. */
  lemma CompleteStepIdempotent(items: seq<FoundryItem>, q: seq<BuildQueueItem>, id: nat)
    ensures var once := CompleteStep(items, q, id);
      CompleteStep(once.0, once.1, id) == once
  {
    var once := CompleteStep(items, q, id);
    RemoveIdsMembers(q, {id});
    assert forall i :: 0 <= i < |once.1| ==> once.1[i].id != id by {
      forall i | 0 <= i < |once.1| ensures once.1[i].id != id {
        assert once.1[i] in once.1;
      }
    }
  }

  /** With unique ids, completing a queued build gives its item exactly one
      more `owned`, takes out exactly that entry, and keeps the others in
      order. */
  lemma CompleteStepUnique(items: seq<FoundryItem>, q: seq<BuildQueueItem>, k: nat)
    requires UniqueIds(q) && k < |q|
    ensures CompleteStep(items, q, q[k].id) == (Bump(items, q[k].itemId), q[..k] + q[k + 1..])
  {
    var found := FindEntry(q, q[k].id);
    assert found == Some(k);
    RemoveOneId(q, k);
  }

  lemma {:induction false} RemoveOneId(q: seq<BuildQueueItem>, k: nat)
    requires UniqueIds(q) && k < |q|
    ensures RemoveIds(q, {q[k].id}) == q[..k] + q[k + 1..]
  {
    if k == 0 {
      RemoveHeadId(q);
      assert q[..k] + q[k + 1..] == q[1..];
    } else {
      var tail := q[1..];
      UniqueIdsTail(q);
      assert tail[k - 1] == q[k];
      RemoveOneId(tail, k - 1);
      assert RemoveIds(q, {q[k].id}) == [q[0]] + RemoveIds(tail, {q[k].id});
      assert q[..k] + q[k + 1..] == [q[0]] + (tail[..k - 1] + tail[k..]);
    }
  }

  lemma RemoveHeadId(q: seq<BuildQueueItem>)
    requires UniqueIds(q) && q != []
    ensures RemoveIds(q, {q[0].id}) == q[1..]
  {
    var tail := q[1..];
    forall i | 0 <= i < |tail| ensures tail[i].id !in {q[0].id} {
      assert tail[i] == q[i + 1];
    }
    RemoveAbsentIds(tail, {q[0].id});
  }

  lemma UniqueIdsTail(q: seq<BuildQueueItem>)
    requires UniqueIds(q) && q != []
    ensures UniqueIds(q[1..])
  {
    var tail := q[1..];
    forall i, j | 0 <= i < j < |tail| ensures tail[i].id != tail[j].id {
      assert tail[i] == q[i + 1] && tail[j] == q[j + 1];
    }
  }

  /** Whatever the ids, completing a list of ids filters out every entry
      whose id is in the list. */
  lemma {:induction false} CompleteAllQueue(items: seq<FoundryItem>, q: seq<BuildQueueItem>, ids: seq<nat>)
    ensures CompleteAll(items, q, ids).1 == RemoveIds(q, Elements(ids))
  {
    if ids == [] {
      assert Elements(ids) == {};
      RemoveAbsentIds(q, {});
    } else {
      var init := ids[..|ids| - 1];
      var last := ids[|ids| - 1];
      CompleteAllQueue(items, q, init);
      var before := CompleteAll(items, q, init);
      RemoveIdsTwice(q, Elements(init), {last});
      assert Elements(ids) == Elements(init) + {last} by {
        assert ids == init + [last];
      }
    }
  }

  /** With unique ids, completing the builds of `s`, a list of distinct
      queued entries, bumps exactly their items and removes exactly them. */
  lemma {:induction false} CompleteAllUnique(items: seq<FoundryItem>, q: seq<BuildQueueItem>, s: seq<BuildQueueItem>)
    requires UniqueIds(q) && UniqueIds(s)
    requires forall e :: e in s ==> e in q
    ensures CompleteAll(items, q, Ids(s)) == (BumpAll(items, ItemIds(s)), RemoveIds(q, Elements(Ids(s))))
  {
    CompleteAllQueue(items, q, Ids(s));
    if s != [] {
      var init := s[..|s| - 1];
      var x := s[|s| - 1];
      assert Ids(s)[..|s| - 1] == Ids(init);
      assert ItemIds(s)[..|s| - 1] == ItemIds(init);
      CompleteAllUnique(items, q, init);
      var done := Elements(Ids(init));
      var rest := RemoveIds(q, done);
      assert x.id !in done by {
        forall j | 0 <= j < |init| ensures Ids(init)[j] != x.id {
          assert s[j] == init[j];
        }
      }
      RemoveIdsKeepsUniqueIds(q, done);
      RemoveIdsMembers(q, done);
      assert x in rest;
      var k := FindEntry(rest, x.id).value;
      var j :| 0 <= j < |rest| && rest[j] == x;
      assert rest[k] == x;
    }
  }

  /** `Bump` touches only the item with that id, when ids are distinct. */
  lemma BumpCount(items: seq<FoundryItem>, itemId: string)
    requires DistinctIds(items)
    ensures |Bump(items, itemId)| == |items|
    ensures forall i :: 0 <= i < |items| ==>
      Bump(items, itemId)[i] == items[i].(owned := items[i].owned + if items[i].id == itemId then 1 else 0)
  {
  }

  /** Each item gains one `owned` per occurrence of its id. */
  lemma {:induction false} BumpAllCount(items: seq<FoundryItem>, itemIds: seq<string>)
    requires DistinctIds(items)
    ensures |BumpAll(items, itemIds)| == |items|
    ensures forall i :: 0 <= i < |items| ==>
      BumpAll(items, itemIds)[i] == items[i].(owned := items[i].owned + multiset(itemIds)[items[i].id])
  {
    if itemIds != [] {
      var init := itemIds[..|itemIds| - 1];
      var last := itemIds[|itemIds| - 1];
      assert itemIds == init + [last];
      BumpAllCount(items, init);
      var before := BumpAll(items, init);
      assert DistinctIds(before) by {
        assert forall i :: 0 <= i < |items| ==> before[i].id == items[i].id;
      }
      BumpCount(before, last);
    }
  }

  /** Completing the expired entries of a queue with unique ids leaves exactly
      the live entries, and each item gains one `owned` per expired entry of
      its own. */
  lemma CheckQueueUnique(items: seq<FoundryItem>, q: seq<BuildQueueItem>, now: int)
    requires UniqueIds(q) && DistinctIds(items)
    ensures var after := CompleteAll(items, q, Ids(Expired(q, now)));
      && after.1 == Live(q, now)
      && |after.0| == |items|
      && forall i :: 0 <= i < |items| ==>
           after.0[i] == items[i].(owned := items[i].owned + multiset(ItemIds(Expired(q, now)))[items[i].id])
  {
    var s := Expired(q, now);
    ExpiredKeepsUniqueIds(q, now);
    ExpiredMembers(q, now);
    CompleteAllUnique(items, q, s);
    BumpAllCount(items, ItemIds(s));
    var ids := Elements(Ids(s));
    forall i | 0 <= i < |q| ensures q[i].id in ids <==> q[i].endTime <= now {
      if q[i].endTime <= now {
        var j :| 0 <= j < |s| && s[j] == q[i];
        assert Ids(s)[j] == q[i].id;
      }
      if q[i].id in ids {
        var j :| 0 <= j < |s| && Ids(s)[j] == q[i].id;
        assert s[j] in q;
        var m :| 0 <= m < |q| && q[m] == s[j];
        assert m == i;
      }
    }
    RemoveExpiredIsLive(q, ids, now);
  }

  /** Whatever the ids, no expired entry survives a check. */
  lemma NoExpiredLeft(items: seq<FoundryItem>, q: seq<BuildQueueItem>, now: int)
    ensures var after := CompleteAll(items, q, Ids(Expired(q, now)));
      forall i :: 0 <= i < |after.1| ==> after.1[i].endTime > now
  {
    var s := Expired(q, now);
    CompleteAllQueue(items, q, Ids(s));
    var after := CompleteAll(items, q, Ids(s));
    RemoveIdsMembers(q, Elements(Ids(s)));
    ExpiredMembers(q, now);
    forall i | 0 <= i < |after.1| ensures after.1[i].endTime > now {
      var e := after.1[i];
      assert e in after.1;
      forall j | 0 <= j < |s| ensures s[j] != e {
        assert Ids(s)[j] in Ids(s);
      }
    }
  }

  /** What a check leaves, whatever the ids: no expired entry, one entry per
      item and fresh ids if they held before; and with unique ids, exactly
      the live entries and one more `owned` per expired entry of an item. */
  lemma CheckOutcome(items: seq<FoundryItem>, q: seq<BuildQueueItem>, now: int, bound: nat)
    requires DistinctIds(items)
    ensures var after := CompleteAll(items, q, Ids(Expired(q, now)));
      && (forall i :: 0 <= i < |after.1| ==> after.1[i].endTime > now)
      && (OneEntryPerItem(q) ==> OneEntryPerItem(after.1))
      && (UniqueIds(q) ==> UniqueIds(after.1))
      && ((forall i :: 0 <= i < |q| ==> q[i].id < bound) ==> forall i :: 0 <= i < |after.1| ==> after.1[i].id < bound)
      && (UniqueIds(q) ==>
            && after.1 == Live(q, now)
            && forall i :: 0 <= i < |items| ==>
                 after.0[i] == items[i].(owned := items[i].owned + multiset(ItemIds(Expired(q, now)))[items[i].id]))
  {
    var ids := Ids(Expired(q, now));
    CompleteAllQueue(items, q, ids);
    RemoveIdsKeeps(q, Elements(ids), bound);
    NoExpiredLeft(items, q, now);
    if UniqueIds(q) {
      CheckQueueUnique(items, q, now);
    }
  }

  /** Building a warframe adds one to `totalFramesBuilt`; a weapon adds nothing. */
  lemma {:induction false} TotalFramesAfterBump(items: seq<FoundryItem>, k: nat)
    requires k < |items|
    ensures TotalFramesBuilt(items[k := items[k].(owned := items[k].owned + 1)])
         == TotalFramesBuilt(items) + if items[k].kind == Warframe then 1 else 0
  {
    var items' := items[k := items[k].(owned := items[k].owned + 1)];
    if k == 0 {
      assert items'[1..] == items[1..];
    } else {
      assert items'[1..] == items[1..][k - 1 := items[1..][k - 1].(owned := items[1..][k - 1].owned + 1)];
      TotalFramesAfterBump(items[1..], k - 1);
    }
  }

  lemma {:induction false} NoFramesWhenNoneOwned(items: seq<FoundryItem>)
    requires forall i :: 0 <= i < |items| ==> items[i].owned == 0
    ensures TotalFramesBuilt(items) == 0
  {
    if items != [] {
      NoFramesWhenNoneOwned(items[1..]);
    }
  }

  // Loading

  datatype SavedItem = SavedItem(id: string, owned: nat, unlocked: bool)

  /** The parsed `cephalon-foundry` record; either field may be missing. */
  datatype FoundrySave = FoundrySave(items: Option<seq<SavedItem>>, buildQueue: Option<seq<BuildQueueItem>>)

  /** The last saved record with this id, which the restoring `forEach`
      leaves in force. */
  function LastSavedItem(saved: seq<SavedItem>, id: string): (r: Option<SavedItem>)
    ensures r.None? <==> forall i :: 0 <= i < |saved| ==> saved[i].id != id
    ensures r.Some? ==> r.value in saved && r.value.id == id
  {
    if saved == [] then None
    else if saved[|saved| - 1].id == id then Some(saved[|saved| - 1])
    else LastSavedItem(saved[..|saved| - 1], id)
  }

  /** The items a load leaves: each takes `owned` and `unlocked` from the
      last saved record with its id; unknown ids are ignored. */
  function RestoreItems(items: seq<FoundryItem>, saved: seq<SavedItem>): (restored: seq<FoundryItem>)
    ensures |restored| == |items|
    ensures forall i :: 0 <= i < |items| ==>
      restored[i] == items[i].(owned := restored[i].owned, unlocked := restored[i].unlocked)
  {
    seq(|items|, i requires 0 <= i < |items| =>
      match LastSavedItem(saved, items[i].id)
      case Some(s) => items[i].(owned := s.owned, unlocked := s.unlocked)
      case None => items[i])
  }

  /** What one saved record does: the first item with its id takes its
      `owned` and `unlocked`. */
  function ApplySavedItem(items: seq<FoundryItem>, s: SavedItem): seq<FoundryItem>
  {
    match FindItem(items, s.id)
    case Some(k) => items[k := items[k].(owned := s.owned, unlocked := s.unlocked)]
    case None => items
  }

  lemma RestoreItemsStep(items: seq<FoundryItem>, saved: seq<SavedItem>, s: SavedItem)
    requires DistinctIds(items)
    ensures RestoreItems(items, saved + [s]) == ApplySavedItem(RestoreItems(items, saved), s)
  {
    assert (saved + [s])[..|saved|] == saved;
  }

  /** A saved record whose id is not in the catalog changes nothing. */
  lemma RestoreIgnoresUnknownItem(items: seq<FoundryItem>, saved: seq<SavedItem>, s: SavedItem)
    requires forall i :: 0 <= i < |items| ==> items[i].id != s.id
    ensures RestoreItems(items, saved + [s]) == RestoreItems(items, saved)
  {
    assert (saved + [s])[..|saved|] == saved;
  }

  lemma RestoreKeepsIds(items: seq<FoundryItem>, saved: seq<SavedItem>)
    requires DistinctIds(items)
    ensures DistinctIds(RestoreItems(items, saved))
  {
    var restored := RestoreItems(items, saved);
    assert forall i :: 0 <= i < |items| ==> restored[i].id == items[i].id;
  }

  /** The restoring `forEach` over the saved items. */
  method ApplySavedItems(items: seq<FoundryItem>, saved: seq<SavedItem>) returns (restored: seq<FoundryItem>)
    requires DistinctIds(items)
    ensures restored == RestoreItems(items, saved)
  {
    restored := items;
    var i := 0;
    while i < |saved|
      invariant 0 <= i <= |saved|
      invariant restored == RestoreItems(items, saved[..i])
    {
      ghost var previous := restored;
      var found := FindItem(restored, saved[i].id);
      if found.Some? {
        restored := restored[found.value := restored[found.value].(owned := saved[i].owned, unlocked := saved[i].unlocked)];
      }
      assert restored == ApplySavedItem(previous, saved[i]);
      RestoreItemsStep(items, saved[..i], saved[i]);
      assert saved[..i + 1] == saved[..i] + [saved[i]];
      i := i + 1;
    }
    assert saved[..i] == saved;
  }

  /** An id above every id in the queue. */
  function NextFreeId(q: seq<BuildQueueItem>): (n: nat)
    ensures forall i :: 0 <= i < |q| ==> q[i].id < n
  {
    if q == [] then 0
    else
      var rest := NextFreeId(q[1..]);
      if q[0].id + 1 > rest then q[0].id + 1 else rest
  }

  /** After a reload the counter starts again at 0 while the saved queue comes
      back: a build started then takes the id of a restored one, and
      completing either completes both entries but only the restored item. */
  lemma RestoredQueueIdClash(now: int)
    ensures var restored := [NewEntry(0, FoundryCatalog[0], now)];
      var q := restored + [NewEntry(0, FoundryCatalog[1], now)];
      var after := CompleteStep(FoundryCatalog, q, 0);
      && !UniqueIds(q)
      && after.1 == []
      && after.0[0].owned == 1
      && after.0[1].owned == 0
  {
    var q := [NewEntry(0, FoundryCatalog[0], now)] + [NewEntry(0, FoundryCatalog[1], now)];
    assert q[0].id == q[1].id;
    assert FindEntry(q, 0) == Some(0);
    assert FindItem(FoundryCatalog, "excalibur") == Some(0);
    var bumped := Bump(FoundryCatalog, "excalibur");
    assert bumped[0].owned == 1 && bumped[1].owned == 0;
    assert RemoveIds(q[1..], {0}) == [];
    assert RemoveIds(q, {0}) == [];
  }

  /** Takes `amount` of `r` from the resource ledger when that material is
      charged: one line of `startBuild`'s deduction. */
  method Spend(res: Resources.ResourceStore, cost: ResourceCost, r: Resources.Resource)
    modifies res
    ensures res.extractors == old(res.extractors)
    ensures forall s :: res.Lifetime(s) == old(res.Lifetime(s))
    ensures forall s :: res.Balance(s) == old(res.Balance(s)) - if s == r then Charge(cost, r) else 0.0
  {
    if Charged(cost, r) {
      var amount := Component(cost, r).value;
      match r
      case Ferrite => res.ferrite := res.ferrite - amount;
      case AlloyPlate => res.alloyPlate := res.alloyPlate - amount;
      case Plastids => res.plastids := res.plastids - amount;
      case Neurodes => res.neurodes := res.neurodes - amount;
    }
  }

  class FoundryStore {
    var items: seq<FoundryItem>
    var buildQueue: seq<BuildQueueItem>
    var buildQueueIdCounter: nat

    ghost predicate Valid()
      reads this
    {
      DistinctIds(items)
    }

    /** What holds within one session: queue ids are distinct and below the
        counter, so the next build gets a fresh id. */
    ghost predicate FreshIds()
      reads this
    {
      && UniqueIds(buildQueue)
      && forall i :: 0 <= i < |buildQueue| ==> buildQueue[i].id < buildQueueIdCounter
    }

    /** The store before its first load. */
    constructor ()
      ensures Valid() && items == FoundryCatalog
      ensures buildQueue == [] && buildQueueIdCounter == 0
      ensures FreshIds() && OneEntryPerItem(buildQueue)
    {
      items := FoundryCatalog;
      CatalogIdsDistinct();
      buildQueue := [];
      buildQueueIdCounter := 0;
    }

    /** `startBuild`: a known item that `canBuildItem` admits is paid for,
        material by material, and queued at the end under the next id;
        otherwise nothing changes in either store. */
    method StartBuild(res: Resources.ResourceStore, itemId: string, now: int) returns (ok: bool)
      requires Valid()
      modifies this, res
      ensures Valid() && items == old(items)
      ensures res.extractors == old(res.extractors)
      ensures forall r :: res.Lifetime(r) == old(res.Lifetime(r))
      ensures ok <==> old(FindItem(items, itemId).Some?
                          && CanBuildItem(res, buildQueue, items[FindItem(items, itemId).value]))
      ensures !ok ==> && buildQueue == old(buildQueue)
                      && buildQueueIdCounter == old(buildQueueIdCounter)
                      && forall r :: res.Balance(r) == old(res.Balance(r))
      ensures ok ==>
        var item := old(items)[FindItem(old(items), itemId).value];
        && (forall r :: res.Balance(r) == old(res.Balance(r)) - Charge(item.cost, r))
        && (forall r :: Charged(item.cost, r) ==> res.Balance(r) >= 0.0)
        && buildQueue == old(buildQueue) + [NewEntry(old(buildQueueIdCounter), item, now)]
        && buildQueueIdCounter == old(buildQueueIdCounter) + 1
      ensures old(OneEntryPerItem(buildQueue)) ==> OneEntryPerItem(buildQueue)
      ensures old(FreshIds()) ==> FreshIds()
      ensures old(buildQueue) != [] ==> CurrentBuild(buildQueue) == old(CurrentBuild(buildQueue))
    {
      var found := FindItem(items, itemId);
      if found.None? {
        return false;
      }
      var item := items[found.value];
      if !CanAffordItem(res, item) {
        return false;
      }
      if item.kind == Warframe && item.owned > 0 {
        return false;
      }
      if Queued(buildQueue, itemId) {
        return false;
      }

      Spend(res, item.cost, Resources.Ferrite);
      Spend(res, item.cost, Resources.AlloyPlate);
      Spend(res, item.cost, Resources.Plastids);
      Spend(res, item.cost, Resources.Neurodes);

      buildQueue := buildQueue + [NewEntry(buildQueueIdCounter, item, now)];
      buildQueueIdCounter := buildQueueIdCounter + 1;
      return true;
    }

    /** `completeBuild`: see `CompleteStep`. Afterwards no entry carries
        this id, so a second call changes nothing. */
    method CompleteBuild(buildId: nat)
      requires Valid()
      modifies this
      ensures Valid()
      ensures (items, buildQueue) == CompleteStep(old(items), old(buildQueue), buildId)
      ensures buildQueueIdCounter == old(buildQueueIdCounter)
      ensures forall i :: 0 <= i < |buildQueue| ==> buildQueue[i].id != buildId
      ensures old(OneEntryPerItem(buildQueue)) ==> OneEntryPerItem(buildQueue)
      ensures old(FreshIds()) ==> FreshIds()
    {
      var found := FindEntry(buildQueue, buildId);
      if found.None? {
        return;
      }
      var build := buildQueue[found.value];
      var k := FindItem(items, build.itemId);
      if k.Some? {
        items := items[k.value := items[k.value].(owned := items[k.value].owned + 1)];
      }
      ghost var before := buildQueue;
      buildQueue := RemoveIds(buildQueue, {buildId});
      RemoveIdKeeps(before, buildId, buildQueueIdCounter);
    }

    /** `rushBuild`: true, and the effect of `completeBuild` whatever the end
        time, exactly when the id is queued; otherwise false and no change. */
    method RushBuild(buildId: nat) returns (ok: bool)
      requires Valid()
      modifies this
      ensures Valid()
      ensures ok <==> FindEntry(old(buildQueue), buildId).Some?
      ensures (items, buildQueue) == CompleteStep(old(items), old(buildQueue), buildId)
      ensures buildQueueIdCounter == old(buildQueueIdCounter)
    {
      var found := FindEntry(buildQueue, buildId);
      if found.None? {
        return false;
      }
      CompleteBuild(buildId);
      return true;
    }

    /** `checkBuildQueue`: completes, in queue order, every entry that has
        reached its end time. No expired entry is left; with unique ids the
        live entries stay in order and each item gains one `owned` per
        expired entry of its own. */
    method CheckBuildQueue(now: int)
      requires Valid()
      modifies this
      ensures Valid()
      ensures (items, buildQueue) == CompleteAll(old(items), old(buildQueue), Ids(Expired(old(buildQueue), now)))
      ensures buildQueueIdCounter == old(buildQueueIdCounter)
      ensures forall i :: 0 <= i < |buildQueue| ==> buildQueue[i].endTime > now
      ensures old(UniqueIds(buildQueue)) ==>
        && buildQueue == Live(old(buildQueue), now)
        && forall i :: 0 <= i < |items| ==>
             items[i] == old(items[i]).(owned := old(items[i].owned) + multiset(ItemIds(Expired(old(buildQueue), now)))[items[i].id])
      ensures old(OneEntryPerItem(buildQueue)) ==> OneEntryPerItem(buildQueue)
      ensures old(FreshIds()) ==> FreshIds()
    {
      ghost var items0, queue0 := items, buildQueue;
      CompleteEach(Ids(Expired(buildQueue, now)));
      CheckOutcome(items0, queue0, now, buildQueueIdCounter);
    }

    /** The loop of `checkBuildQueue`: `completeBuild` on each id in turn. */
    method CompleteEach(ids: seq<nat>)
      requires Valid()
      modifies this
      ensures Valid()
      ensures (items, buildQueue) == CompleteAll(old(items), old(buildQueue), ids)
      ensures buildQueueIdCounter == old(buildQueueIdCounter)
    {
      var i := 0;
      while i < |ids|
        invariant 0 <= i <= |ids|
        invariant Valid() && buildQueueIdCounter == old(buildQueueIdCounter)
        invariant (items, buildQueue) == CompleteAll(old(items), old(buildQueue), ids[..i])
      {
        assert ids[..i + 1][..i] == ids[..i];
        CompleteBuild(ids[i]);
        i := i + 1;
      }
      assert ids[..i] == ids;
    }

    /** `loadFromLocalStorage` after parsing: saved `owned` and `unlocked`
        values are merged into the catalog by id, the last record winning
        and unknown ids ignored; the saved queue replaces the current one,
        a missing queue reading as empty. The id counter is not saved and
        keeps its value. */
    method Load(save: FoundrySave)
      requires Valid()
      modifies this
      ensures Valid()
      ensures items == RestoreItems(old(items), save.items.GetOr([]))
      ensures buildQueue == save.buildQueue.GetOr([])
      ensures buildQueueIdCounter == old(buildQueueIdCounter)
    {
      var restored := ApplySavedItems(items, save.items.GetOr([]));
      RestoreKeepsIds(items, save.items.GetOr([]));
      items := restored;
      buildQueue := save.buildQueue.GetOr([]);
    }

    /** `Load`, with the counter moved past every restored id, so that builds
        started after a reload get fresh ids. */
    method LoadWithFreshCounter(save: FoundrySave)
      requires Valid()
      modifies this
      ensures Valid()
      ensures items == RestoreItems(old(items), save.items.GetOr([]))
      ensures buildQueue == save.buildQueue.GetOr([])
      ensures buildQueueIdCounter >= old(buildQueueIdCounter)
      ensures forall i :: 0 <= i < |buildQueue| ==> buildQueue[i].id < buildQueueIdCounter
      ensures UniqueIds(buildQueue) ==> FreshIds()
    {
      Load(save);
      var next := NextFreeId(buildQueue);
      if next > buildQueueIdCounter {
        buildQueueIdCounter := next;
      }
    }

    /** `resetFoundry`: every `owned` back to 0 and the queue emptied; the
        `unlocked` flags and the id counter are kept. */
    method Reset()
      requires Valid()
      modifies this
      ensures Valid()
      ensures |items| == old(|items|)
      ensures forall i :: 0 <= i < |items| ==> items[i] == old(items[i]).(owned := 0)
      ensures buildQueue == [] && buildQueueIdCounter == old(buildQueueIdCounter)
      ensures TotalFramesBuilt(items) == 0
      ensures FreshIds() && OneEntryPerItem(buildQueue)
    {
      var i := 0;
      while i < |items|
        invariant 0 <= i <= |items| && |items| == old(|items|)
        invariant buildQueueIdCounter == old(buildQueueIdCounter)
        invariant forall j :: 0 <= j < i ==> items[j] == old(items[j]).(owned := 0)
        invariant forall j :: i <= j < |items| ==> items[j] == old(items[j])
      {
        items := items[i := items[i].(owned := 0)];
        i := i + 1;
      }
      buildQueue := [];
      NoFramesWhenNoneOwned(items);
    }
  }
}
