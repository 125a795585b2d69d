/**
 * The five-minute freshness cache (internal/cache/cache.go): one slot per bulk
 * collection and one per ticker for income statements. The clock is the
 * explicit parameter `now` (nanoseconds) where the source reads time.Now().
 */
module Cache {
  import opened Wrappers
  import opened Types
  import opened Entities

  const CacheDuration: int := 5 * Minute

  /** A stored collection and the time it was stored. */
  datatype Slot = Slot(data: seq<Record>, timestamp: int)

  /** One entry of GetInfo's diagnostic map. */
  datatype SlotInfo = SlotInfo(count: nat, timestamp: int, age: int, isFresh: bool)

  /** isFresh: strictly less than `duration` has passed since `timestamp`. */
  predicate Fresh(duration: int, timestamp: int, now: int) {
    now - timestamp < duration
  }

  /** The contents of a cache as a value: its duration, its eleven slots and its income statements. */
  datatype Snapshot = Snapshot(
    duration: int,
    bluechips: Option<Slot>, cedears: Option<Slot>, galpones: Option<Slot>,
    bonds: Option<Slot>, shortBonds: Option<Slot>, corporateBonds: Option<Slot>,
    options: Option<Slot>, futures: Option<Slot>, indices: Option<Slot>,
    marketSummary: Option<Slot>, news: Option<Slot>,
    income: map<string, Slot>)
  {
    /** The slot of a bulk collection. */
    function At(c: Category): Option<Slot> {
      match c
      case Bluechips => bluechips
      case Cedears => cedears
      case Galpones => galpones
      case Bonds => bonds
      case ShortTermBonds => shortBonds
      case CorporateBonds => corporateBonds
      case Options => options
      case Futures => futures
      case Indices => indices
      case MarketSummary => marketSummary
      case News => news
    }

    /** The snapshot after storing `slot` for collection `c`. */
    function Put(c: Category, slot: Slot): (s: Snapshot)
      ensures s.At(c) == Some(slot)
      ensures forall d :: d != c ==> s.At(d) == At(d)
      ensures s.duration == duration && s.income == income
    {
      match c
      case Bluechips => this.(bluechips := Some(slot))
      case Cedears => this.(cedears := Some(slot))
      case Galpones => this.(galpones := Some(slot))
      case Bonds => this.(bonds := Some(slot))
      case ShortTermBonds => this.(shortBonds := Some(slot))
      case CorporateBonds => this.(corporateBonds := Some(slot))
      case Options => this.(options := Some(slot))
      case Futures => this.(futures := Some(slot))
      case Indices => this.(indices := Some(slot))
      case MarketSummary => this.(marketSummary := Some(slot))
      case News => this.(news := Some(slot))
    }

    /** What a Get of the endpoint at time `now` finds: the data of a fresh slot, else nothing. */
    function Find(e: Endpoint, now: int): Option<seq<Record>> {
      var slot := match e
        case Bulk(c) => At(c)
        case IncomeStatements(t) => if t in income then Some(income[t]) else None;
      if slot.Some? && Fresh(duration, slot.value.timestamp, now) then Some(slot.value.data) else None
    }
  }

  /** A new cache's snapshot: every slot and the income statements empty. */
  function EmptySnapshot(duration: int): Snapshot {
    Snapshot(duration, None, None, None, None, None, None, None, None, None, None, None, map[])
  }

  /** The three security collections, the only ones GetInfo reports. */
  predicate IsSecurityCollection(c: Category) {
    c.Bluechips? || c.Cedears? || c.Galpones?
  }

  /** The GetInfo key of a security collection. */
  function InfoKey(c: Category): string
    requires IsSecurityCollection(c)
  {
    match c
    case Bluechips => "bluechips"
    case Cedears => "cedears"
    case Galpones => "galpones"
  }

  class Cache {
    const duration: int

    var bluechips: Option<Slot>
    var cedears: Option<Slot>
    var galpones: Option<Slot>
    var bonds: Option<Slot>
    var shortBonds: Option<Slot>
    var corporateBonds: Option<Slot>
    var options: Option<Slot>
    var futures: Option<Slot>
    var indices: Option<Slot>
    var marketSummary: Option<Slot>
    var news: Option<Slot>

    var incomeStatements: map<string, Slot>

    /** New: every slot empty, duration five minutes. */
    constructor ()
      ensures duration == CacheDuration
      ensures IsEmpty()
      ensures View() == EmptySnapshot(CacheDuration)
    {
      duration := CacheDuration;
      bluechips, cedears, galpones := None, None, None;
      bonds, shortBonds, corporateBonds := None, None, None;
      options, futures, indices, marketSummary, news := None, None, None, None, None;
      incomeStatements := map[];
    }

    /** The cache's contents as a value. */
    function View(): Snapshot
      reads this
    {
      Snapshot(duration, bluechips, cedears, galpones, bonds, shortBonds, corporateBonds,
               options, futures, indices, marketSummary, news, incomeStatements)
    }

    /** The slot field of a bulk collection. */
    function SlotOf(c: Category): Option<Slot>
      reads this
    {
      View().At(c)
    }

    ghost predicate IsEmpty()
      reads this
    {
      (forall c :: SlotOf(c) == None) && incomeStatements == map[]
    }

    /** isFresh: strictly less than `duration` has passed since `timestamp`. */
    function IsFresh(timestamp: int, now: int): (b: bool)
      ensures b <==> now < timestamp + duration
      ensures b ==> forall t :: t <= now ==> Fresh(duration, timestamp, t)
    {
      Fresh(duration, timestamp, now)
    }

    /** What a Get of the endpoint at time `now` finds. */
    function Cached(e: Endpoint, now: int): Option<seq<Record>>
      reads this
    {
      View().Find(e, now)
    }

    /**
     * GetBluechips, GetCedears, ... GetNews: found iff the slot exists and is
     * fresh; an absent and a stale slot both give (nil, false). Nothing is
     * changed, in particular a stale slot is not removed.
     */
    method Get(c: Category, now: int) returns (data: seq<Record>, found: bool)
      ensures found <==> SlotOf(c).Some? && now - SlotOf(c).value.timestamp < duration
      ensures found ==> data == SlotOf(c).value.data
      ensures !found ==> data == []
      ensures Cached(Bulk(c), now) == if found then Some(data) else None
    {
      var slot := SlotOf(c);
      if slot.Some? && IsFresh(slot.value.timestamp, now) {
        return slot.value.data, true;
      }
      return [], false;
    }

    /**
     * SetBluechips, ... SetNews: the slot becomes (data, now), whatever it held;
     * every other slot and the income statements stay as they were.
     */
    method Set(c: Category, data: seq<Record>, now: int)
      modifies this
      ensures View() == old(View()).Put(c, Slot(data, now))
      ensures SlotOf(c) == Some(Slot(data, now))
      ensures forall d :: d != c ==> SlotOf(d) == old(SlotOf(d))
      ensures incomeStatements == old(incomeStatements)
      ensures forall t :: now <= t < now + duration ==> Cached(Bulk(c), t) == Some(data)
      ensures forall t :: t >= now + duration ==> Cached(Bulk(c), t) == None
    {
      var slot := Some(Slot(data, now));
      match c
      case Bluechips => bluechips := slot;
      case Cedears => cedears := slot;
      case Galpones => galpones := slot;
      case Bonds => bonds := slot;
      case ShortTermBonds => shortBonds := slot;
      case CorporateBonds => corporateBonds := slot;
      case Options => options := slot;
      case Futures => futures := slot;
      case Indices => indices := slot;
      case MarketSummary => marketSummary := slot;
      case News => news := slot;
    }

    /** GetIncomeStatement: the same rule, on the slot of exactly this ticker. */
    method GetIncomeStatement(ticker: string, now: int) returns (data: seq<Record>, found: bool)
      ensures found <==> ticker in incomeStatements && now - incomeStatements[ticker].timestamp < duration
      ensures found ==> data == incomeStatements[ticker].data
      ensures !found ==> data == []
      ensures Cached(IncomeStatements(ticker), now) == if found then Some(data) else None
    {
      if ticker in incomeStatements && IsFresh(incomeStatements[ticker].timestamp, now) {
        return incomeStatements[ticker].data, true;
      }
      return [], false;
    }

    /** SetIncomeStatement: only this ticker's slot changes. */
    method SetIncomeStatement(ticker: string, data: seq<Record>, now: int)
      modifies this
      ensures View() == old(View()).(income := old(incomeStatements)[ticker := Slot(data, now)])
      ensures incomeStatements == old(incomeStatements)[ticker := Slot(data, now)]
      ensures forall c :: SlotOf(c) == old(SlotOf(c))
      ensures forall t :: now <= t < now + duration ==> Cached(IncomeStatements(ticker), t) == Some(data)
      ensures forall u, t :: u != ticker ==> Cached(IncomeStatements(u), t) == old(Cached(IncomeStatements(u), t))
    {
      incomeStatements := incomeStatements[ticker := Slot(data, now)];
    }

    /** The diagnostic entry of one stored slot. */
    function Describe(slot: Slot, now: int): (info: SlotInfo)
      ensures info.count == |slot.data|
      ensures info.timestamp == slot.timestamp
      ensures info.age == now - slot.timestamp
      ensures info.isFresh <==> now - slot.timestamp < duration
    {
      SlotInfo(|slot.data|, slot.timestamp, now - slot.timestamp, IsFresh(slot.timestamp, now))
    }

    /**
     * GetInfo: an entry for each of bluechips, cedears and galpones that has a
     * slot (stale or not), and nothing for the other categories.
     */
    method GetInfo(now: int) returns (info: map<string, SlotInfo>)
      ensures info.Keys <= {"bluechips", "cedears", "galpones"}
      ensures forall c :: IsSecurityCollection(c) ==>
                (InfoKey(c) in info <==> SlotOf(c).Some?)
      ensures forall c :: IsSecurityCollection(c) && SlotOf(c).Some? ==>
                info[InfoKey(c)] == Describe(SlotOf(c).value, now)
      ensures forall c :: IsSecurityCollection(c) && SlotOf(c).Some? ==>
                (info[InfoKey(c)].isFresh <==> Cached(Bulk(c), now).Some?)
    {
      info := map[];
      if bluechips.Some? {
        info := info["bluechips" := Describe(bluechips.value, now)];
      }
      if cedears.Some? {
        info := info["cedears" := Describe(cedears.value, now)];
      }
      if galpones.Some? {
        info := info["galpones" := Describe(galpones.value, now)];
      }
    }

    /** Clear: every slot and every income statement is dropped. */
    method Clear()
      modifies this
      ensures IsEmpty()
      ensures View() == EmptySnapshot(duration)
      ensures forall e, t :: Cached(e, t) == None
      ensures old(IsEmpty()) ==> SnapshotUnchanged()
    {
      bluechips, cedears, galpones := None, None, None;
      bonds, shortBonds, corporateBonds := None, None, None;
      options, futures, indices, marketSummary, news := None, None, None, None, None;
      incomeStatements := map[];
      assert forall c :: SlotOf(c) == None;
    }

    /** Every slot holds what it held before the call. */
    twostate predicate SnapshotUnchanged()
      reads this
    {
      (forall c :: SlotOf(c) == old(SlotOf(c))) && incomeStatements == old(incomeStatements)
    }
  }
}
