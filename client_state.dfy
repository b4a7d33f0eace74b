/**
 * The MetadataClient as a transition system over its observable state: the
 * scan flag, the cache keyed by device address, whether the asynchronous scan
 * routine is suspended at one of its awaits, and how many scans have begun.
 * Each awaited segment of the scan routine is one atomic step.
 */
module ClientState {
  import opened Wrappers
  import opened JsValues
  import opened SwitchBotTypes
  import ScanResultsHandler

  /** The answer of the operation-mode query. */
  datatype OperationMode = Switch | Press

  /**
   * scanning: the `isScanningForMetadata` flag.
   * scanPending: a scan routine has passed its synchronous prefix and not yet
   *   completed or thrown.
   * cache: the metadata cache, holding raw advertisements by address.
   * scanStarts: how many scan routines have begun.
   */
  datatype Snapshot = Snapshot(scanning: bool, scanPending: bool, cache: map<string, Ad>, scanStarts: nat)

  /** What can happen to a client: a query, an advertisement, the scan's
      completion or failure, or the cache dropping an expired entry. */
  datatype Event =
    | Query(address: string)
    | Advertisement(data: Option<Ad>)
    | ScanFinished
    | ScanFailed
    | Expire(address: string)

  /** A freshly constructed client. */
  function Initial(): Snapshot {
    Snapshot(false, false, map[], 0)
  }

  /** Every cached entry is an advertisement the adapter accepts, stored under its own address. */
  predicate CacheWellFormed(cache: map<string, Ad>) {
    forall address :: address in cache ==>
      && cache[address].address == address
      && ScanResultsHandler.HasRequiredFields(cache[address].serviceData)
  }

  /** The client invariant: a suspended scan always has its flag set, and the cache is well formed. */
  predicate Inv(s: Snapshot) {
    (s.scanPending ==> s.scanning) && CacheWellFormed(s.cache)
  }

  /** `getMetadataFromCache`. */
  function Lookup(s: Snapshot, address: string): (metaData: Option<Ad>)
    ensures metaData.Some? <==> address in s.cache
    ensures metaData.Some? ==> metaData.value == s.cache[address]
    ensures CacheWellFormed(s.cache) && metaData.Some? ==>
      metaData.value.address == address && ScanResultsHandler.HasRequiredFields(metaData.value.serviceData)
  {
    if address in s.cache then Some(s.cache[address]) else None
  }

  /** `metaData?.serviceData?.<key>` */
  function CachedField(metaData: Option<Ad>, key: string): JsValue {
    if metaData.None? || metaData.value.serviceData.None? then Undefined
    else Field(metaData.value.serviceData.value, key)
  }

  /**
   * The operation-mode answer for a looked-up record: `mode ?? true`, then
   * JavaScript truthiness. It is Press exactly when a record with service data
   * is present and carries a mode that is neither nullish nor truthy.
   */
  function ModeOf(metaData: Option<Ad>): (mode: OperationMode)
    ensures mode == Press <==>
      && metaData.Some? && metaData.value.serviceData.Some?
      && var value := Field(metaData.value.serviceData.value, "mode");
         !Nullish(value) && !Truthy(value)
  {
    var isSwitchMode := Coalesce(CachedField(metaData, "mode"), Bool(true));
    if Truthy(isSwitchMode) then Switch else Press
  }

  /**
   * The battery answer for a looked-up record: the cached battery value when
   * there is one that is not nullish, and the default level otherwise.
   */
  function BatteryOf(metaData: Option<Ad>, defaultBatteryLevel: int): (battery: JsValue)
    ensures metaData.None? ==> battery == Num(defaultBatteryLevel)
    ensures metaData.Some? && metaData.value.serviceData.Some?
            && !Nullish(Field(metaData.value.serviceData.value, "battery"))
            ==> battery == Field(metaData.value.serviceData.value, "battery")
    ensures Nullish(CachedField(metaData, "battery")) ==> battery == Num(defaultBatteryLevel)
  {
    Coalesce(CachedField(metaData, "battery"), Num(defaultBatteryLevel))
  }

  /** The synchronous prefix of `scanForDeviceMetadata`: the flag is set and the routine suspends. */
  function BeginScanNext(s: Snapshot): (t: Snapshot)
    ensures t.scanning && t.scanPending
    ensures t.scanStarts == s.scanStarts + 1 && t.cache == s.cache
    ensures CacheWellFormed(s.cache) ==> Inv(t)
  {
    s.(scanning := true, scanPending := true, scanStarts := s.scanStarts + 1)
  }

  /**
   * `getDeviceMetaData`: a miss while no scan is flagged begins one; a hit, or
   * a miss while flagged, changes nothing.
   */
  function QueryNext(s: Snapshot, address: string): (t: Snapshot)
    ensures t.cache == s.cache
    ensures t.scanning == (s.scanning || address !in s.cache)
    ensures t.scanStarts == if address !in s.cache && !s.scanning then s.scanStarts + 1 else s.scanStarts
    ensures t.scanPending == (s.scanPending || (address !in s.cache && !s.scanning))
    ensures address in s.cache ==> t == s
  {
    var metaData := Lookup(s, address);
    if metaData.None? && !s.scanning then BeginScanNext(s) else s
  }

  /** The scan routine resumes after its awaits and clears the flag. */
  function FinishScanNext(s: Snapshot): (t: Snapshot)
    ensures s.scanPending ==> !t.scanning && !t.scanPending
    ensures t.cache == s.cache && t.scanStarts == s.scanStarts
    ensures !s.scanPending ==> t == s
  {
    if s.scanPending then s.(scanning := false, scanPending := false) else s
  }

  /** The scan routine throws: the catch only logs, so the flag keeps its value. */
  function FailScanNext(s: Snapshot): (t: Snapshot)
    ensures t.scanning == s.scanning && !t.scanPending
    ensures t.cache == s.cache && t.scanStarts == s.scanStarts
  {
    s.(scanPending := false)
  }

  /**
   * `handleScannedAdvertisdementData`: a rejected advertisement, or one whose
   * address is already cached, leaves the cache as it is; otherwise exactly one
   * entry is added, under that address, holding the raw advertisement.
   */
  function IngestNext(s: Snapshot, data: Option<Ad>): (t: Snapshot)
    ensures t.scanning == s.scanning && t.scanPending == s.scanPending && t.scanStarts == s.scanStarts
    ensures ScanResultsHandler.AdaptAdvertisement(data).None? ==> t.cache == s.cache
    ensures data.Some? && data.value.address in s.cache ==> t.cache == s.cache
    ensures ScanResultsHandler.AdaptAdvertisement(data).Some? && data.value.address !in s.cache ==>
      && t.cache.Keys == s.cache.Keys + {data.value.address}
      && t.cache[data.value.address] == data.value
      && forall address :: address in s.cache ==> t.cache[address] == s.cache[address]
  {
    match ScanResultsHandler.AdaptAdvertisement(data)
    case None => s
    case Some(adaptedData) =>
      if adaptedData.address in s.cache then s
      else s.(cache := s.cache[adaptedData.address := data.value])
  }

  /** The cache drops the entry for `address` (time-to-live expiry); nothing else changes. */
  function ExpireNext(s: Snapshot, address: string): (t: Snapshot)
    ensures t.cache.Keys == s.cache.Keys - {address}
    ensures forall other :: other in t.cache ==> t.cache[other] == s.cache[other]
    ensures t.scanning == s.scanning && t.scanPending == s.scanPending && t.scanStarts == s.scanStarts
  {
    s.(cache := s.cache - {address})
  }

  function Step(s: Snapshot, e: Event): Snapshot {
    match e
    case Query(address) => QueryNext(s, address)
    case Advertisement(data) => IngestNext(s, data)
    case ScanFinished => FinishScanNext(s)
    case ScanFailed => FailScanNext(s)
    case Expire(address) => ExpireNext(s, address)
  }

  /** The state after the events of `es`, in order. */
  function Run(s: Snapshot, es: seq<Event>): Snapshot
    decreases |es|
  {
    if es == [] then s else Run(Step(s, es[0]), es[1..])
  }

  /** How many scan completions along the run of `es` from `s` meet a suspended scan (the others are no-ops). */
  function Completions(s: Snapshot, es: seq<Event>): nat
    decreases |es|
  {
    if es == [] then 0
    else (if es[0].ScanFinished? && s.scanPending then 1 else 0) + Completions(Step(s, es[0]), es[1..])
  }

  lemma InitialSatisfiesInv()
    ensures Inv(Initial()) && !Initial().scanning && Initial().cache == map[]
  {
  }

  /** Every step keeps the client invariant. */
  lemma StepPreservesInv(s: Snapshot, e: Event)
    requires Inv(s)
    ensures Inv(Step(s, e))
  {
  }

  /** Every run keeps the client invariant. */
  lemma {:induction false} RunPreservesInv(s: Snapshot, es: seq<Event>)
    requires Inv(s)
    ensures Inv(Run(s, es))
    decreases |es|
  {
    if es != [] {
      StepPreservesInv(s, es[0]);
      RunPreservesInv(Step(s, es[0]), es[1..]);
    }
  }

  /**
   * Single flight: a scan begins only from a state with no scan suspended,
   * and one step begins at most one scan.
   */
  lemma ScanBeginsOnlyWhenIdle(s: Snapshot, e: Event)
    requires Inv(s)
    requires Step(s, e).scanStarts != s.scanStarts
    ensures !s.scanning && !s.scanPending
    ensures e.Query? && e.address !in s.cache
    ensures Step(s, e).scanStarts == s.scanStarts + 1 && Step(s, e).scanPending
  {
  }

  /**
   * Single flight over time: while the flag is set and no completion clears
   * it, any number of queries, advertisements, failures and expiries begin no
   * further scan, and the flag stays set.
   */
  lemma {:induction false} NoScanWhileFlagged(s: Snapshot, es: seq<Event>)
    requires s.scanning
    requires forall i :: 0 <= i < |es| ==> !es[i].ScanFinished?
    ensures Run(s, es).scanning && Run(s, es).scanStarts == s.scanStarts
    decreases |es|
  {
    if es != [] {
      NoScanWhileFlagged(Step(s, es[0]), es[1..]);
    }
  }

  /**
   * Scans never overlap: along any run, every scan begun after the first
   * needs a completion before it.
   */
  lemma {:induction false} ScanStartsBoundedByCompletions(s: Snapshot, es: seq<Event>)
    ensures Run(s, es).scanStarts <= s.scanStarts + Completions(s, es) + (if s.scanning then 0 else 1)
    decreases |es|
  {
    if es != [] {
      ScanStartsBoundedByCompletions(Step(s, es[0]), es[1..]);
    }
  }

  /**
   * After a failure the flag is never cleared: no later event of any kind
   * clears it or begins another scan.
   */
  lemma {:induction false} StuckStaysStuck(s: Snapshot, es: seq<Event>)
    requires s.scanning && !s.scanPending
    ensures Run(s, es).scanning && !Run(s, es).scanPending
    ensures Run(s, es).scanStarts == s.scanStarts
    decreases |es|
  {
    if es != [] {
      StuckStaysStuck(Step(s, es[0]), es[1..]);
    }
  }

  /**
   * The scan routine as written: once a suspended scan fails, the client
   * never scans again, even for a query that misses the cache.
   */
  lemma StuckAfterFailure(s: Snapshot, es: seq<Event>, address: string)
    requires Inv(s) && s.scanPending
    ensures var t := Run(Step(s, ScanFailed), es);
      && t.scanning
      && t.scanStarts == s.scanStarts
      && QueryNext(t, address).scanStarts == s.scanStarts
  {
    StuckStaysStuck(Step(s, ScanFailed), es);
  }

  /** The failure step with the flag reset the catch block evidently intends. */
  function FailScanResettingNext(s: Snapshot): (t: Snapshot)
    ensures !t.scanning && !t.scanPending
    ensures t.cache == s.cache && t.scanStarts == s.scanStarts
  {
    s.(scanning := false, scanPending := false)
  }

  /** `Step` with the corrected failure step in place of the as-written one. */
  function StepCorrected(s: Snapshot, e: Event): Snapshot {
    if e.ScanFailed? then FailScanResettingNext(s) else Step(s, e)
  }

  /** The state after the events of `es`, in order, under the corrected failure step. */
  function RunCorrected(s: Snapshot, es: seq<Event>): Snapshot
    decreases |es|
  {
    if es == [] then s else RunCorrected(StepCorrected(s, es[0]), es[1..])
  }

  /**
   * Under the corrected failure step the flag is set exactly while a scan is
   * suspended, along every run: the stuck state of StuckStaysStuck is never reached.
   */
  lemma {:induction false} RunCorrectedFlagMatchesPending(s: Snapshot, es: seq<Event>)
    requires Inv(s) && s.scanning == s.scanPending
    ensures var t := RunCorrected(s, es);
      Inv(t) && t.scanning == t.scanPending
    decreases |es|
  {
    if es != [] {
      var t := StepCorrected(s, es[0]);
      if !es[0].ScanFailed? {
        StepPreservesInv(s, es[0]);
      }
      assert Inv(t) && t.scanning == t.scanPending;
      RunCorrectedFlagMatchesPending(t, es[1..]);
    }
  }

  /**
   * With the corrected failure step the client is never stuck: after a
   * suspended scan fails and any later events, once no scan is suspended a
   * query that misses the cache begins a scan again.
   */
  lemma RecoveryAfterCorrectedFailure(s: Snapshot, es: seq<Event>, address: string)
    requires Inv(s) && s.scanPending
    ensures var t := RunCorrected(StepCorrected(s, ScanFailed), es);
      !t.scanPending && address !in t.cache ==>
        QueryNext(t, address).scanStarts == t.scanStarts + 1 && QueryNext(t, address).scanPending
  {
    RunCorrectedFlagMatchesPending(StepCorrected(s, ScanFailed), es);
  }

  /**
   * First write wins: once an address is cached, no event other than the
   * expiry of that address replaces or removes its entry.
   */
  lemma {:induction false} CachedEntryStable(s: Snapshot, es: seq<Event>, address: string)
    requires address in s.cache
    requires forall i :: 0 <= i < |es| ==> es[i] != Expire(address)
    ensures address in Run(s, es).cache && Run(s, es).cache[address] == s.cache[address]
    decreases |es|
  {
    if es != [] {
      var t := Step(s, es[0]);
      assert address in t.cache && t.cache[address] == s.cache[address];
      CachedEntryStable(t, es[1..], address);
    }
  }

  /** Two accepted advertisements for one uncached address: the first is kept. */
  lemma FirstWriteWins(s: Snapshot, first: Ad, second: Ad)
    requires ScanResultsHandler.AdaptAdvertisement(Some(first)).Some?
    requires first.address !in s.cache && second.address == first.address
    ensures var t := Run(s, [Advertisement(Some(first)), Advertisement(Some(second))]);
      first.address in t.cache && t.cache[first.address] == first
  {
    var es := [Advertisement(Some(first)), Advertisement(Some(second))];
    assert Run(s, es) == Run(Step(s, es[0]), es[1..]);
    var t := Step(s, es[0]);
    assert t.cache[first.address] == first;
    CachedEntryStable(t, es[1..], first.address);
  }

  /** Once its entry has expired, a new accepted advertisement for the address is stored. */
  lemma StoredAgainAfterExpiry(s: Snapshot, data: Ad)
    requires ScanResultsHandler.AdaptAdvertisement(Some(data)).Some?
    ensures var t := IngestNext(ExpireNext(s, data.address), Some(data));
      data.address in t.cache && t.cache[data.address] == data
  {
  }

  /**
   * A query that hits the cache reports the cached battery: by the invariant
   * it is truthy, so the default level is never substituted for a cached device.
   */
  lemma HitReportsCachedBattery(s: Snapshot, address: string, defaultBatteryLevel: int)
    requires Inv(s) && address in s.cache
    ensures s.cache[address].serviceData.Some?
    ensures var battery := BatteryOf(Lookup(s, address), defaultBatteryLevel);
      battery == Field(s.cache[address].serviceData.value, "battery") && Truthy(battery)
  {
  }

  /** For a boolean mode the answer is Press exactly for `false`; without a mode it is Switch. */
  lemma ModeOfBoolean(ad: Ad, mode: bool)
    requires ad.serviceData.Some? && Field(ad.serviceData.value, "mode") == Bool(mode)
    ensures ModeOf(Some(ad)) == (if mode then Switch else Press)
  {
  }

  lemma ModeDefaultsToSwitch(metaData: Option<Ad>)
    requires metaData.None? || metaData.value.serviceData.None?
             || Nullish(Field(metaData.value.serviceData.value, "mode"))
    ensures ModeOf(metaData) == Switch
  {
  }
}
