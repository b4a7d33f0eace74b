/**
 * The MetadataClient object: the scan flag and the cache are fields its
 * methods update in place. Each method is specified by the matching
 * transition of ClientState, so every property proved there about runs holds
 * of any sequence of calls on one client.
 */
module MetaDataClient {
  import opened Wrappers
  import opened JsValues
  import opened SwitchBotTypes
  import opened ClientState
  import ScanResultsHandler

  class MetadataClient {
    /** The battery level reported when nothing better is known. */
    const defaultBatteryLevel: int

    /** `isScanningForMetadata` */
    var scanning: bool

    /** The metadata cache: raw advertisements keyed by device address. */
    var cache: map<string, Ad>

    /** The scan routine is suspended at one of its awaits. */
    ghost var scanPending: bool

    /** How many scan routines have begun on this client. */
    ghost var scanStarts: nat

    ghost function State(): Snapshot
      reads this
    {
      Snapshot(scanning, scanPending, cache, scanStarts)
    }

    ghost predicate Valid()
      reads this
    {
      Inv(State())
    }

    constructor (defaultBatteryLevel: int)
      ensures Valid() && State() == Initial()
      ensures this.defaultBatteryLevel == defaultBatteryLevel
    {
      this.defaultBatteryLevel := defaultBatteryLevel;
      scanning := false;
      cache := map[];
      scanPending := false;
      scanStarts := 0;
    }

    /** `getMetadataFromCache`: the record cached for `address`, advertised by that very address. */
    method GetMetadataFromCache(address: string) returns (metaData: Option<Ad>)
      requires Valid()
      ensures metaData.Some? <==> address in cache
      ensures metaData.Some? ==> metaData.value == cache[address] && metaData.value.address == address
    {
      metaData := if address in cache then Some(cache[address]) else None;
    }

    /**
     * `getDeviceMetaData`: returns what the cache holds without waiting for
     * any scan, and begins a scan only on a miss while none is flagged.
     */
    method GetDeviceMetaData(address: string, scanDuration: int) returns (metaData: Option<Ad>)
      requires Valid()
      modifies this
      ensures Valid()
      ensures metaData == Lookup(old(State()), address)
      ensures State() == QueryNext(old(State()), address)
    {
      metaData := GetMetadataFromCache(address);
      if metaData.None? && !scanning {
        ScanForDeviceMetadata(address, scanDuration);
      }
    }

    /** `getDeviceOperationMode` */
    method GetDeviceOperationMode(address: string, scanDuration: int) returns (mode: OperationMode)
      requires Valid()
      modifies this
      ensures Valid()
      ensures mode == ModeOf(Lookup(old(State()), address))
      ensures address !in old(cache) ==> mode == Switch
      ensures State() == QueryNext(old(State()), address)
    {
      var metaData := GetDeviceMetaData(address, scanDuration);
      mode := ModeOf(metaData);
    }

    /** `getDeviceBatteryStatus` */
    method GetDeviceBatteryStatus(address: string, scanDuration: int) returns (battery: JsValue)
      requires Valid()
      modifies this
      ensures Valid()
      ensures address !in old(cache) ==> battery == Num(defaultBatteryLevel)
      ensures address in old(cache) ==>
        battery == Field(old(cache)[address].serviceData.value, "battery") && Truthy(battery)
      ensures State() == QueryNext(old(State()), address)
    {
      ghost var before := State();
      var metaData := GetDeviceMetaData(address, scanDuration);
      battery := BatteryOf(metaData, defaultBatteryLevel);
      if address in before.cache {
        HitReportsCachedBattery(before, address, defaultBatteryLevel);
      }
    }

    /**
     * The synchronous prefix of `scanForDeviceMetadata`, up to its first
     * await: the flag is set and the radio scan is started. Its only caller
     * reaches it with the flag clear.
     */
    method ScanForDeviceMetadata(address: string, scanDuration: int)
      requires Valid() && !scanning
      modifies this
      ensures Valid()
      ensures State() == BeginScanNext(old(State()))
    {
      scanning := true;
      scanPending := true;
      scanStarts := scanStarts + 1;
    }

    /** The scan routine resumes after waiting and stopping the scan, and clears the flag. */
    method FinishScan()
      requires Valid() && scanPending
      modifies this
      ensures Valid()
      ensures State() == FinishScanNext(old(State()))
    {
      scanning := false;
      scanPending := false;
    }

    /** Starting, waiting or stopping throws: the catch only logs, and the flag stays set. */
    method FailScan()
      requires Valid() && scanPending
      modifies this
      ensures Valid()
      ensures State() == FailScanNext(old(State()))
    {
      scanPending := false;
    }

    /** `handleScannedAdvertisdementData`: validate, keep the first entry per address, store the raw advertisement. */
    method HandleScannedAdvertisementData(data: Option<Ad>)
      requires Valid()
      modifies this
      ensures Valid()
      ensures State() == IngestNext(old(State()), data)
    {
      var adaptedData := ScanResultsHandler.AdaptAdvertisement(data);
      if adaptedData.None? {
        return;
      }
      var isAlreadyCached := adaptedData.value.address in cache;
      if isAlreadyCached {
        return;
      }
      cache := cache[adaptedData.value.address := data.value];
    }

    /** The cache's expiry of the entry for `address`. */
    method Expire(address: string)
      requires Valid()
      modifies this
      ensures Valid()
      ensures State() == ExpireNext(old(State()), address)
    {
      cache := cache - {address};
    }
  }

  /**
   * A device never seen: the battery query reports the default and begins one
   * scan. Its advertisement then arrives, and both queries report it.
   */
  method NeverScannedThenAdvertised() {
    var client := new MetadataClient(100);
    var battery := client.GetDeviceBatteryStatus("AA:BB:CC", 5000);
    assert battery == Num(100) && client.scanStarts == 1 && client.scanning;

    var again := client.GetDeviceBatteryStatus("AA:BB:CC", 5000);
    assert client.scanStarts == 1;

    var serviceData := map["model" := Str("H"), "modelName" := Str("WoHand"),
                           "modelFriendlyName" := Str("Bot"), "battery" := Num(80), "mode" := Bool(true)];
    var ad := Ad("x", "AA:BB:CC", -60, Some(serviceData));
    assert ScanResultsHandler.AdaptAdvertisement(Some(ad)).Some? by {
      assert forall k :: k in ScanResultsHandler.REQUIRED_KEYS ==> Truthy(Field(serviceData, k));
    }
    client.HandleScannedAdvertisementData(Some(ad));
    client.FinishScan();

    var mode := client.GetDeviceOperationMode("AA:BB:CC", 5000);
    assert mode == Switch;
    battery := client.GetDeviceBatteryStatus("AA:BB:CC", 5000);
    assert battery == Num(80) && client.scanStarts == 1 && !client.scanning;
  }

  /**
   * A scan that throws leaves the flag set: later queries for devices the
   * cache has never seen begin no scan at all.
   */
  method FailedScanStarvesLaterQueries() {
    var client := new MetadataClient(100);
    var mode := client.GetDeviceOperationMode("AA:BB:CC", 5000);
    assert mode == Switch && client.scanStarts == 1;
    client.FailScan();

    var battery := client.GetDeviceBatteryStatus("DD:EE:FF", 5000);
    mode := client.GetDeviceOperationMode("AA:BB:CC", 5000);
    assert battery == Num(100) && mode == Switch;
    assert client.scanning && !client.scanPending && client.scanStarts == 1;
  }
}
