/**
 * The advertisement adapter: validates a raw advertisement by JavaScript
 * truthiness of four service-data fields and projects it onto
 * SwitchbotMetadata; and the scan-result picker that takes the first device
 * of a non-empty array.
 */
module ScanResultsHandler {
  import opened Wrappers
  import opened JsValues
  import opened SwitchBotTypes

  /** The service-data keys the adapter insists on, in the order its guard tests them. */
  const REQUIRED_KEYS: seq<string> := ["model", "modelName", "modelFriendlyName", "battery"]

  /** Every service-data key the adapter copies into its result. */
  const COPIED_KEYS: seq<string> := REQUIRED_KEYS + ["mode"]

  /** The value adapted service data holds under `key`; undefined for any other key. */
  function Get(data: ServiceData, key: string): JsValue {
    if key == "model" then data.model
    else if key == "modelName" then data.modelName
    else if key == "modelFriendlyName" then data.modelFriendlyName
    else if key == "battery" then data.battery
    else if key == "mode" then data.mode
    else Undefined
  }

  /** A service-data dictionary is present and every required field in it is truthy. */
  predicate HasRequiredFields(serviceData: Option<ServiceRecord>) {
    serviceData.Some? && forall k :: k in REQUIRED_KEYS ==> Truthy(Field(serviceData.value, k))
  }

  /**
   * `_adaptSwitchBotServiceData`: rejects a missing dictionary or one with a
   * falsy required field, and otherwise copies the five fields through, `mode`
   * included and without a default.
   */
  function AdaptServiceData(serviceData: Option<ServiceRecord>): (r: Option<ServiceData>)
    ensures r.Some? <==> HasRequiredFields(serviceData)
    ensures r.Some? ==> forall k :: k in COPIED_KEYS ==> Get(r.value, k) == Field(serviceData.value, k)
  {
    if serviceData.None?
       || !Truthy(Field(serviceData.value, "model"))
       || !Truthy(Field(serviceData.value, "modelName"))
       || !Truthy(Field(serviceData.value, "modelFriendlyName"))
       || !Truthy(Field(serviceData.value, "battery"))
    then
      None
    else
      var record := serviceData.value;
      Some(ServiceData(
        model := Field(record, "model"),
        modelName := Field(record, "modelName"),
        modelFriendlyName := Field(record, "modelFriendlyName"),
        battery := Field(record, "battery"),
        mode := Field(record, "mode")))
  }

  /**
   * `adaptSwitchBotAdvertisdementData`: an absent advertisement, or one whose
   * service data the adapter rejects, yields None; otherwise id, address and
   * rssi are carried over unchanged beside the adapted service data.
   */
  function AdaptAdvertisement(advertisementData: Option<Ad>): (r: Option<SwitchbotMetadata>)
    ensures advertisementData.None? ==> r.None?
    ensures r.Some? <==> advertisementData.Some? && HasRequiredFields(advertisementData.value.serviceData)
    ensures r.Some? ==>
      && r.value.id == advertisementData.value.id
      && r.value.address == advertisementData.value.address
      && r.value.rssi == advertisementData.value.rssi
      && forall k :: k in COPIED_KEYS ==>
           Get(r.value.serviceData, k) == Field(advertisementData.value.serviceData.value, k)
  {
    if advertisementData.None? then
      None
    else
      var ad := advertisementData.value;
      match AdaptServiceData(ad.serviceData)
      case None => None
      case Some(serviceData) =>
        Some(SwitchbotMetadata(id := ad.id, address := ad.address, rssi := ad.rssi, serviceData := serviceData))
  }

  /**
   * `adaptSBDeviceScanResults`: a falsy or non-array value, or an empty array,
   * yields None; otherwise the first element, whatever it is.
   */
  function AdaptScanResults(scannedDevices: JsValue): (r: Option<JsValue>)
    ensures r.Some? <==> scannedDevices.Arr? && |scannedDevices.elems| > 0
    ensures r.Some? ==> r.value == scannedDevices.elems[0]
  {
    if !Truthy(scannedDevices) || !scannedDevices.Arr? then
      None
    else if |scannedDevices.elems| <= 0 then
      None
    else
      Some(scannedDevices.elems[0])
  }

  /** A battery reading of 0 is falsy, so the advertisement carrying it is rejected. */
  lemma ZeroBatteryRejected(ad: Ad)
    requires ad.serviceData.Some? && Field(ad.serviceData.value, "battery") == Num(0)
    ensures AdaptAdvertisement(Some(ad)).None?
  {
  }

  /** An empty model string is falsy, so the advertisement carrying it is rejected. */
  lemma EmptyModelRejected(ad: Ad)
    requires ad.serviceData.Some? && Field(ad.serviceData.value, "model") == Str("")
    ensures AdaptAdvertisement(Some(ad)).None?
  {
  }

  /** Any falsy required field rejects the advertisement, whatever the others hold. */
  lemma FalsyRequiredFieldRejected(ad: Ad, key: string)
    requires key in REQUIRED_KEYS
    requires ad.serviceData.Some? && !Truthy(Field(ad.serviceData.value, key))
    ensures AdaptAdvertisement(Some(ad)).None?
  {
  }

  /** Replacing the `mode` entry alone never turns an acceptance into a rejection or back. */
  lemma ModeDoesNotAffectAcceptance(ad: Ad, mode: JsValue)
    requires ad.serviceData.Some?
    ensures AdaptAdvertisement(Some(ad.(serviceData := Some(ad.serviceData.value["mode" := mode])))).Some?
        == AdaptAdvertisement(Some(ad)).Some?
  {
  }

  /** Whatever the adapter accepts has a non-zero battery and non-empty identifiers. */
  lemma AcceptedRecordWellFormed(advertisementData: Option<Ad>)
    requires AdaptAdvertisement(advertisementData).Some?
    ensures var data := AdaptAdvertisement(advertisementData).value.serviceData;
      && Truthy(data.model) && Truthy(data.modelName)
      && Truthy(data.modelFriendlyName) && Truthy(data.battery)
      && data.battery != Num(0) && !Nullish(data.battery)
      && data.model != Str("") && data.modelName != Str("") && data.modelFriendlyName != Str("")
  {
  }

  /** The raw advertisement a device would broadcast for the given metadata. */
  function ToAd(metadata: SwitchbotMetadata): Ad {
    var data := metadata.serviceData;
    Ad(metadata.id, metadata.address, metadata.rssi,
       Some(map["model" := data.model, "modelName" := data.modelName,
                "modelFriendlyName" := data.modelFriendlyName,
                "battery" := data.battery, "mode" := data.mode]))
  }

  /**
   * Round trip: re-adapting the advertisement built from a metadata record
   * gives that record back exactly when its required fields are truthy.
   */
  lemma AdaptToAdRoundTrip(metadata: SwitchbotMetadata)
    ensures var data := metadata.serviceData;
      AdaptAdvertisement(Some(ToAd(metadata))) == Some(metadata)
      <==> Truthy(data.model) && Truthy(data.modelName) && Truthy(data.modelFriendlyName) && Truthy(data.battery)
  {
  }

  /**
   * The other direction: an accepted advertisement agrees, on every key the
   * adapter copies, with the advertisement rebuilt from its adapted record.
   */
  lemma AdaptThenToAdAgrees(ad: Ad)
    requires AdaptAdvertisement(Some(ad)).Some?
    ensures var rebuilt := ToAd(AdaptAdvertisement(Some(ad)).value);
      && rebuilt.id == ad.id && rebuilt.address == ad.address && rebuilt.rssi == ad.rssi
      && forall k :: k in COPIED_KEYS ==> Field(rebuilt.serviceData.value, k) == Field(ad.serviceData.value, k)
  {
  }
}
