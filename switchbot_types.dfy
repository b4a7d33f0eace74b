/**
 * The records exchanged between the BLE driver, the adapter and the cache:
 * the raw advertisement the driver delivers, and the SwitchbotMetadata /
 * ServiceData shapes the adapter produces.
 */
module SwitchBotTypes {
  import opened Wrappers
  import opened JsValues

  /** The `serviceData` dictionary of a raw advertisement. */
  type ServiceRecord = map<string, JsValue>

  /** `serviceData[key]`: a key the dictionary lacks reads as undefined. */
  function Field(record: ServiceRecord, key: string): JsValue {
    if key in record then record[key] else Undefined
  }

  /**
   * A raw advertisement as the driver reports it. `serviceData` is None when
   * the advertisement carries no (or a null) service-data dictionary.
   */
  datatype Ad = Ad(id: string, address: string, rssi: int, serviceData: Option<ServiceRecord>)

  /**
   * The adapted service data. The TypeScript casts that type these fields
   * convert nothing at run time, so each holds whatever value the
   * advertisement carried under that key.
   */
  datatype ServiceData = ServiceData(
    model: JsValue,
    modelName: JsValue,
    modelFriendlyName: JsValue,
    battery: JsValue,
    mode: JsValue)

  /** The adapted advertisement. */
  datatype SwitchbotMetadata = SwitchbotMetadata(id: string, address: string, rssi: int, serviceData: ServiceData)
}
