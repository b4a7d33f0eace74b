# MetadataClient and the advertisement adapter, in Dafny

This project models the metadata side of a Homebridge plugin for SwitchBot
"Bot" devices. The `MetadataClient` answers two questions about a device,
given its BLE address: what its operation mode is (switch or press) and what
its battery level is. It answers from a cache of advertisements. On a cache
miss it starts a passive BLE scan, unless one is already flagged as running,
and reports a fallback without waiting. Advertisements arrive out of band.
They are validated by the adapter in `src/utils/scanResultsHandler.ts`. The
first accepted advertisement per address is cached.

Files:

- `wrappers.dfy`: `Option`.
- `js_values.dfy`: JavaScript values, with truthiness (`!v`) and nullishness (`??`, `?.`) written out explicitly.
- `switchbot_types.dfy`: the raw advertisement `Ad`, plus `ServiceData` and `SwitchbotMetadata` from `src/types/switchBotTypes.ts`.
- `scan_results_handler.dfy`: the adapter, as pure functions with lemmas.
- `client_state.dfy`: the client as a transition system over a `Snapshot` with four parts:
  - the scan flag;
  - whether the async scan routine is suspended at an await;
  - the cache;
  - a count of scans begun.

  It also holds the lemmas about runs of events.
- `metadata_client.dfy`: class `MetadataClient`, whose fields the methods update in place. Each method that changes the client's state is specified by the matching `ClientState` transition. `GetMetadataFromCache` only reads, and its contract speaks of the `cache` field directly. The file also holds two client scenarios.

The async routine `scanForDeviceMetadata` is split at its awaits:

- `ScanForDeviceMetadata` is the synchronous prefix. It sets the flag and starts the scan.
- `FinishScan` is the normal resumption, which clears the flag.
- `FailScan` is the `catch`, which only logs.

The source and the design description disagree on one point. The description says a failed scan always resets the scan flag to idle. In the code, the `catch` at `src/clients/metaDataClient.ts:92-94` leaves the flag set. The model follows the code. `ClientState.StuckAfterFailure` proves the consequence: after a failure no later query ever scans again. See "## Findings".

The description also says a `put` refreshes an entry's time-to-live. The code never writes an address that is already cached (first write wins), and the model follows the code.

In the mode query, `mode ?? true` is tested by JavaScript truthiness. So the answer is "press" whenever the stored `mode` is present but falsy (`false`, `0`, `""`, NaN). For a boolean `mode` that means exactly `false`.

## Model

| member | source | states |
|---|---|---|
| `ScanResultsHandler.AdaptServiceData` | src/utils/scanResultsHandler.ts:47-69 | accepts exactly when the dictionary is present and model, modelName, modelFriendlyName and battery are all truthy; on acceptance every copied key, `mode` included, holds the input's value with no default |
| `ScanResultsHandler.AdaptAdvertisement` | src/utils/scanResultsHandler.ts:27-45 | an absent advertisement yields None; accepts exactly when the service data is accepted; id, address and rssi are copied unchanged and the service-data fields equal the input's |
| `ScanResultsHandler.AdaptScanResults` | src/utils/scanResultsHandler.ts:14-25 | None for a falsy, non-array or empty input; otherwise exactly element 0 |
| `ScanResultsHandler.ZeroBatteryRejected` | src/utils/scanResultsHandler.ts:50-58 | an advertisement with battery 0 is rejected |
| `ScanResultsHandler.EmptyModelRejected` | src/utils/scanResultsHandler.ts:50-58 | an advertisement with an empty model string is rejected |
| `ScanResultsHandler.FalsyRequiredFieldRejected` | src/utils/scanResultsHandler.ts:50-58 | any single falsy required field rejects the advertisement |
| `ScanResultsHandler.ModeDoesNotAffectAcceptance` | src/utils/scanResultsHandler.ts:50-57 | changing only `mode` never changes accept/reject |
| `ScanResultsHandler.AcceptedRecordWellFormed` | src/utils/scanResultsHandler.ts:50-68 | every accepted record has a truthy, non-zero, non-nullish battery and non-empty model, modelName and modelFriendlyName |
| `ScanResultsHandler.AdaptToAdRoundTrip` | src/utils/scanResultsHandler.ts:27-69 | adapting the advertisement rebuilt from a record gives the record back exactly when its required fields are truthy |
| `ScanResultsHandler.AdaptThenToAdAgrees` | src/utils/scanResultsHandler.ts:27-69 | an accepted advertisement agrees with the one rebuilt from its adapted record on id, address, rssi and every copied key |
| `ClientState.Lookup` | src/clients/metaDataClient.ts:115-118 | returns an entry exactly when the address is cached, that entry being the cached one; in a well-formed cache it is an accepted advertisement of that very address |
| `ClientState.ModeOf` | src/clients/metaDataClient.ts:50-51 | Press exactly when a record with service data is present and its mode is non-nullish and falsy; otherwise Switch |
| `ClientState.ModeOfBoolean` | src/clients/metaDataClient.ts:50-51 | for a boolean mode the answer is Press exactly for `false` |
| `ClientState.ModeDefaultsToSwitch` | src/clients/metaDataClient.ts:50 | no record, no service data or a nullish mode gives Switch |
| `ClientState.BatteryOf` | src/clients/metaDataClient.ts:57 | the cached battery when present and not nullish; the default level when there is no record or the battery is nullish |
| `ClientState.BeginScanNext` | src/clients/metaDataClient.ts:80-84 | the synchronous prefix of the scan routine sets the flag, suspends the routine and counts one more scan, leaving the cache alone |
| `ClientState.QueryNext` | src/clients/metaDataClient.ts:60-74 | the cache is untouched; a scan begins (flag set, one more start) exactly on a miss with the flag clear; a hit changes nothing |
| `ClientState.FinishScanNext` | src/clients/metaDataClient.ts:85-91 | a suspended scan completes with the flag cleared; cache and start count unchanged |
| `ClientState.FailScanNext` | src/clients/metaDataClient.ts:92-94 | a failure leaves the flag as it was and ends the suspension; cache and start count unchanged |
| `ClientState.IngestNext` | src/clients/metaDataClient.ts:97-113 | flag and start count unchanged; a rejected or already-cached advertisement leaves the cache unchanged; otherwise exactly one entry is added, under the address, holding the raw advertisement, and all other entries are kept |
| `ClientState.ExpireNext` | src/clients/metaDataClient.ts:20-28 | expiry removes exactly the one key and changes nothing else |
| `ClientState.InitialSatisfiesInv` | src/clients/metaDataClient.ts:20-35 | a new client satisfies the invariant, with the flag clear and the cache empty |
| `ClientState.StepPreservesInv` | src/clients/metaDataClient.ts:66-113 | every event keeps the invariant: a suspended scan has its flag set, and every cached entry is accepted by the adapter and stored under its own address |
| `ClientState.RunPreservesInv` | src/clients/metaDataClient.ts:66-113 | every run of events keeps the invariant |
| `ClientState.ScanBeginsOnlyWhenIdle` | src/clients/metaDataClient.ts:66-82 | a scan begins only from a query that misses while no scan is flagged or suspended, and a step begins at most one |
| `ClientState.NoScanWhileFlagged` | src/clients/metaDataClient.ts:66-88 | while the flag is set and no completion arrives, any sequence of queries, advertisements, failures and expiries begins no scan and the flag stays set |
| `ClientState.ScanStartsBoundedByCompletions` | src/clients/metaDataClient.ts:66-88 | scans begun along a run are at most the completions that meet a suspended scan, plus one (none if a scan was already flagged); completions with no scan suspended are no-ops and are not counted |
| `ClientState.StuckStaysStuck` | src/clients/metaDataClient.ts:82-94 | from a flagged state with no suspended scan, no event ever clears the flag or begins a scan |
| `ClientState.StuckAfterFailure` | src/clients/metaDataClient.ts:82-94 | after a suspended scan fails, no later query, even one that misses, begins a scan |
| `ClientState.FailScanResettingNext` | src/clients/metaDataClient.ts:92-94 | the corrected failure step: the flag is cleared and the suspension ends, with cache and start count unchanged |
| `ClientState.RunCorrectedFlagMatchesPending` | src/clients/metaDataClient.ts:82-94 | under the corrected failure step, along every run the invariant holds and the flag is set exactly while a scan is suspended, so the stuck state is unreachable |
| `ClientState.RecoveryAfterCorrectedFailure` | src/clients/metaDataClient.ts:92-94 | under the corrected failure step, after a failure and any later events, whenever no scan is suspended a query that misses the cache begins a scan again |
| `ClientState.CachedEntryStable` | src/clients/metaDataClient.ts:104-112 | once an address is cached, no event except that address's expiry replaces or removes its entry |
| `ClientState.FirstWriteWins` | src/clients/metaDataClient.ts:104-112 | two accepted advertisements for one uncached address: the first is kept |
| `ClientState.StoredAgainAfterExpiry` | src/clients/metaDataClient.ts:104-112 | after the entry expires, a new accepted advertisement for the address is stored |
| `ClientState.HitReportsCachedBattery` | src/clients/metaDataClient.ts:56-57 | on a cache hit the battery reported is the cached one, and it is truthy, so the default is never substituted |
| `MetaDataClient.MetadataClient.constructor` | src/clients/metaDataClient.ts:20-35 | a new client has the flag clear, an empty cache, no scans and the given default battery level |
| `MetaDataClient.MetadataClient.GetMetadataFromCache` | src/clients/metaDataClient.ts:115-118 | returns an entry exactly when the address is cached, and that entry is the advertisement of that address |
| `MetaDataClient.MetadataClient.GetDeviceMetaData` | src/clients/metaDataClient.ts:60-74 | returns the value looked up before any scan and moves to the `QueryNext` state |
| `MetaDataClient.MetadataClient.GetDeviceOperationMode` | src/clients/metaDataClient.ts:44-52 | reports `ModeOf` the looked-up record (Switch on a miss) and moves to the `QueryNext` state |
| `MetaDataClient.MetadataClient.GetDeviceBatteryStatus` | src/clients/metaDataClient.ts:54-58 | reports the default on a miss, the cached truthy battery on a hit, and moves to the `QueryNext` state |
| `MetaDataClient.MetadataClient.ScanForDeviceMetadata` | src/clients/metaDataClient.ts:76-84 | sets the flag, marks the routine suspended and counts one more scan |
| `MetaDataClient.MetadataClient.FinishScan` | src/clients/metaDataClient.ts:85-91 | clears the flag and ends the suspension |
| `MetaDataClient.MetadataClient.FailScan` | src/clients/metaDataClient.ts:92-94 | ends the suspension and leaves the flag set |
| `MetaDataClient.MetadataClient.HandleScannedAdvertisementData` | src/clients/metaDataClient.ts:97-113 | moves to the `IngestNext` state and keeps the invariant |
| `MetaDataClient.MetadataClient.Expire` | src/clients/metaDataClient.ts:20-28 | moves to the `ExpireNext` state and keeps the invariant |

## Findings

| source | as written | input that shows it | evidently intended | confidence | as-written member | corrected member |
|---|---|---|---|---|---|---|
| src/clients/metaDataClient.ts:92-94 | the `catch` of the scan routine only logs, so `isScanningForMetadata` stays `true` after start, wait or stop throws | a query for an uncached address begins a scan, and `startScan` rejects (radio unavailable); from then on every query for any uncached address starts no scan, forever | reset the flag to `false` in the failure path too, so that a later missing query scans again | medium; not executed | `ClientState.StuckAfterFailure` | `ClientState.RecoveryAfterCorrectedFailure` |

The class `MetadataClient` follows the code as written (`FailScan`). The corrected step `ClientState.FailScanResettingNext` is stated beside it. `ClientState.StepCorrected` and `ClientState.RunCorrected` are the same runs with that step in place, and the recovery is proved for all of them.

## Left out

- Radio I/O: the node-switchbot calls `startScan`, `wait` and `stopScan`, and the `onadvertisement` registration. They appear only as the begin, finish and fail steps and as calls to `HandleScannedAdvertisementData`. The scan duration is passed along but has no effect in the model.
- Promise scheduling: each awaited segment is one atomic step, and interleavings are sequences of events. A finish or failure event arriving while no scan is suspended is a no-op in `ClientState.Run`. The class methods for these events require a suspended scan.
- node-cache internals: the TTL timer, the sweep period and the `useClones` copying. Expiry is an environment step that removes one key (`Expire`). The cache holds values, so cloning has no observable effect.
- Logging (`this.log.*`, `logSwitchbotClientError`): it is only observability.
- Settings: `CACHE_TTL` and `CHECK_CACHE_TTL_PERIOD` belong to the cache internals. `DEFAULT_BATTERY_LEVEL` comes from a settings file that is not part of this model, so it is a constructor parameter.
- Numbers in service data and scan results are modelled as integers plus NaN. Fractional values are not represented, and -0 is identified with 0; both are falsy, so truthiness is unaffected. `rssi` is a plain integer: a NaN or fractional rssi is not represented. The adapter copies it without inspecting it.
- `MetaDataClient.MetadataClient.ScanForDeviceMetadata`: requires the flag to be clear. Its only call, at line 70, sits under the guard on line 66, which guarantees this. The model does not cover calls made while a scan is flagged.
- `src/index.ts` (platform registration) and the device-control signatures in `src/types/switchBotTypes.ts` carry no behaviour. Only `SwitchbotMetadata` and `ServiceData` are modelled.
