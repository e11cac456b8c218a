# snsrpi device core, modelled in Dafny

This project models the bookkeeping core of snsrpi, a vibration-logging
device built from two programs:

- a C# service (`snsrpi-device`) that acquires samples from CX1
  accelerometers, queues them, writes them to CSV or Feather files, keeps
  per-device settings and answers HTTP requests for settings and start/stop;
- a Python IoT agent (`iot/ShadowHandler.py`) that mirrors the device and
  sensor state into AWS IoT named shadows and turns accepted shadow updates
  into HTTP calls to the device service.

One Dafny module per source file:

| module | file | models |
|---|---|---|
| `Support` | support.dfy | `Option`/`Result`, the .NET exceptions raised, C# 32-bit `int` wrap-around, `Path.Combine` on Unix |
| `Settings` | settings.dfy | `AcqusitionSettings`, `SaveIntervalSettings`, `FileUploadSettings` |
| `Vibration` | vibration.dfy | `VibrationData` as four parallel columns, the vendor's `Sample` |
| `OutputData` | output_data.dfy | the CSV and Feather sinks over a file system held as a map |
| `Inputs` | input_data.dfy | `InputData` defaults and `InitFromJSON` |
| `Loggers` | logger.dfy | class `Logger`: config files, connection, acquisition, the demo producer, the file-writer consumer |
| `Services` | services.dfy | the device registries of `LoggerManagerService` and `LoggerService` |
| `Controllers` | controllers.dfy | the decisions of `SettingsController` and `DevicesController` |
| `Shadow` | shadow.dfy | `GlobalShadowHandler` and `SensorShadowHandler` |

How the outside world is represented:

- **Vendor device.** Connect, login, `StreamEnable` and `GetSamples` are
  answers supplied to the model (`ConnectAttempt`, `DeviceSession`).
- **Environment and files.**
  - The `DEVICE_CONFIG_DIR` variable, existing directories and config files
    form a `ConfigEnvironment` value.
  - Written output files form a `FileSystem` map.
  - The start-up JSON file is a map from path to read outcome.
  - The JSON deserializer is a function parameter.
- **Threads.** Each cancellation token becomes a count of loop rounds that
  run before cancellation is seen.
- **The queue.** The `ConcurrentQueue` becomes a sequence field: enqueue
  appends and dequeue takes the head.
- **Python side.** The HTTP client is a function from request to outcome. A
  shadow publish is returned as the request that would be sent.

Behaviours of the code as written are modelled, not corrected. Each is
stated by a contract or lemma:

- The CSV writer bumps its loop index twice. It therefore writes only the
  odd-indexed samples, and an odd count runs off the end (`OddCountOverruns`).
- `StartAcquisition` never clears its columns, so each queued batch extends
  the one before (`AcquisitionBatchesGrow`).
- `SaveSettings` has a brace-less `if`. When the configured directory is
  missing it saves to the directory path itself
  (`SaveWithoutDirectoryMissesConfigFile`).
- `DevicesController` tests existence the wrong way round (`DevicesController.Start`).
- When both shadow handlers run, the settings result hides the start/stop
  result (`SettingsResultOverwritesActive`).
- An input file may give `null` for the output directory. It is accepted,
  and every later CSV write then throws (`NullDirectoryCsvWriteThrows`).
- The `InputData` default output type is "feather". `snsrpiTest/InputDataTests.cs`
  expects "csv"; the model follows the code.

Some loggers are built without an `ILogger` sink: the demo registry's
`new Logger(true)` and the `InputData` constructor. The logging calls
(`LogDebug`, `LogInformation`, `LogWarning`) are extension methods that
check their receiver, so for these loggers every logging call throws
`ArgumentNullException`. The field `hasLogs` records whether a sink was
given, and the operations that log return `ArgumentNull` when it is false.
`NullReference` is kept for member access on a null field, such as `Write`
on a missing output sink or `SaveToFile` on missing settings.
`StopAcquisition` and `SendHeartbeat` have empty bodies and are modelled
as methods that do nothing.

## Model

| member | source | states |
|---|---|---|
| Support.Wrap32 | snsrpi-device/Models/Settings.cs:55 | an unchecked C# `int` result: equal to the exact value when it fits, and congruent to it modulo 2^32 always |
| Support.CombineKeepsParts | snsrpi-device/Models/Logger.cs:241 | `Path.Combine`: a non-empty second part always ends the result, and a relative second part is placed after the whole first part |
| Settings.TotalSeconds | snsrpi-device/Models/Settings.cs:41-56 | succeeds exactly for "second", "minute" and "hour" (KeyNotFound otherwise); the value is the interval times 1, 60 or 3600 when that fits in 32 bits |
| Settings.TotalSecondsPositive | snsrpi-device/Models/Settings.cs:53-56 | a known unit and a positive interval give a positive count when the product fits in an `int` |
| Settings.TotalSecondsWrapsForLongIntervals | snsrpi-device/Models/Settings.cs:55 | 600000 hours overflows and comes out as -2134967296 |
| Settings.CreateDefaults | snsrpi-device/Models/Settings.cs:21-29 | rate, type and directory are stored verbatim, offline mode is off, upload is active to "aws.endpoint.arup", and the save interval is 5 minutes = 300 seconds |
| Settings.CreateDemoDefaults | snsrpi-device/Models/Settings.cs:30-32 | the demo constructor leaves every field at its default: 0, false, null |
| OutputData.SelectRecords | snsrpi-device/Models/OutputData.cs:35-41 | the record loop with its stray `i++` yields exactly the selection specified by `RecordSelection`, or ArgumentOutOfRange |
| OutputData.EvenCountSelectsOddIndices | snsrpi-device/Models/OutputData.cs:37-40 | for an even count n the writer emits n/2 records, record j built entirely from index 2j+1, in order |
| OutputData.EvenIndexSamplesAreDropped | snsrpi-device/Models/OutputData.cs:37-40 | a sample at an even index never appears among the written records |
| OutputData.OddCountOverruns | snsrpi-device/Models/OutputData.cs:37-40 | an odd count fails with ArgumentOutOfRange; an empty batch writes no records |
| OutputData.FileName | snsrpi-device/Models/OutputData.cs:49-55 | defined exactly when the time column is non-empty (ArgumentOutOfRange otherwise) |
| OutputData.FileNameShape | snsrpi-device/Models/OutputData.cs:51 | the name is the prefix, then the first timestamp, then ".csv" |
| OutputData.FileNameIdentifiesFirstTimestamp | snsrpi-device/Models/OutputData.cs:51 | under one prefix, two batches share a file name exactly when their first timestamps agree |
| OutputData.WriteSpecOutcome | snsrpi-device/Models/OutputData.cs:29-68 | returns true whenever it completes; Feather always writes just the time column to "./"; CSV completes exactly when the path is valid and the selection completes; only the target path is changed |
| OutputData.Write | snsrpi-device/Models/OutputData.cs:29-68 | running the CSV selection loop gives exactly the outcome specified by `WriteSpec` |
| OutputData.LaterWriteReplacesEarlier | snsrpi-device/Models/OutputData.cs:31-32 | two CSV writes with the same first timestamp target the same path, and the later one wholly replaces the earlier |
| Inputs.DateStamp | snsrpi-device/Models/InputData.cs:24 | the `yyyyMMdd` stamp is eight decimal digits |
| Inputs.DateStampRoundTrip | snsrpi-device/Models/InputData.cs:22-24 | the stamp reads back as the same date, so distinct days get distinct data directories |
| Inputs.DefaultValues | snsrpi-device/Models/InputData.cs:16-27 | rate 500, type "feather", and the directory is the current directory followed by "CX1_Data_<yyyyMMdd>/", with today's stamp just before the final '/' |
| Inputs.DataDirectoryNameShape | snsrpi-device/Models/InputData.cs:24 | the directory name has 18 characters and carries today's stamp at positions 9 to 16 |
| Inputs.InitFromJSON | snsrpi-device/Models/InputData.cs:29-55 | defaults when the file is missing or reading or parsing throws; the parsed value otherwise; null only for a JSON null; never throws |
| Loggers.InitialiseSettings | snsrpi-device/Models/Logger.cs:235-250 | the settings in `<DEVICE_CONFIG_DIR>/<id>_config.json` when the variable is set and the file exists; otherwise (500, "csv", "/home/jondufty/data") |
| Loggers.SaveTarget | snsrpi-device/Models/Logger.cs:254-256 | no path exactly when the variable is unset; the config file path when the directory exists; the bare directory otherwise |
| Loggers.SaveSettingsTo | snsrpi-device/Models/Logger.cs:252-259 | succeeds exactly when the settings and the variable are set, and then writes the settings at `SaveTarget` and changes nothing else |
| Loggers.SaveThenInitialiseRoundTrip | snsrpi-device/Models/Logger.cs:235-259 | with an existing config directory, saving and then initialising gives back the saved settings |
| Loggers.SaveWithoutDirectoryMissesConfigFile | snsrpi-device/Models/Logger.cs:255-258 | without the directory the save lands on the directory path, so the next initialisation sees the old settings |
| Loggers.SelectOutput | snsrpi-device/Models/Logger.cs:56-67 | Feather exactly for "feather"; otherwise, a null type included, CSV in the input directory (null if the input's is null) with prefix "CX1_" |
| Loggers.NullDirectoryCsvWriteThrows | snsrpi-device/Models/OutputData.cs:29-31 | a CSV sink selected from an input with a null directory throws ArgumentNull on writing a timestamped batch, and no file changes |
| Loggers.ValidSamples | snsrpi-device/Models/Logger.cs:200 | the filter never lengthens a poll |
| Loggers.ValidSamplesMembers | snsrpi-device/Models/Logger.cs:197-207 | a sample is kept exactly when it was received and its acceleration is valid |
| Loggers.Columns | snsrpi-device/Models/Logger.cs:202-205 | the four columns built from samples have equal length, one entry per sample |
| Loggers.AcquisitionBatches | snsrpi-device/Models/Logger.cs:193-212 | one batch per poll |
| Loggers.AcquisitionBatchesGrow | snsrpi-device/Models/Logger.cs:187-211 | every batch has aligned columns, holds exactly the valid samples received so far in arrival order, and is a prefix of the next batch |
| Loggers.AppendValidSamples | snsrpi-device/Models/Logger.cs:197-207 | one poll's loop appends exactly its valid samples, in order, to the four columns |
| Loggers.DemoBatches | snsrpi-device/Models/Logger.cs:135-155 | n rounds give n batches, each 1000 aligned samples; sample s of batch t is sin, cos and its time stamp at phase t + s*0.01, and z is five times x |
| Loggers.DemoBatchShape | snsrpi-device/Models/Logger.cs:128-149 | each demo batch has 1000 aligned samples whose z is five times its x |
| Loggers.DrainRun | snsrpi-device/Models/Logger.cs:223-231 | the writer takes batches in order until one throws; a thrown batch is consumed; with no batches nothing happens; the first batch throws ArgumentNull from the debug message without a logging sink, and NullReference from `Write` without an output sink |
| Loggers.WritesCleanlyIsOk | snsrpi-device/Models/OutputData.cs:29-68 | a batch writes cleanly, as `DrainTakesAllClean` assumes, exactly when `Write` returns, whatever files exist |
| Loggers.DrainTakesAllClean | snsrpi-device/Models/Logger.cs:223-231 | when every batch writes cleanly, all are taken and nothing throws |
| Loggers.DrainStopsAtFirstFailure | snsrpi-device/Models/Logger.cs:223-231 | the writer stops at the first batch that fails, having taken exactly the batches up to it |
| Loggers.FeatherDrainKeepsLastBatch | snsrpi-device/Models/OutputData.cs:60-68 | with the Feather sink every batch overwrites "./", which ends up holding the last batch's time column |
| Loggers.Logger.constructor | snsrpi-device/Models/Logger.cs:36-50 | id and demo flag kept, settings from `InitialiseSettings`, CSV output in their directory with prefix id + "_", empty queue, inactive |
| Loggers.Logger.FromInput | snsrpi-device/Models/Logger.cs:52-69 | output from `SelectOutput`; id, settings and logging sink absent; empty queue |
| Loggers.Logger.Unconfigured | snsrpi-device/Services/LoggerManagerService.cs:37-40 | the demo registry's logger: the demo flag and nothing else set |
| Loggers.Logger.Connect | snsrpi-device/Models/Logger.cs:76-94 | true exactly when login returns Ok; a refusal or an exception gives false, or ArgumentNull from the logging call when there is no logging sink |
| Loggers.Logger.StartAcquisition | snsrpi-device/Models/Logger.cs:164-213 | a failed reconnect does not stop it; a refused `StreamEnable` queues nothing; otherwise the queue grows by exactly `AcquisitionBatches` of the polls |
| Loggers.Logger.RunDemo | snsrpi-device/Models/Logger.cs:116-163 | without a logging sink it throws ArgumentNull before queuing; otherwise the queue grows by exactly `DemoBatches` |
| Loggers.Logger.Start | snsrpi-device/Models/Logger.cs:108-114 | throws ArgumentNull without a logging sink; runs the demo producer only in demo mode and leaves the queue alone otherwise |
| Loggers.DrainQueue | snsrpi-device/Models/Logger.cs:223-231 | the dequeue-and-write loop over the first `steps` polls gives exactly the outcome `DrainRun` specifies for the batches those polls find |
| Loggers.Logger.StopAcquisition | snsrpi-device/Models/Logger.cs:215-218 | changes nothing: the body is empty |
| Loggers.Logger.WriteFiles | snsrpi-device/Models/Logger.cs:220-233 | the dequeued batches are written once each in queue order, as `DrainRun` specifies; on cancellation the rest stay queued, and the closing log message throws ArgumentNull without a logging sink |
| Loggers.Logger.SaveSettings | snsrpi-device/Models/Logger.cs:252-259 | ArgumentNull from the logging call without a logging sink; otherwise `SaveSettingsTo` for this logger's id and settings |
| Services.Registry.ListDevices | snsrpi-device/Services/LoggerManagerService.cs:51-54 | lists exactly the registered ids, each once (LoggerService.cs:24-27 is identical) |
| Services.Registry.CheckDevice | snsrpi-device/Services/LoggerManagerService.cs:56-59 | true exactly for a listed id |
| Services.Registry.GetDevice | snsrpi-device/Services/LoggerManagerService.cs:74-77 | the registered logger for a registered id; KeyNotFound otherwise |
| Services.EmptyRegistryFindsNothing | snsrpi-device/Services/LoggerService.cs:18-32 | an empty registry lists nothing, and every lookup and check fails |
| Services.DemoRegistryHoldsFourLoggers | snsrpi-device/Services/LoggerManagerService.cs:36-41 | four separately created loggers give a registry of four entries holding four different loggers |
| Services.DemoRegistryValid | snsrpi-device/Services/LoggerManagerService.cs:36-41 | four distinct loggers under CX1_1901 to CX1_1904 form a valid registry with exactly those keys |
| Services.LoggerManagerService.constructor | snsrpi-device/Services/LoggerManagerService.cs:21-25 | an empty registry |
| Services.LoggerManagerService.WithMode | snsrpi-device/Services/LoggerManagerService.cs:27-41 | empty unless demo; in demo mode exactly CX1_1901 to CX1_1904, each a fresh demo logger with an empty queue, and no logger shared between two ids |
| Services.LoggerManagerService.StartDevice | snsrpi-device/Services/LoggerManagerService.cs:61-66 | KeyNotFound for an unknown id; otherwise the logger's `StartAcquisition` outcome, and no other logger changes |
| Services.LoggerManagerService.StopDevice | snsrpi-device/Services/LoggerManagerService.cs:68-72 | fails with KeyNotFound exactly for an unknown id; changes nothing |
| Services.LoggerManagerService.SendHeartbeat | snsrpi-device/Services/LoggerManagerService.cs:79-82 | returns at once: neither the service nor any of its loggers changes |
| Services.LoggerService.constructor | snsrpi-device/Services/LoggerService.cs:18-22 | an empty registry |
| Services.LoggerService.StartDevice | snsrpi-device/Services/LoggerService.cs:34-39 | true whenever it returns; KeyNotFound for an unknown id; the logger acquires as `StartAcquisition` says and no other logger changes |
| Services.LoggerService.StopDevice | snsrpi-device/Services/LoggerService.cs:41-45 | true exactly for a registered id, KeyNotFound otherwise; changes nothing |
| Controllers.SettingsController.constructor | snsrpi-device/Controllers/SettingsController.cs:19-22 | keeps the service it is given |
| Controllers.SettingsController.GetSettings | snsrpi-device/Controllers/SettingsController.cs:24-32 | NotFound exactly for an unregistered id; otherwise that logger's current settings |
| Controllers.SettingsController.UpdateSettings | snsrpi-device/Controllers/SettingsController.cs:34-43 | NotFound and no change for an unregistered id; otherwise NoContent, the settings replaced wholesale, and every other id and field unchanged |
| Controllers.UpdateThenGet | snsrpi-device/Controllers/SettingsController.cs:29-40 | an update followed by a get on a registered id returns the new settings |
| Controllers.DevicesController.constructor | snsrpi-device/Controllers/DevicesController.cs:19-22 | keeps the service it is given |
| Controllers.DevicesController.Start | snsrpi-device/Controllers/DevicesController.cs:24-30 | NotFound exactly when the id is registered, NoContent exactly when it is not |
| Controllers.DevicesController.Stop | snsrpi-device/Controllers/DevicesController.cs:32-38 | the same inverted answer |
| Controllers.FreshServiceAnswers | snsrpi-device/Controllers/DevicesController.cs:24-38 | against the service as constructed, settings requests are NotFound and start/stop requests NoContent |
| Shadow.Merge | iot/ShadowHandler.py:43-44 | `dict.update`: the keys of both sides; the update's value where it has one, the old value elsewhere |
| Shadow.UpdateRequest | iot/ShadowHandler.py:50-56 | thing, shadow and token from the request fields; reported is the local state; desired is the local state exactly when overriding |
| Shadow.SensorIdOf | iot/ShadowHandler.py:113 | succeeds exactly for a dictionary item with a hashable "sensor_id", and yields that id |
| Shadow.IndexItems | iot/ShadowHandler.py:112-113 | every indexed position lies within the list |
| Shadow.IndexItemsSucceeds | iot/ShadowHandler.py:112-113 | indexing succeeds exactly when every sensor has a usable id |
| Shadow.IndexItemsKeys | iot/ShadowHandler.py:109-114 | the index's keys are exactly the listed ids |
| Shadow.IndexItemsLastPosition | iot/ShadowHandler.py:109-114 | each key is mapped to the last position carrying it |
| Shadow.SensorIndex | iot/ShadowHandler.py:109-114 | KeyError without "sensors"; a list is indexed item by item; only an empty string or empty dictionary otherwise gives an (empty) index |
| Shadow.GlobalShadowHandler.constructor | iot/ShadowHandler.py:91-102 | no device id, no sensors, an empty index |
| Shadow.GlobalShadowHandler.IndexState | iot/ShadowHandler.py:109-114 | the loop yields exactly `SensorIndex` of the local state; on an exception the old index stays |
| Shadow.GlobalShadowHandler.SetState | iot/ShadowHandler.py:104-107 | the state is merged; the index is rebuilt only when asked, and kept when rebuilding throws |
| Shadow.GlobalShadowHandler.UpdateState | iot/ShadowHandler.py:50-56 | the published request reports the local state with this handler's token |
| Shadow.IndexAfterMerge | iot/ShadowHandler.py:104-114 | after merging a new sensor list and re-indexing, an id is indexed exactly when a listed sensor carries it, at a position that carries it |
| Shadow.SettingsRequest | iot/ShadowHandler.py:308-316 | PUT with the settings as body exactly when they are truthy, GET with no body otherwise, to /api/settings/<sensor> |
| Shadow.Decide | iot/ShadowHandler.py:250-265 | its own token or an empty desired state is ignored; a missing state raises; otherwise each of "active" and "settings" is handled exactly when desired and different from the local value |
| Shadow.RunHandlers | iot/ShadowHandler.py:257-265 | only "active" and "settings" can be added or changed, each only through a successful request |
| Shadow.SettingsResultOverwritesActive | iot/ShadowHandler.py:257-268 | with both handlers run, the logged error is that of the settings request alone |
| Shadow.HandlersChangeOnlyOnSuccess | iot/ShadowHandler.py:278-334 | "active" becomes the desired value only after a successful start/stop request; "settings" becomes the response body only after a successful settings request |
| Shadow.SensorShadowHandler.constructor | iot/ShadowHandler.py:190-200 | "active" and "settings" both present and null |
| Shadow.SensorShadowHandler.SetState | iot/ShadowHandler.py:202-205 | exactly one key is set; every other key keeps its value |
| Shadow.SensorShadowHandler.ChangeSensorRunning | iot/ShadowHandler.py:278-303 | succeeds exactly when the request succeeds, and then sets "active"; on failure "Operate request failed" and no change |
| Shadow.SensorShadowHandler.GetOrUpdateSensorSettings | iot/ShadowHandler.py:305-334 | succeeds exactly when the request succeeds, and then stores the response as "settings"; on failure "Settings request failed" and no change |
| Shadow.SensorShadowHandler.OnUpdateShadowAccepted | iot/ShadowHandler.py:248-271 | nothing happens for an ignored update; a missing state raises; otherwise the dispatched handlers run and the new local state is always published as reported |

## Left out

- `snsrpi-device/Models/APIWrapper.cs` and both `CXUtils.cs`: vendor library demos and console output, over a library that is not part of this model.
- MQTT, AWS and HTTP plumbing (`iot/main.py`, `iot/pubsub.py`, `iot/Device.py`, `aws_iot_init.py`), shadow subscriptions and their future callbacks, `delete_shadow`: network I/O.
- `Startup.cs`, `Program.cs`, `HealthController.cs`, `Health.cs` and `ILoggerManager.cs` (whose `HealthCheck` has no implementation): host wiring and pass-through.
- `Logger.Disconnect` and `Logger.SetNewDeviceThread`: a vendor call and thread creation only.
- `on_update_shadow_delta` is not modelled: it is never subscribed and calls a method that does not exist.
- `InputData.UpdateSettings` is not modelled: its body is entirely commented out, so it has no effect.
- Threads, `Thread.Sleep`, the stopwatch time limit and the cancellation tokens are not modelled. The producer, the consumer and the acquisition loop become sequential methods with a round count or a list of polls. Interleavings of the producer and consumer threads are not captured.
- Floating point is not modelled. Accelerations are `real`. `Math.Sin`, `Math.Cos` and `double.ToString` are supplied functions. Timestamps are the already-formatted strings.
- CSV and Feather encodings are not modelled: a file's content is the records or columns written. Opening a file is taken to succeed whenever its path is valid.
- `AcquisitionSettings.LoadFromFile` and `SaveToFile` do not appear in the source. They are modelled as reading and writing the settings value at a path.
- Loggers.SaveSettingsTo: a null path is taken to throw (`ArgumentNull`), since `SaveToFile` is not shown.
- Batches in the queue are value snapshots. In the source, the four `List`s are shared between all batches enqueued by one `StartAcquisition`, so a batch already queued could still change until it is written. The prefix property is stated on the snapshots.
- Loggers.Logger.Unconfigured: `new Logger(true)` matches no constructor in Logger.cs. The model takes it to set only the demo flag, with no sink, no settings and no logging sink. A null `Cx` making `StartAcquisition` throw is not modelled.
- Inputs.InitFromJSON: the deserializer is a supplied function, so which values it gives the fields is left to that function: that a missing field keeps the default constructor's value is not stated. An explicit JSON null for `outputDirectory` or `outputType` is representable (`None`), and its consequences are stated (`SelectOutput`, `NullDirectoryCsvWriteThrows`).
- The `1 == True` equality and float keys of Python are not modelled: JSON numbers are integers and compare as values.
- Shadow.GlobalShadowHandler.UpdateState: the publish is returned as a request; its failure, which the source catches and logs, is not modelled.
- ASP.NET turning a null `GetSettings` result into a 204 response is not modelled: the result carries the null settings.
- Logging and console output are not modelled beyond the `ArgumentNull` a missing logging sink causes.
- Loggers.Logger.FromInput: takes an `InputData` value, so a null input cannot be passed. In the source, `InitFromJSON` returns null for a file holding JSON `null`, and `new Logger(cx, device, input)` then throws `NullReferenceException` at `switch (input.outputType)`. That throw is not modelled.
