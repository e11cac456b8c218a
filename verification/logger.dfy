/**
 * One acquisition device (snsrpi-device/Models/Logger.cs).
 *
 * The vendor library is replaced by the answers it gives (the login outcome,
 * whether streaming could be enabled, the batches `GetSamples` returns), the
 * environment variable and config files by a `ConfigEnvironment` value, and
 * each thread's cancellation token by the number of loop iterations that run
 * before the token is seen cancelled. The `ConcurrentQueue` is the sequence
 * field `dataBuffers`: enqueue appends, dequeue takes the head.
 */
module Loggers {
  import opened Support
  import opened Vibration
  import opened Settings
  import opened OutputData
  import opened Inputs

  /** The settings-file world: `DEVICE_CONFIG_DIR`, existing directories, and each existing config file's loaded settings. */
  datatype ConfigEnvironment = ConfigEnvironment(
    configDir: Option<string>,
    directories: set<string>,
    configFiles: map<string, AcquisitionSettings>)

  /** The vendor's `CXCom.LoginStatus`; only `Ok` matters to the logger. */
  datatype LoginStatus = LoginOk | LoginRefused(code: nat)

  /** What `Cx.Connect(Device)` followed by `Cx.Login(Admin, "admin")` does: throw, or return a status. */
  datatype ConnectAttempt = ConnectThrew | LoggedIn(status: LoginStatus)

  /**
   * What the device does during one `StartAcquisition`: whether it is already
   * connected, how a reconnect would go, whether streaming can be enabled, and
   * the samples each poll returns before the acquisition time limit runs out.
   */
  datatype DeviceSession = DeviceSession(
    isConnected: bool,
    reconnect: ConnectAttempt,
    streamEnabled: bool,
    polls: seq<seq<Sample>>)

  /** The demo generator's floating-point operations: `Math.Sin`, `Math.Cos` and `double.ToString`. */
  datatype Waveform = Waveform(sin: real -> real, cos: real -> real, show: real -> string)

  const DefaultSettings: AcquisitionSettings := Create(500, "csv", "/home/jondufty/data")

  /** Samples generated per demo batch. */
  const DemoSampleSize: nat := 1000

  function ConfigFileName(deviceId: string): string {
    deviceId + "_config.json"
  }

  /** `<DEVICE_CONFIG_DIR>/<id>_config.json`, when the variable is set. */
  function ConfigPath(env: ConfigEnvironment, deviceId: string): Option<string> {
    if env.configDir.Some? then Some(Combine(env.configDir.value, ConfigFileName(deviceId))) else None
  }

  /**
   * `Logger.InitialiseSettings`: the device's config file when the variable is
   * set and the file exists, otherwise (500, "csv", "/home/jondufty/data").
   */
  function InitialiseSettings(env: ConfigEnvironment, deviceId: string): (r: AcquisitionSettings)
    ensures ConfigPath(env, deviceId).Some? && ConfigPath(env, deviceId).value in env.configFiles ==>
      r == env.configFiles[ConfigPath(env, deviceId).value]
    ensures ConfigPath(env, deviceId).None? || ConfigPath(env, deviceId).value !in env.configFiles ==>
      r == DefaultSettings && r.sampleRate == 500 && r.outputType == Some("csv")
      && r.outputDirectory == Some("/home/jondufty/data")
  {
    var path := ConfigPath(env, deviceId);
    if path.Some? && path.value in env.configFiles then env.configFiles[path.value] else DefaultSettings
  }

  /**
   * The path `Logger.SaveSettings` hands to `SaveToFile`. The `if` has no
   * braces, so only the `Path.Combine` depends on the directory existing: the
   * save happens anyway, to the bare variable (null when unset) otherwise.
   */
  function SaveTarget(env: ConfigEnvironment, deviceId: string): (r: Option<string>)
    ensures r.None? <==> env.configDir.None?
    ensures env.configDir.Some? && env.configDir.value in env.directories ==> r == ConfigPath(env, deviceId)
    ensures env.configDir.Some? && env.configDir.value !in env.directories ==> r == env.configDir
  {
    match env.configDir
    case None => None
    case Some(dir) => if dir in env.directories then Some(Combine(dir, ConfigFileName(deviceId))) else Some(dir)
  }

  /**
   * `Logger.SaveSettings` on the settings file world. Null settings throw; a
   * null path is taken to throw as well (`SaveToFile` is not part of this
   * model, beyond writing the settings under the path it is given).
   */
  function SaveSettingsTo(env: ConfigEnvironment, deviceId: string, settings: Option<AcquisitionSettings>): (r: Result<ConfigEnvironment, Exception>)
    ensures r.Ok? <==> settings.Some? && env.configDir.Some?
    ensures r.Ok? ==> (r.value.configDir == env.configDir && r.value.directories == env.directories
      && r.value.configFiles == env.configFiles[SaveTarget(env, deviceId).value := settings.value])
  {
    if settings.None? then Err(NullReference)
    else match SaveTarget(env, deviceId)
      case None => Err(ArgumentNull)
      case Some(path) => Ok(env.(configFiles := env.configFiles[path := settings.value]))
  }

  /** When the configured directory exists, saving and then initialising gives back the saved settings. */
  lemma SaveThenInitialiseRoundTrip(env: ConfigEnvironment, deviceId: string, s: AcquisitionSettings)
    requires env.configDir.Some? && env.configDir.value in env.directories
    ensures SaveSettingsTo(env, deviceId, Some(s)).Ok?
    ensures InitialiseSettings(SaveSettingsTo(env, deviceId, Some(s)).value, deviceId) == s
  {
    var env' := SaveSettingsTo(env, deviceId, Some(s)).value;
    assert ConfigPath(env', deviceId) == ConfigPath(env, deviceId) == SaveTarget(env, deviceId);
  }

  /**
   * When the configured directory does not exist, the save lands on the
   * directory's own path, so the device's config file is untouched and the
   * next initialisation does not see the saved settings.
   */
  lemma SaveWithoutDirectoryMissesConfigFile(env: ConfigEnvironment, deviceId: string, s: AcquisitionSettings)
    requires env.configDir.Some? && env.configDir.value !in env.directories
    requires |env.configDir.value| > 0 && (|deviceId| == 0 || deviceId[0] != '/')
    ensures SaveSettingsTo(env, deviceId, Some(s)).Ok?
    ensures InitialiseSettings(SaveSettingsTo(env, deviceId, Some(s)).value, deviceId) == InitialiseSettings(env, deviceId)
  {
    var dir := env.configDir.value;
    var path := Combine(dir, ConfigFileName(deviceId));
    CombineKeepsParts(dir, ConfigFileName(deviceId));
    assert |path| > |dir|;
    var env' := SaveSettingsTo(env, deviceId, Some(s)).value;
    assert env'.configFiles == env.configFiles[dir := s];
    assert path != dir;
  }

  /** The sink the input-file constructor picks: Feather only for "feather", CSV with prefix "CX1_" otherwise. */
  function SelectOutput(outputType: Option<string>, outputDirectory: Option<string>): (r: OutputSink)
    ensures r.FeatherOutput? <==> outputType == Some("feather")
    ensures r.CsvOutput? ==> r == CsvOutput(outputDirectory, "CX1_")
  {
    match outputType
    case Some("csv") => CsvOutput(outputDirectory, "CX1_")
    case Some("feather") => FeatherOutput
    case _ => CsvOutput(outputDirectory, "CX1_")
  }

  /**
   * A null output directory in the input is not caught at construction: the
   * CSV sink it selects throws `ArgumentNull` from `Path.Combine` on the
   * first write of a batch with a timestamp, and no file changes.
   */
  lemma NullDirectoryCsvWriteThrows(outputType: Option<string>, d: VibrationData, files: FileSystem)
    requires outputType != Some("feather") && |d.time| > 0
    ensures WriteSpec(SelectOutput(outputType, None), d, files) == WriteOutcome(Err(ArgumentNull), files)
  {
  }

  /** The samples whose acceleration is valid, in order. */
  function ValidSamples(samples: seq<Sample>): (r: seq<Sample>)
    ensures |r| <= |samples|
  {
    if samples == [] then []
    else
      var last := samples[|samples| - 1];
      ValidSamples(samples[..|samples| - 1]) + (if last.accelerationValid then [last] else [])
  }

  /** The filter keeps exactly the valid samples. */
  lemma {:induction false} ValidSamplesMembers(samples: seq<Sample>, s: Sample)
    ensures s in ValidSamples(samples) <==> s in samples && s.accelerationValid
  {
    if samples != [] {
      var init := samples[..|samples| - 1];
      ValidSamplesMembers(init, s);
      assert samples == init + [samples[|samples| - 1]];
    }
  }

  /** The four parallel columns of a run of samples. */
  function Columns(samples: seq<Sample>): (d: VibrationData)
    ensures Aligned(d) && |d.time| == |samples|
  {
    if samples == [] then VibrationData([], [], [], [])
    else
      var rest := Columns(samples[..|samples| - 1]);
      var s := samples[|samples| - 1];
      VibrationData(rest.time + [s.timeStamp], rest.accelX + [s.accelerationX],
                    rest.accelY + [s.accelerationY], rest.accelZ + [s.accelerationZ])
  }

  /** All samples of a run of polls, in arrival order. */
  function Flatten(polls: seq<seq<Sample>>): seq<Sample> {
    if polls == [] then [] else Flatten(polls[..|polls| - 1]) + polls[|polls| - 1]
  }

  /**
   * The batches `StartAcquisition` enqueues, one per poll: the columns are
   * never cleared, so batch k holds every valid sample of polls 0..k.
   */
  function AcquisitionBatches(polls: seq<seq<Sample>>): (r: seq<VibrationData>)
    ensures |r| == |polls|
  {
    if polls == [] then []
    else AcquisitionBatches(polls[..|polls| - 1]) + [Columns(ValidSamples(Flatten(polls)))]
  }

  /** One column set is a prefix of another, column by column. */
  predicate PrefixOf(a: VibrationData, b: VibrationData) {
    a.time <= b.time && a.accelX <= b.accelX && a.accelY <= b.accelY && a.accelZ <= b.accelZ
  }

  lemma {:induction false} ValidSamplesAppend(a: seq<Sample>, b: seq<Sample>)
    ensures ValidSamples(a + b) == ValidSamples(a) + ValidSamples(b)
    decreases |b|
  {
    if b == [] {
      assert a + b == a;
    } else {
      var ab := a + b;
      assert ab[..|ab| - 1] == a + b[..|b| - 1];
      ValidSamplesAppend(a, b[..|b| - 1]);
    }
  }

  /** Column-wise concatenation. */
  function Join(c1: VibrationData, c2: VibrationData): VibrationData {
    VibrationData(c1.time + c2.time, c1.accelX + c2.accelX, c1.accelY + c2.accelY, c1.accelZ + c2.accelZ)
  }

  lemma JoinAssociates(a: VibrationData, b: VibrationData, c: VibrationData)
    ensures Join(Join(a, b), c) == Join(a, Join(b, c))
  {
    assert (a.time + b.time) + c.time == a.time + (b.time + c.time);
    assert (a.accelX + b.accelX) + c.accelX == a.accelX + (b.accelX + c.accelX);
    assert (a.accelY + b.accelY) + c.accelY == a.accelY + (b.accelY + c.accelY);
    assert (a.accelZ + b.accelZ) + c.accelZ == a.accelZ + (b.accelZ + c.accelZ);
  }

  lemma {:induction false} ColumnsAppend(a: seq<Sample>, b: seq<Sample>)
    ensures Columns(a + b) == Join(Columns(a), Columns(b))
    decreases |b|
  {
    if b == [] {
      assert a + b == a;
    } else {
      var ab := a + b;
      assert ab[..|ab| - 1] == a + b[..|b| - 1];
      ColumnsAppend(a, b[..|b| - 1]);
    }
  }

  lemma {:induction false} AcquisitionBatchAt(polls: seq<seq<Sample>>, k: nat)
    requires k < |polls|
    ensures AcquisitionBatches(polls)[k] == Columns(ValidSamples(Flatten(polls[..k + 1])))
    decreases |polls|
  {
    var init := polls[..|polls| - 1];
    var last := Columns(ValidSamples(Flatten(polls)));
    assert AcquisitionBatches(polls) == AcquisitionBatches(init) + [last];
    if k < |polls| - 1 {
      AcquisitionBatchAt(init, k);
      assert init[..k + 1] == polls[..k + 1];
      assert AcquisitionBatches(polls)[k] == AcquisitionBatches(init)[k];
    } else {
      assert polls[..k + 1] == polls;
    }
  }

  /** Consecutive polls: the later batch extends the earlier one. */
  lemma ConsecutiveBatches(polls: seq<seq<Sample>>, k: nat)
    requires k + 1 < |polls|
    ensures PrefixOf(Columns(ValidSamples(Flatten(polls[..k + 1]))), Columns(ValidSamples(Flatten(polls[..k + 2]))))
  {
    var before := Flatten(polls[..k + 1]);
    assert polls[..k + 2][..k + 1] == polls[..k + 1];
    assert Flatten(polls[..k + 2]) == before + polls[k + 1];
    ValidSamplesAppend(before, polls[k + 1]);
    ColumnsAppend(ValidSamples(before), ValidSamples(polls[k + 1]));
  }

  /**
   * Every batch `StartAcquisition` enqueues has equal-length columns, holds
   * exactly the valid samples received so far in arrival order, and is a
   * prefix of the batch after it.
   */
  lemma AcquisitionBatchesGrow(polls: seq<seq<Sample>>, k: nat)
    requires k < |polls|
    ensures Aligned(AcquisitionBatches(polls)[k])
    ensures AcquisitionBatches(polls)[k] == Columns(ValidSamples(Flatten(polls[..k + 1])))
    ensures k + 1 < |polls| ==> PrefixOf(AcquisitionBatches(polls)[k], AcquisitionBatches(polls)[k + 1])
  {
    AcquisitionBatchAt(polls, k);
    if k + 1 < |polls| {
      AcquisitionBatchAt(polls, k + 1);
      ConsecutiveBatches(polls, k);
    }
  }

  /** One more sample: the columns grow by it exactly when it is valid. */
  lemma ColumnsAfterSample(acc: seq<Sample>, s: Sample)
    ensures Columns(ValidSamples(acc + [s])) ==
      Join(Columns(ValidSamples(acc)), if s.accelerationValid
        then VibrationData([s.timeStamp], [s.accelerationX], [s.accelerationY], [s.accelerationZ])
        else VibrationData([], [], [], []))
  {
    ValidSamplesAppend(acc, [s]);
    ColumnsAppend(ValidSamples(acc), ValidSamples([s]));
    assert [s][..0] == [];
  }

  /** One more poll: one more batch, over everything received so far. */
  lemma BatchesAfterPoll(polls: seq<seq<Sample>>, p: nat)
    requires p < |polls|
    ensures Flatten(polls[..p + 1]) == Flatten(polls[..p]) + polls[p]
    ensures AcquisitionBatches(polls[..p + 1]) ==
      AcquisitionBatches(polls[..p]) + [Columns(ValidSamples(Flatten(polls[..p]) + polls[p]))]
  {
    assert polls[..p + 1][..p] == polls[..p];
  }

  /** The inner-loop step of `StartAcquisition`: sample `q` extends the columns when it is valid. */
  lemma ColumnsStep(start: VibrationData, samples: seq<Sample>, q: nat)
    requires q < |samples|
    ensures var c := Join(start, Columns(ValidSamples(samples[..q])));
      var s := samples[q];
      Join(start, Columns(ValidSamples(samples[..q + 1]))) ==
        if s.accelerationValid
        then VibrationData(c.time + [s.timeStamp], c.accelX + [s.accelerationX], c.accelY + [s.accelerationY], c.accelZ + [s.accelerationZ])
        else c
  {
    var s := samples[q];
    var added := if s.accelerationValid
      then VibrationData([s.timeStamp], [s.accelerationX], [s.accelerationY], [s.accelerationZ])
      else VibrationData([], [], [], []);
    assert samples[..q + 1] == samples[..q] + [s];
    ColumnsAfterSample(samples[..q], s);
    JoinAssociates(start, Columns(ValidSamples(samples[..q])), added);
  }

  /** The outer-loop step of `StartAcquisition`: the columns after poll `p` are the next batch. */
  lemma BatchesStep(polls: seq<seq<Sample>>, p: nat)
    requires p < |polls|
    ensures var c := Join(Columns(ValidSamples(Flatten(polls[..p]))), Columns(ValidSamples(polls[p])));
      c == Columns(ValidSamples(Flatten(polls[..p + 1])))
      && AcquisitionBatches(polls[..p + 1]) == AcquisitionBatches(polls[..p]) + [c]
  {
    ValidSamplesAppend(Flatten(polls[..p]), polls[p]);
    ColumnsAppend(ValidSamples(Flatten(polls[..p])), ValidSamples(polls[p]));
    BatchesAfterPoll(polls, p);
  }

  /** The phase of sample `s` in demo batch `t`: `t + s * 0.01`. */
  function Phase(t: int, s: int): real {
    t as real + s as real * 0.01
  }

  /** Demo batch `t`: 1000 samples of sin, cos and 5 sin at evenly spaced phases from `t`. */
  function DemoBatch(w: Waveform, t: int): VibrationData {
    VibrationData(
      seq(DemoSampleSize, s => w.show(Phase(t, s))),
      seq(DemoSampleSize, s => w.sin(Phase(t, s))),
      seq(DemoSampleSize, s => w.cos(Phase(t, s))),
      seq(DemoSampleSize, s => 5.0 * w.sin(Phase(t, s))))
  }

  /**
   * The batches `RunDemo` enqueues in `n` iterations: one per iteration, each
   * a second of 1000 aligned samples. Sample `s` of batch `t` is taken at
   * phase t + s/100 (the phase counter restarts at 0 on every run), and its
   * z value is five times its x value.
   */
  function DemoBatches(w: Waveform, n: nat): (r: seq<VibrationData>)
    ensures |r| == n
    ensures forall t :: 0 <= t < n ==>
      && Aligned(r[t]) && |r[t].time| == DemoSampleSize
      && forall s :: 0 <= s < DemoSampleSize ==>
        && r[t].time[s] == w.show(Phase(t, s))
        && r[t].accelX[s] == w.sin(Phase(t, s))
        && r[t].accelY[s] == w.cos(Phase(t, s))
        && r[t].accelZ[s] == 5.0 * r[t].accelX[s]
  {
    seq(n, t => DemoBatch(w, t))
  }

  /** Each demo batch is a second of aligned samples whose z column is five times its x column. */
  lemma DemoBatchShape(w: Waveform, t: nat)
    ensures var d := DemoBatch(w, t);
      && Aligned(d) && |d.time| == DemoSampleSize
      && (forall s :: 0 <= s < DemoSampleSize ==> d.accelZ[s] == 5.0 * d.accelX[s])
  {
  }

  function Min(a: nat, b: nat): nat {
    if a <= b then a else b
  }

  /** What the file writer did with the batches it dequeued: how many it took, the files after, and the exception that ended it. */
  datatype DrainResult = DrainResult(consumed: nat, files: FileSystem, failure: Option<Exception>)

  /**
   * Writing `items` one after another until one throws. A batch is dequeued
   * before anything can throw, so the failing batch is consumed: without a
   * logging sink the debug message throws, and a null sink throws on `Write`.
   */
  function DrainRun(logs: bool, output: Option<OutputSink>, items: seq<VibrationData>, files: FileSystem): (r: DrainResult)
    ensures r.consumed <= |items|
    ensures r.failure.None? ==> r.consumed == |items|
    ensures r.failure.Some? ==> r.consumed >= 1
    ensures items == [] ==> r == DrainResult(0, files, None)
    ensures items != [] && !logs ==> r == DrainResult(1, files, Some(ArgumentNull))
    ensures items != [] && logs && output.None? ==> r == DrainResult(1, files, Some(NullReference))
    decreases |items|
  {
    if items == [] then DrainResult(0, files, None)
    else if !logs then DrainResult(1, files, Some(ArgumentNull))
    else if output.None? then DrainResult(1, files, Some(NullReference))
    else
      var w := WriteSpec(output.value, items[0], files);
      if w.result.Err? then DrainResult(1, w.files, Some(w.result.error))
      else
        var rest := DrainRun(logs, output, items[1..], w.files);
        DrainResult(rest.consumed + 1, rest.files, rest.failure)
  }

  /**
   * One dequeue of the file writer with no logging sink or no sink: the first
   * batch throws, from the debug message first and otherwise from `Write`.
   */
  lemma DrainWithoutSink(logs: bool, output: Option<OutputSink>, queued: seq<VibrationData>, files: FileSystem, c: nat, m: nat)
    requires c < m <= |queued| && (!logs || output.None?)
    ensures DrainRun(logs, output, queued[c..m], files) ==
      DrainResult(1, files, Some(if !logs then ArgumentNull else NullReference))
  {
  }

  /** One dequeue of the file writer whose write throws: the run ends with that batch. */
  lemma DrainHeadThrows(output: Option<OutputSink>, queued: seq<VibrationData>, files: FileSystem, c: nat, m: nat)
    requires c < m <= |queued| && output.Some? && WriteSpec(output.value, queued[c], files).result.Err?
    ensures var w := WriteSpec(output.value, queued[c], files);
      DrainRun(true, output, queued[c..m], files) == DrainResult(1, w.files, Some(w.result.error))
  {
    assert queued[c..m][0] == queued[c];
  }

  /** One dequeue of the file writer whose write completes: the run goes on from the next batch. */
  lemma DrainHeadWrites(output: Option<OutputSink>, queued: seq<VibrationData>, files: FileSystem, c: nat, m: nat)
    requires c < m <= |queued| && output.Some? && WriteSpec(output.value, queued[c], files).result.Ok?
    ensures var rest := DrainRun(true, output, queued[c + 1..m], WriteSpec(output.value, queued[c], files).files);
      DrainRun(true, output, queued[c..m], files) == DrainResult(rest.consumed + 1, rest.files, rest.failure)
  {
    assert queued[c..m][0] == queued[c];
    assert queued[c..m][1..] == queued[c + 1..m];
  }

  /** A run counted from `c` batches in. */
  function Shifted(r: DrainResult, c: nat): DrainResult {
    DrainResult(r.consumed + c, r.files, r.failure)
  }

  /**
   * One batch taken off the queue by the file writer: the debug message, then
   * the write. This is the first step of `DrainRun` over the batches from `c` on.
   */
  method DrainHead(logs: bool, output: Option<OutputSink>, data: VibrationData,
                   ghost queued: seq<VibrationData>, ghost c: nat, ghost m: nat, files: FileSystem)
    returns (files': FileSystem, failure: Option<Exception>)
    requires c < m <= |queued| && queued[c] == data
    ensures failure.Some? ==> DrainRun(logs, output, queued[c..m], files) == DrainResult(1, files', failure)
    ensures failure.None? ==> DrainRun(logs, output, queued[c..m], files) == Shifted(DrainRun(logs, output, queued[c + 1..m], files'), 1)
  {
    if !logs || output.None? {
      DrainWithoutSink(logs, output, queued, files, c, m);
      return files, Some(if !logs then ArgumentNull else NullReference);
    }
    var w := Write(output.value, data, files);
    if w.result.Err? {
      DrainHeadThrows(output, queued, files, c, m);
      return w.files, Some(w.result.error);
    }
    DrainHeadWrites(output, queued, files, c, m);
    files', failure := w.files, None;
  }

  /**
   * The file writer's loop over a queue: at most `steps` times, dequeue a
   * batch and write it, stopping at the first exception. A poll that finds
   * the queue empty changes nothing, so only the first `Min(steps, |queued|)`
   * polls matter. Returns how many batches left the queue.
   */
  method DrainQueue(logs: bool, output: Option<OutputSink>, queued: seq<VibrationData>, steps: nat, files: FileSystem)
    returns (consumed: nat, files': FileSystem, failure: Option<Exception>)
    ensures DrainRun(logs, output, queued[..Min(steps, |queued|)], files) == DrainResult(consumed, files', failure)
  {
    var m := Min(steps, |queued|);
    ghost var whole := DrainRun(logs, output, queued[..m], files);
    assert queued[..m] == queued[0..m];
    consumed, files' := 0, files;
    while consumed < m
      invariant consumed <= m
      invariant whole == Shifted(DrainRun(logs, output, queued[consumed..m], files'), consumed)
    {
      files', failure := DrainHead(logs, output, queued[consumed], queued, consumed, m, files');
      consumed := consumed + 1;
      if failure.Some? {
        return;
      }
    }
    assert queued[m..m] == [];
    failure := None;
  }

  /** Whether `sink` completes a write of `d`; for both sinks this does not depend on the files. */
  predicate WritesCleanly(sink: OutputSink, d: VibrationData) {
    sink.FeatherOutput? || (Target(sink, d).Some? && SelectionCompletes(d))
  }

  /** `WritesCleanly` is exactly a write that returns, whatever files exist. */
  lemma WritesCleanlyIsOk(sink: OutputSink, d: VibrationData, files: FileSystem)
    ensures WritesCleanly(sink, d) <==> WriteSpec(sink, d, files).result.Ok?
  {
    WriteSpecOutcome(sink, d, files);
  }

  /** The first batch written cleanly: the writer goes on with the rest. */
  lemma DrainFirstWrites(sink: OutputSink, items: seq<VibrationData>, files: FileSystem)
    requires items != [] && WritesCleanly(sink, items[0])
    ensures DrainRun(true, Some(sink), items, files) ==
      Shifted(DrainRun(true, Some(sink), items[1..], WriteSpec(sink, items[0], files).files), 1)
  {
    WritesCleanlyIsOk(sink, items[0], files);
  }

  /** The first batch not written cleanly: the writer stops, having taken it. */
  lemma DrainFirstThrows(sink: OutputSink, items: seq<VibrationData>, files: FileSystem)
    requires items != [] && !WritesCleanly(sink, items[0])
    ensures DrainRun(true, Some(sink), items, files).consumed == 1
    ensures DrainRun(true, Some(sink), items, files).failure.Some?
  {
    WritesCleanlyIsOk(sink, items[0], files);
  }

  /** The file writer takes every batch when every one writes cleanly. */
  lemma {:induction false} DrainTakesAllClean(sink: OutputSink, items: seq<VibrationData>, files: FileSystem)
    requires forall i :: 0 <= i < |items| ==> WritesCleanly(sink, items[i])
    ensures DrainRun(true, Some(sink), items, files).consumed == |items|
    ensures DrainRun(true, Some(sink), items, files).failure.None?
    decreases |items|
  {
    if items != [] {
      DrainFirstWrites(sink, items, files);
      var rest := items[1..];
      assert forall i :: 0 <= i < |rest| ==> rest[i] == items[i + 1];
      DrainTakesAllClean(sink, rest, WriteSpec(sink, items[0], files).files);
    }
  }

  /**
   * The file writer stops at the first batch that does not write cleanly (an
   * odd sample count, an empty time column, a null directory): it has taken
   * that batch and leaves the rest queued.
   */
  lemma {:induction false} DrainStopsAtFirstFailure(sink: OutputSink, items: seq<VibrationData>, files: FileSystem, j: nat)
    requires j < |items| && !WritesCleanly(sink, items[j])
    requires forall i :: 0 <= i < j ==> WritesCleanly(sink, items[i])
    ensures DrainRun(true, Some(sink), items, files).consumed == j + 1
    ensures DrainRun(true, Some(sink), items, files).failure.Some?
    decreases j
  {
    if j == 0 {
      DrainFirstThrows(sink, items, files);
    } else {
      DrainFirstWrites(sink, items, files);
      var rest := items[1..];
      assert forall i :: 0 <= i < |rest| ==> rest[i] == items[i + 1];
      DrainStopsAtFirstFailure(sink, rest, WriteSpec(sink, items[0], files).files, j - 1);
    }
  }

  /**
   * With the Feather sink every batch is written, in order, to the one path
   * "./", so after the run it holds the time column of the last batch taken.
   */
  lemma {:induction false} FeatherDrainKeepsLastBatch(items: seq<VibrationData>, files: FileSystem)
    requires items != []
    ensures DrainRun(true, Some(FeatherOutput), items, files).failure.None?
    ensures DrainRun(true, Some(FeatherOutput), items, files).files ==
      files[FeatherPath := FeatherFile([("time", items[|items| - 1].time)])]
    decreases |items|
  {
    var next := WriteSpec(FeatherOutput, items[0], files).files;
    if |items| > 1 {
      FeatherDrainKeepsLastBatch(items[1..], next);
      assert items[1..][|items| - 2] == items[|items| - 1];
      assert next[FeatherPath := FeatherFile([("time", items[|items| - 1].time)])] ==
        files[FeatherPath := FeatherFile([("time", items[|items| - 1].time)])];
    }
  }

  /**
   * One poll of `StartAcquisition`: every valid sample, in order, is appended
   * to the timestamp and the three acceleration lists.
   */
  method AppendValidSamples(columns: VibrationData, samples: seq<Sample>) returns (r: VibrationData)
    ensures r == Join(columns, Columns(ValidSamples(samples)))
  {
    var timestamps, accelX, accelY, accelZ := columns.time, columns.accelX, columns.accelY, columns.accelZ;
    var q := 0;
    assert samples[..q] == [];
    assert columns == Join(columns, Columns(ValidSamples([])));
    while q < |samples|
      invariant 0 <= q <= |samples|
      invariant VibrationData(timestamps, accelX, accelY, accelZ) == Join(columns, Columns(ValidSamples(samples[..q])))
    {
      var s := samples[q];
      ColumnsStep(columns, samples, q);
      if s.accelerationValid {
        timestamps := timestamps + [s.timeStamp];
        accelX := accelX + [s.accelerationX];
        accelY := accelY + [s.accelerationY];
        accelZ := accelZ + [s.accelerationZ];
      }
      q := q + 1;
    }
    assert samples[..q] == samples;
    r := VibrationData(timestamps, accelX, accelY, accelZ);
  }

  /** A C# string in a concatenation: null contributes nothing. */
  function OrEmpty(s: Option<string>): string {
    if s.Some? then s.value else ""
  }

  class Logger {
    var deviceId: Option<string>
    var output: Option<OutputSink>
    var dataBuffers: seq<VibrationData>
    var settings: Option<AcquisitionSettings>
    var isActive: bool
    var demo: bool
    /**
     * Whether the `ILogger` sink was supplied. `LogDebug`, `LogInformation`
     * and `LogWarning` are extension methods that check their receiver, so
     * every logging call on a missing sink throws `ArgumentNull`.
     */
    var hasLogs: bool

    /** `Logger(demo, device_id, logger, token)`: settings from the config file or the default, CSV output under them. */
    constructor (demo: bool, deviceId: string, env: ConfigEnvironment)
      ensures this.deviceId == Some(deviceId) && this.demo == demo && hasLogs
      ensures settings == Some(InitialiseSettings(env, deviceId))
      ensures output == Some(CsvOutput(InitialiseSettings(env, deviceId).outputDirectory, deviceId + "_"))
      ensures dataBuffers == [] && !isActive
    {
      this.deviceId := Some(deviceId);
      var s := InitialiseSettings(env, deviceId);
      settings := Some(s);
      output := Some(CsvOutput(s.outputDirectory, deviceId + "_"));
      dataBuffers := [];
      hasLogs := true;
      isActive := false;
      this.demo := demo;
    }

    /** `Logger(cx, device, input)`: the sink follows the input's output type; everything else keeps its default. */
    constructor FromInput(input: InputData)
      ensures output == Some(SelectOutput(input.outputType, input.outputDirectory))
      ensures deviceId.None? && settings.None? && dataBuffers == [] && !isActive && !demo && !hasLogs
    {
      deviceId := None;
      settings := None;
      output := Some(SelectOutput(input.outputType, input.outputDirectory));
      dataBuffers := [];
      hasLogs := false;
      isActive := false;
      demo := false;
    }

    /**
     * The one-argument constructor the demo registry calls, which Logger.cs
     * does not define: it is taken to record the demo flag and nothing else.
     */
    constructor Unconfigured(demo: bool)
      ensures this.demo == demo && deviceId.None? && settings.None? && output.None?
      ensures dataBuffers == [] && !isActive && !hasLogs
    {
      deviceId := None;
      settings := None;
      output := None;
      dataBuffers := [];
      hasLogs := false;
      isActive := false;
      this.demo := demo;
    }

    /**
     * `Connect`: true exactly when the login returns Ok, false when it is
     * refused or anything throws. Both false paths log first, which throws
     * out of the method when there is no logging sink.
     */
    method Connect(attempt: ConnectAttempt) returns (r: Result<bool, Exception>)
      ensures r == Ok(true) <==> attempt == LoggedIn(LoginOk)
      ensures r.Err? <==> attempt != LoggedIn(LoginOk) && !hasLogs
      ensures r.Err? ==> r.error == ArgumentNull
    {
      match attempt {
        case ConnectThrew =>
          r := if hasLogs then Ok(false) else Err(ArgumentNull);
        case LoggedIn(status) =>
          if status == LoginOk {
            r := Ok(true);
          } else {
            r := if hasLogs then Ok(false) else Err(ArgumentNull);
          }
      }
    }

    /**
     * `StartAcquisition`: a failed reconnect is only reported, a refused
     * `StreamEnable` returns before anything is queued, and otherwise every
     * poll appends the valid samples to the four columns and enqueues them.
     */
    method StartAcquisition(session: DeviceSession) returns (failure: Option<Exception>)
      modifies this`dataBuffers
      ensures failure.Some? <==> !session.isConnected && session.reconnect != LoggedIn(LoginOk) && !hasLogs
      ensures failure.Some? || !session.streamEnabled ==> dataBuffers == old(dataBuffers)
      ensures failure.None? && session.streamEnabled ==> dataBuffers == old(dataBuffers) + AcquisitionBatches(session.polls)
    {
      if !session.isConnected {
        var reconnected := Connect(session.reconnect);
        if reconnected.Err? {
          return Some(reconnected.error);
        }
      }
      failure := None;
      if !session.streamEnabled {
        return;
      }
      var polls := session.polls;
      var columns := VibrationData([], [], [], []);
      var p := 0;
      while p < |polls|
        invariant 0 <= p <= |polls|
        invariant columns == Columns(ValidSamples(Flatten(polls[..p])))
        invariant dataBuffers == old(dataBuffers) + AcquisitionBatches(polls[..p])
      {
        columns := AppendValidSamples(columns, polls[p]);
        BatchesStep(polls, p);
        dataBuffers := dataBuffers + [columns];
        p := p + 1;
      }
      assert polls[..p] == polls;
    }

    /** `StopAcquisition` has an empty body: the logger, its queue included, is left as it was. */
    method StopAcquisition()
      ensures unchanged(this)
    {
    }

    /**
     * `RunDemo`'s producer loop, for `iterations` rounds before the device
     * token is cancelled: each round builds one 1000-sample batch and enqueues
     * it. Its first statement logs; the file-writing thread it starts is
     * `WriteFiles`.
     */
    method RunDemo(iterations: nat, w: Waveform) returns (failure: Option<Exception>)
      modifies this`dataBuffers
      ensures failure.Some? <==> !hasLogs
      ensures failure.Some? ==> dataBuffers == old(dataBuffers)
      ensures failure.None? ==> dataBuffers == old(dataBuffers) + DemoBatches(w, iterations)
    {
      if !hasLogs {
        return Some(ArgumentNull);
      }
      var t := 0;
      while t < iterations
        invariant 0 <= t <= iterations
        invariant dataBuffers == old(dataBuffers) + DemoBatches(w, t)
      {
        var timestamps: seq<string>, accelX: seq<real>, accelY: seq<real>, accelZ: seq<real> := [], [], [], [];
        var s := 0;
        while s < DemoSampleSize
          invariant 0 <= s <= DemoSampleSize
          invariant timestamps == seq(s, i => w.show(Phase(t, i)))
          invariant accelX == seq(s, i => w.sin(Phase(t, i)))
          invariant accelY == seq(s, i => w.cos(Phase(t, i)))
          invariant accelZ == seq(s, i => 5.0 * w.sin(Phase(t, i)))
        {
          var phase := Phase(t, s);
          timestamps := timestamps + [w.show(phase)];
          accelX := accelX + [w.sin(phase)];
          accelY := accelY + [w.cos(phase)];
          accelZ := accelZ + [5.0 * w.sin(phase)];
          s := s + 1;
        }
        dataBuffers := dataBuffers + [VibrationData(timestamps, accelX, accelY, accelZ)];
        t := t + 1;
      }
      failure := None;
    }

    /** `Start`: logs, then runs the demo producer in demo mode and does nothing else otherwise. */
    method Start(iterations: nat, w: Waveform) returns (failure: Option<Exception>)
      modifies this`dataBuffers
      ensures failure.Some? <==> !hasLogs
      ensures demo && hasLogs ==> dataBuffers == old(dataBuffers) + DemoBatches(w, iterations)
      ensures !demo || !hasLogs ==> dataBuffers == old(dataBuffers)
    {
      if !hasLogs {
        return Some(ArgumentNull);
      }
      failure := None;
      if demo {
        failure := RunDemo(iterations, w);
      }
    }

    /**
     * `WriteFiles` for `steps` polls of the queue before its token is
     * cancelled: each poll that finds a batch dequeues it and writes it at
     * once. An exception escapes the thread and is not caught; cancellation leaves whatever is
     * still queued where it is, and is itself logged.
     */
    method WriteFiles(steps: nat, files: FileSystem) returns (files': FileSystem, failure: Option<Exception>)
      modifies this`dataBuffers
      ensures var run := DrainRun(hasLogs, output, old(dataBuffers)[..Min(steps, |old(dataBuffers)|)], files);
        && dataBuffers == old(dataBuffers)[run.consumed..] && files' == run.files
        && failure == (if run.failure.None? && !hasLogs then Some(ArgumentNull) else run.failure)
    {
      var consumed, stop;
      consumed, files', stop := DrainQueue(hasLogs, output, dataBuffers, steps, files);
      dataBuffers := dataBuffers[consumed..];
      failure := if stop.None? && !hasLogs then Some(ArgumentNull) else stop;
    }

    /**
     * `SaveSettings`: this logger's settings go to the path `SaveTarget`
     * names for its id (a null id reads as the empty string). The path is
     * logged before the save, which throws when there is no logging sink.
     */
    method SaveSettings(env: ConfigEnvironment) returns (r: Result<ConfigEnvironment, Exception>)
      ensures !hasLogs ==> r == Err(ArgumentNull)
      ensures hasLogs ==> r == SaveSettingsTo(env, OrEmpty(deviceId), settings)
    {
      if !hasLogs {
        return Err(ArgumentNull);
      }
      if settings.None? {
        return Err(NullReference);
      }
      var target := SaveTarget(env, OrEmpty(deviceId));
      if target.None? {
        return Err(ArgumentNull);
      }
      r := Ok(env.(configFiles := env.configFiles[target.value := settings.value]));
    }
  }
}
