/**
 * Output sinks (snsrpi-device/Models/OutputData.cs).
 *
 * A sink turns one `VibrationData` batch into a file. The file system is a
 * value: a map from path to the content last written there. The CSV sink
 * names its file after the batch's first timestamp and, because its loop
 * advances the index a second time inside the body, emits only the samples
 * at odd indices and runs past the end on an odd sample count. The Feather
 * sink ignores its directory and prefix and writes the time column to "./".
 */
module OutputData {
  import opened Support
  import opened Vibration

  datatype CsvRecord = CsvRecord(time: string, x: real, y: real, z: real)

  datatype FileContent =
    | CsvFile(records: seq<CsvRecord>)
    | FeatherFile(columns: seq<(string, seq<string>)>)

  type FileSystem = map<string, FileContent>

  /** The two `OutputData` subclasses; `FeatherOutput` never sets its inherited fields. */
  datatype OutputSink =
    | CsvOutput(outputDir: Option<string>, outputPrefix: string)
    | FeatherOutput

  /** What `Write` returns (or throws) together with the file system afterwards. */
  datatype WriteOutcome = WriteOutcome(result: Result<bool, Exception>, files: FileSystem)

  /** The path `new FeatherWriter` is given. */
  const FeatherPath: string := "./"

  /** The record built from index `i` of every column. */
  function RecordAt(d: VibrationData, i: nat): CsvRecord
    requires i < |d.time| && i < |d.accelX| && i < |d.accelY| && i < |d.accelZ|
  {
    CsvRecord(d.time[i], d.accelX[i], d.accelY[i], d.accelZ[i])
  }

  /**
   * The loop completes exactly when the count (of the x column) is even and
   * the other columns reach index count - 1.
   */
  predicate SelectionCompletes(d: VibrationData) {
    var n := |d.accelX|;
    n % 2 == 0 && (n == 0 || (n - 1 < |d.time| && n - 1 < |d.accelY| && n - 1 < |d.accelZ|))
  }

  /** The records list `CSVOutput.Write` builds, or the exception its loop raises. */
  function RecordSelection(d: VibrationData): Result<seq<CsvRecord>, Exception> {
    if SelectionCompletes(d) then
      Ok(seq(|d.accelX| / 2, j requires 0 <= j < |d.accelX| / 2 => RecordAt(d, 2 * j + 1)))
    else
      Err(ArgumentOutOfRange)
  }

  /** The record-selection loop of `CSVOutput.Write`, with its stray `i++`. */
  method SelectRecords(d: VibrationData) returns (r: Result<seq<CsvRecord>, Exception>)
    ensures r == RecordSelection(d)
  {
    var records: seq<CsvRecord> := [];
    var i := 0;
    while i < |d.accelX|
      invariant 0 <= i <= |d.accelX| && i % 2 == 0
      invariant i <= |d.time| && i <= |d.accelY| && i <= |d.accelZ|
      invariant |records| == i / 2
      invariant forall j :: 0 <= j < i / 2 ==> records[j] == RecordAt(d, 2 * j + 1)
    {
      i := i + 1;
      if i >= |d.time| || i >= |d.accelX| || i >= |d.accelY| || i >= |d.accelZ| {
        return Err(ArgumentOutOfRange);
      }
      records := records + [RecordAt(d, i)];
      i := i + 1;
    }
    assert SelectionCompletes(d);
    assert records == RecordSelection(d).value;
    return Ok(records);
  }

  /**
   * For an even count n (with the other columns long enough) the selection
   * holds n/2 records, the j-th built entirely from index 2j+1.
   */
  lemma EvenCountSelectsOddIndices(d: VibrationData)
    requires Aligned(d) && |d.accelX| % 2 == 0
    ensures RecordSelection(d).Ok?
    ensures |RecordSelection(d).value| == |d.accelX| / 2
    ensures forall j :: 0 <= j < |d.accelX| / 2 ==>
      var rec := RecordSelection(d).value[j];
      rec.time == d.time[2 * j + 1] && rec.x == d.accelX[2 * j + 1]
      && rec.y == d.accelY[2 * j + 1] && rec.z == d.accelZ[2 * j + 1]
  {
  }

  /** No sample at an even index is ever written, whatever the other samples are. */
  lemma EvenIndexSamplesAreDropped(d: VibrationData, i: nat)
    requires Aligned(d) && i < |d.accelX| && i % 2 == 0
    requires forall k :: 0 <= k < |d.time| && k != i ==> d.time[k] != d.time[i]
    ensures RecordSelection(d).Ok? ==> RecordAt(d, i) !in RecordSelection(d).value
  {
    if RecordSelection(d).Ok? {
      var recs := RecordSelection(d).value;
      forall j | 0 <= j < |recs| ensures recs[j] != RecordAt(d, i) {
        assert recs[j].time == d.time[2 * j + 1];
      }
    }
  }

  /** An odd count drives the index to count, which is out of range; an empty batch selects nothing. */
  lemma OddCountOverruns(d: VibrationData)
    ensures |d.accelX| % 2 == 1 ==> RecordSelection(d) == Err(ArgumentOutOfRange)
    ensures |d.accelX| == 0 ==> RecordSelection(d) == Ok([])
  {
    if |d.accelX| == 0 {
      assert |RecordSelection(d).value| == 0;
    }
  }

  /** `CSVOutput.GetFileName`: prefix, first timestamp, ".csv"; an empty time column throws. */
  function FileName(prefix: string, d: VibrationData): (r: Result<string, Exception>)
    ensures r.Ok? <==> |d.time| > 0
    ensures r.Err? ==> r.error == ArgumentOutOfRange
  {
    if |d.time| == 0 then Err(ArgumentOutOfRange) else Ok(prefix + d.time[0] + ".csv")
  }

  /** A file name starts with the prefix, ends with ".csv", and has the first timestamp between them. */
  lemma FileNameShape(prefix: string, d: VibrationData)
    requires |d.time| > 0
    ensures var name := FileName(prefix, d).value;
      && |name| == |prefix| + |d.time[0]| + 4
      && name[..|prefix|] == prefix && name[|prefix|..|name| - 4] == d.time[0] && name[|name| - 4..] == ".csv"
  {
  }

  /** Under one prefix, two batches get the same file name exactly when their first timestamps agree. */
  lemma FileNameIdentifiesFirstTimestamp(prefix: string, d1: VibrationData, d2: VibrationData)
    requires |d1.time| > 0 && |d2.time| > 0
    ensures FileName(prefix, d1) == FileName(prefix, d2) <==> d1.time[0] == d2.time[0]
  {
    FileNameShape(prefix, d1);
    FileNameShape(prefix, d2);
  }

  /**
   * The path the CSV sink opens: `Path.Combine(outputDir, GetFileName(data))`.
   * The file name is computed (and may throw) before the null check on the directory.
   */
  function CsvPath(outputDir: Option<string>, prefix: string, d: VibrationData): Result<string, Exception> {
    match FileName(prefix, d)
    case Err(e) => Err(e)
    case Ok(name) => if outputDir.None? then Err(ArgumentNull) else Ok(Combine(outputDir.value, name))
  }

  /** The one path a write to `sink` may touch, if it gets that far. */
  function Target(sink: OutputSink, d: VibrationData): Option<string> {
    match sink
    case FeatherOutput => Some(FeatherPath)
    case CsvOutput(dir, prefix) =>
      match CsvPath(dir, prefix, d)
      case Ok(p) => Some(p)
      case Err(_) => None
  }

  /** What the CSV file holds once opened: the selected records, or nothing when the selection throws. */
  function CsvContent(d: VibrationData): FileContent {
    match RecordSelection(d)
    case Ok(records) => CsvFile(records)
    case Err(_) => CsvFile([])
  }

  /** What the CSV write returns once the file is open. */
  function CsvResult(d: VibrationData): Result<bool, Exception> {
    match RecordSelection(d)
    case Ok(_) => Ok(true)
    case Err(e) => Err(e)
  }

  /**
   * `OutputData.Write` for both sinks. Opening the CSV file truncates it, so a
   * selection that fails leaves the target empty. Feather writes the time
   * column only.
   */
  function WriteSpec(sink: OutputSink, d: VibrationData, files: FileSystem): WriteOutcome
  {
    match sink
    case FeatherOutput =>
      WriteOutcome(Ok(true), files[FeatherPath := FeatherFile([("time", d.time)])])
    case CsvOutput(dir, prefix) =>
      match CsvPath(dir, prefix, d)
      case Err(e) => WriteOutcome(Err(e), files)
      case Ok(path) => WriteOutcome(CsvResult(d), files[path := CsvContent(d)])
  }

  /**
   * A write that completes returns true; Feather always completes; CSV
   * completes exactly when the path can be formed and the selection loop
   * finishes; and the write changes at most the one target path.
   */
  lemma WriteSpecOutcome(sink: OutputSink, d: VibrationData, files: FileSystem)
    ensures var w := WriteSpec(sink, d, files);
      && (w.result.Ok? ==> w.result.value)
      && (sink.FeatherOutput? ==> w.result.Ok? && w.files == files[FeatherPath := FeatherFile([("time", d.time)])])
      && (Target(sink, d).None? ==> w.files == files)
      && (Target(sink, d).Some? ==>
            var p := Target(sink, d).value;
            p in w.files && w.files == files[p := w.files[p]])
      && (sink.CsvOutput? ==> (w.result.Ok? <==> Target(sink, d).Some? && SelectionCompletes(d)))
  {
  }

  /** `Write`, running the selection loop for the CSV sink. */
  method Write(sink: OutputSink, d: VibrationData, files: FileSystem) returns (w: WriteOutcome)
    ensures w == WriteSpec(sink, d, files)
  {
    match sink {
      case FeatherOutput =>
        w := WriteOutcome(Ok(true), files[FeatherPath := FeatherFile([("time", d.time)])]);
      case CsvOutput(dir, prefix) =>
        var path := CsvPath(dir, prefix, d);
        if path.Err? {
          return WriteOutcome(Err(path.error), files);
        }
        var records := SelectRecords(d);
        if records.Err? {
          w := WriteOutcome(Err(records.error), files[path.value := CsvFile([])]);
        } else {
          w := WriteOutcome(Ok(true), files[path.value := CsvFile(records.value)]);
        }
    }
  }

  /** Writing a path twice leaves only the second content. */
  lemma Overwrite(files: FileSystem, p: string, first: FileContent, second: FileContent)
    ensures files[p := first][p := second] == files[p := second]
  {
  }

  /**
   * Two CSV writes whose first timestamps match go to the same path, and the
   * later one replaces whatever the earlier one left there.
   */
  lemma LaterWriteReplacesEarlier(dir: string, prefix: string, d1: VibrationData, d2: VibrationData, files: FileSystem)
    requires |d1.time| > 0 && |d2.time| > 0 && d1.time[0] == d2.time[0]
    ensures var sink := CsvOutput(Some(dir), prefix);
      Target(sink, d1) == Target(sink, d2)
      && WriteSpec(sink, d2, WriteSpec(sink, d1, files).files) == WriteSpec(sink, d2, files)
  {
    var sink := CsvOutput(Some(dir), prefix);
    var p := Combine(dir, FileName(prefix, d1).value);
    assert FileName(prefix, d2) == FileName(prefix, d1);
    assert CsvPath(Some(dir), prefix, d1) == Ok(p) && CsvPath(Some(dir), prefix, d2) == Ok(p);
    assert WriteSpec(sink, d1, files).files == files[p := CsvContent(d1)];
    Overwrite(files, p, CsvContent(d1), CsvContent(d2));
  }
}
