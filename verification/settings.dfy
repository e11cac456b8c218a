/**
 * Per-device acquisition settings (snsrpi-device/Models/Settings.cs).
 *
 * The source declares the class as `AcqusitionSettings`; Logger.cs refers to
 * it as `AcquisitionSettings` with a static `Create` (modelled here as the
 * three-argument constructor) and `LoadFromFile` (a file read, supplied to
 * the model as data). Reference-typed fields are nullable in C#, hence the
 * `Option`s: the one-argument constructor leaves all of them null.
 */
module Settings {
  import opened Support

  datatype SaveIntervalSettings = SaveIntervalSettings(unit: string, interval: int32)

  datatype FileUploadSettings = FileUploadSettings(active: bool, endPoint: string)

  datatype AcquisitionSettings = AcquisitionSettings(
    sampleRate: int32,
    outputType: Option<string>,
    offlineMode: bool,
    outputDirectory: Option<string>,
    fileUpload: Option<FileUploadSettings>,
    saveInterval: Option<SaveIntervalSettings>)

  /** The static `multipliers` dictionary: seconds per unit. */
  const Multipliers: map<string, int> := map["second" := 1, "minute" := 60, "hour" := 3600]

  /**
   * `SaveIntervalSettings.TotalSeconds`: a dictionary lookup (KeyNotFound for
   * any other unit) times the interval, in unchecked 32-bit arithmetic.
   */
  function TotalSeconds(s: SaveIntervalSettings): (r: Result<int32, Exception>)
    ensures r.Ok? <==> s.unit == "second" || s.unit == "minute" || s.unit == "hour"
    ensures r.Err? ==> r.error == KeyNotFound
    ensures s.unit == "second" ==> r == Ok(s.interval)
    ensures s.unit == "minute" && InRange32(60 * s.interval as int) ==> r == Ok((60 * s.interval as int) as int32)
    ensures s.unit == "hour" && InRange32(3600 * s.interval as int) ==> r == Ok((3600 * s.interval as int) as int32)
  {
    if s.unit in Multipliers then Ok(Wrap32(Multipliers[s.unit] * s.interval as int))
    else Err(KeyNotFound)
  }

  /** A known unit and a positive interval give a positive count, as long as the product fits in an `int`. */
  lemma TotalSecondsPositive(s: SaveIntervalSettings)
    requires s.unit in Multipliers && s.interval > 0
    requires InRange32(Multipliers[s.unit] * s.interval as int)
    ensures TotalSeconds(s).Ok? && TotalSeconds(s).value > 0
  {
    assert Multipliers[s.unit] >= 1;
  }

  /** Beyond the `int` range the product wraps: 600000 hours come out negative. */
  lemma TotalSecondsWrapsForLongIntervals()
    ensures TotalSeconds(SaveIntervalSettings("hour", 600000)) == Ok(-2134967296)
  {
    assert Multipliers["hour"] == 3600;
    assert (3600 * 600000 + TwoTo31) % TwoTo32 - TwoTo31 == -2134967296;
  }

  /** `IsActive`: the stored upload flag. */
  function IsActive(f: FileUploadSettings): (r: bool)
    ensures r == f.active
  {
    f.active
  }

  /** The three-argument constructor. */
  function Create(sample: int32, outputType: string, directory: string): AcquisitionSettings
  {
    AcquisitionSettings(sample, Some(outputType), false, Some(directory),
                        Some(FileUploadSettings(true, "aws.endpoint.arup")),
                        Some(SaveIntervalSettings("minute", 5)))
  }

  /** The one-argument ("demo") constructor, whose body is empty: every field keeps its default. */
  function CreateDemo(demo: bool): AcquisitionSettings
  {
    AcquisitionSettings(0, None, false, None, None, None)
  }

  /**
   * The three-argument constructor stores rate, type and directory verbatim,
   * turns offline mode off, enables upload to "aws.endpoint.arup" through
   * `new FileUploadSettings(true, ...)`, whose flag `IsActive` reports, and saves
   * every five minutes, i.e. every 300 seconds.
   */
  lemma CreateDefaults(sample: int32, outputType: string, directory: string)
    ensures var c := Create(sample, outputType, directory);
      && c.sampleRate == sample && c.outputType == Some(outputType)
      && c.outputDirectory == Some(directory) && !c.offlineMode
      && c.fileUpload.Some? && IsActive(c.fileUpload.value)
      && c.fileUpload.value.endPoint == "aws.endpoint.arup"
      && c.saveInterval == Some(SaveIntervalSettings("minute", 5))
      && TotalSeconds(c.saveInterval.value) == Ok(300)
  {
  }

  /** The demo constructor leaves every setting at its type default (0, false or null). */
  lemma CreateDemoDefaults(demo: bool)
    ensures var c := CreateDemo(demo);
      && c.sampleRate == 0 && !c.offlineMode
      && c.outputType.None? && c.outputDirectory.None?
      && c.fileUpload.None? && c.saveInterval.None?
  {
  }
}
