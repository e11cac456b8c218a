/**
 * Start-up input (snsrpi-device/Models/InputData.cs): defaults and the
 * fallback-to-defaults JSON load.
 *
 * The current directory and today's date are parameters; the file system is a
 * map from existing paths to what reading them yields, and the JSON
 * deserializer is a function from text to its outcome.
 */
module Inputs {
  import opened Support

  /**
   * The string properties are nullable: the deserializer sets a property to
   * null when the JSON gives an explicit null for it.
   */
  datatype InputData = InputData(sampleRate: int32, outputDirectory: Option<string>, outputType: Option<string>)

  datatype Date = Date(year: nat, month: nat, day: nat)

  /** The range of a .NET `DateTime` date. */
  predicate ValidDate(d: Date) {
    1 <= d.year <= 9999 && 1 <= d.month <= 12 && 1 <= d.day <= 31
  }

  function Pow10(k: nat): (r: nat)
    ensures r >= 1
  {
    if k == 0 then 1 else 10 * Pow10(k - 1)
  }

  predicate IsDigit(c: char) {
    '0' <= c <= '9'
  }

  /** `n` in decimal, left-padded with zeros to exactly `width` characters. */
  function Digits(n: nat, width: nat): (s: string)
    requires n < Pow10(width)
    ensures |s| == width
    ensures forall i :: 0 <= i < |s| ==> IsDigit(s[i])
  {
    if width == 0 then ""
    else Digits(n / 10, width - 1) + [('0' as int + n % 10) as char]
  }

  /** The number a string of decimal digits denotes. */
  function DigitsValue(s: string): nat
    requires forall i :: 0 <= i < |s| ==> IsDigit(s[i])
  {
    if s == [] then 0
    else
      assert IsDigit(s[|s| - 1]);
      10 * DigitsValue(s[..|s| - 1]) + (s[|s| - 1] as int - '0' as int)
  }

  lemma {:induction false} DigitsRoundTrip(n: nat, width: nat)
    requires n < Pow10(width)
    ensures DigitsValue(Digits(n, width)) == n
  {
    if width > 0 {
      var s := Digits(n, width);
      assert s[..|s| - 1] == Digits(n / 10, width - 1);
      DigitsRoundTrip(n / 10, width - 1);
    }
  }

  /** `{currentDate:yyyyMMdd}`. */
  function DateStamp(d: Date): (s: string)
    requires ValidDate(d)
    ensures |s| == 8
    ensures forall i :: 0 <= i < |s| ==> IsDigit(s[i])
  {
    Digits(d.year, 4) + Digits(d.month, 2) + Digits(d.day, 2)
  }

  /** Reading the stamp back as year, month and day. */
  function ParseDateStamp(s: string): Date
    requires |s| == 8 && forall i :: 0 <= i < |s| ==> IsDigit(s[i])
  {
    Date(DigitsValue(s[..4]), DigitsValue(s[4..6]), DigitsValue(s[6..]))
  }

  /** The stamp loses nothing: distinct dates name distinct data directories. */
  lemma DateStampRoundTrip(d: Date)
    requires ValidDate(d)
    ensures ParseDateStamp(DateStamp(d)) == d
  {
    var s := DateStamp(d);
    assert s[..4] == Digits(d.year, 4);
    assert s[4..6] == Digits(d.month, 2);
    assert s[6..] == Digits(d.day, 2);
    DigitsRoundTrip(d.year, 4);
    DigitsRoundTrip(d.month, 2);
    DigitsRoundTrip(d.day, 2);
  }

  /** The directory name the default constructor appends to the current directory. */
  function DataDirectoryName(today: Date): string
    requires ValidDate(today)
  {
    "CX1_Data_" + DateStamp(today) + "/"
  }

  /** `new InputData()`. */
  function Default(cwd: string, today: Date): InputData
    requires ValidDate(today)
  {
    InputData(500, Some(Combine(cwd, DataDirectoryName(today))), Some("feather"))
  }

  /**
   * The defaults: rate 500, type "feather" (not "csv", as InputDataTests
   * expects), and a per-day directory under the current one.
   */
  lemma DefaultValues(cwd: string, today: Date)
    requires ValidDate(today) && |cwd| > 0
    ensures var r := Default(cwd, today);
      && r.sampleRate == 500 && r.outputType == Some("feather") && r.outputDirectory.Some?
      && var dir := r.outputDirectory.value;
      && |dir| >= |cwd| + 18
      && dir[..|cwd|] == cwd
      && dir[|dir| - 18..] == DataDirectoryName(today)
      && dir[|dir| - 9..|dir| - 1] == DateStamp(today)
  {
    DataDirectoryNameShape(today);
    DirectoryUnderCwd(cwd, DataDirectoryName(today), DateStamp(today));
  }

  /** A relative 18-character name combined under `cwd`, with its stamp at positions 9 to 16. */
  lemma DirectoryUnderCwd(cwd: string, name: string, stamp: string)
    requires |cwd| > 0 && |name| == 18 && name[0] != '/' && name[9..17] == stamp
    ensures var dir := Combine(cwd, name);
      && |dir| >= |cwd| + 18 && dir[..|cwd|] == cwd && dir[|dir| - 18..] == name
      && dir[|dir| - 9..|dir| - 1] == stamp
  {
    var dir := Combine(cwd, name);
    CombineKeepsParts(cwd, name);
    assert dir[|dir| - 9..|dir| - 1] == dir[|dir| - 18..][9..17];
  }

  /** The data directory name is 18 characters, with the date stamp at positions 9 to 16. */
  lemma DataDirectoryNameShape(today: Date)
    requires ValidDate(today)
    ensures |DataDirectoryName(today)| == 18 && DataDirectoryName(today)[0] == 'C'
    ensures DataDirectoryName(today)[9..17] == DateStamp(today)
  {
    var stamp := DateStamp(today);
    assert DataDirectoryName(today) == "CX1_Data_" + stamp + "/";
    assert ("CX1_Data_" + stamp + "/")[9..17] == stamp;
  }

  /** What opening and reading an existing file yields. */
  datatype FileRead = ReadFailed | Text(contents: string)

  /** What `JsonConvert.DeserializeObject<InputData>` yields: a value, null (for the text "null"), or an exception. */
  datatype JsonParse = Parsed(value: InputData) | ParsedNull | ParseFailed

  datatype InputEnvironment = InputEnvironment(cwd: string, today: Date, files: map<string, FileRead>)

  /**
   * `InputData.InitFromJSON`: the deserialized value when the file exists and
   * reads and parses; the defaults when it is missing or any step throws. The
   * result is `None` only when the file holds a JSON null. It never throws.
   */
  function InitFromJSON(path: string, env: InputEnvironment, parse: string -> JsonParse): (r: Option<InputData>)
    requires ValidDate(env.today)
    ensures r.None? <==> path in env.files && env.files[path].Text? && parse(env.files[path].contents).ParsedNull?
    ensures path !in env.files ==> r == Some(Default(env.cwd, env.today))
    ensures path in env.files && env.files[path].ReadFailed? ==> r == Some(Default(env.cwd, env.today))
    ensures path in env.files && env.files[path].Text? && parse(env.files[path].contents).ParseFailed? ==>
      r == Some(Default(env.cwd, env.today))
    ensures path in env.files && env.files[path].Text? && parse(env.files[path].contents).Parsed? ==>
      r == Some(parse(env.files[path].contents).value)
    ensures r.Some? && r.value != Default(env.cwd, env.today) ==>
      path in env.files && env.files[path].Text? && parse(env.files[path].contents) == Parsed(r.value)
  {
    if path in env.files then
      match env.files[path]
      case ReadFailed => Some(Default(env.cwd, env.today))
      case Text(t) =>
        match parse(t)
        case Parsed(v) => Some(v)
        case ParsedNull => None
        case ParseFailed => Some(Default(env.cwd, env.today))
    else
      Some(Default(env.cwd, env.today))
  }
}
