/**
 * Shared vocabulary of the model: optional and fallible values, the C#
 * exceptions the core can raise, 32-bit integers with wrap-around, and the
 * Unix behaviour of `Path.Combine`.
 */
module Support {

  datatype Option<+T> = None | Some(value: T)

  datatype Result<+T, +E> = Ok(value: T) | Err(error: E)

  /** The .NET exceptions the modelled code can raise. */
  datatype Exception =
    | KeyNotFound        // Dictionary indexer on a missing key
    | ArgumentOutOfRange // List indexer outside the list
    | ArgumentNull       // Path.Combine on a null path; a logging call on a null ILogger
    | NullReference      // member access on a null object

  const TwoTo31: int := 0x8000_0000
  const TwoTo32: int := 0x1_0000_0000

  /** C#'s `int`. */
  newtype int32 = x: int | -0x8000_0000 <= x < 0x8000_0000

  predicate InRange32(x: int) {
    -TwoTo31 <= x < TwoTo31
  }

  /** The value an unchecked C# `int` operation yields for the exact result `x`. */
  function Wrap32(x: int): (r: int32)
    ensures InRange32(x) ==> r as int == x
    ensures (r as int - x) % TwoTo32 == 0
  {
    var w := (x + TwoTo31) % TwoTo32 - TwoTo31;
    assert InRange32(x) ==> w == x;
    w as int32
  }

  /**
   * `System.IO.Path.Combine(path1, path2)` with '/' as the separator: an empty
   * part yields the other one, a rooted second part wins, and a separator is
   * inserted only when the first part does not already end with one.
   */
  function Combine(path1: string, path2: string): string
  {
    if |path2| == 0 then path1
    else if |path1| == 0 then path2
    else if path2[0] == '/' then path2
    else if path1[|path1| - 1] == '/' then path1 + path2
    else path1 + "/" + path2
  }

  /**
   * A non-empty second part always ends the combined path, and a relative
   * one is placed after the whole first part.
   */
  lemma CombineKeepsParts(path1: string, path2: string)
    ensures var r := Combine(path1, path2);
      && (|path2| > 0 ==> |r| >= |path2| && r[|r| - |path2|..] == path2)
      && (|path2| > 0 && path2[0] != '/' && |path1| > 0 ==> |r| >= |path1| + |path2| && r[..|path1|] == path1)
  {
  }
}
