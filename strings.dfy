/** `Array.prototype.join` on an array of strings. */
module Strings {

  /** The first part starts the result, and no separator is added to a single part. */
  function Join(parts: seq<string>, sep: string): (s: string)
    ensures |parts| == 0 ==> s == ""
    ensures |parts| == 1 ==> s == parts[0]
    ensures |parts| > 1 ==> parts[0] + sep <= s
    decreases |parts|
  {
    if |parts| == 0 then ""
    else if |parts| == 1 then parts[0]
    else parts[0] + sep + Join(parts[1..], sep)
  }

  /** The summed length of the parts. */
  function TotalLength(parts: seq<string>): nat
  {
    if parts == [] then 0 else |parts[0]| + TotalLength(parts[1..])
  }

  /** Joining n parts inserts exactly n - 1 separators and nothing else. */
  lemma {:induction false} JoinLength(parts: seq<string>, sep: string)
    ensures |parts| > 0 ==> |Join(parts, sep)| == TotalLength(parts) + (|parts| - 1) * |sep|
    ensures |parts| == 0 ==> Join(parts, sep) == ""
    decreases |parts|
  {
    if |parts| > 1 {
      JoinLength(parts[1..], sep);
    }
  }

  /** Appending a part appends the separator and that part. */
  lemma {:induction false} JoinAppend(parts: seq<string>, p: string, sep: string)
    requires |parts| > 0
    ensures Join(parts + [p], sep) == Join(parts, sep) + sep + p
    decreases |parts|
  {
    if |parts| > 1 {
      assert (parts + [p])[1..] == parts[1..] + [p];
      JoinAppend(parts[1..], p, sep);
    }
  }
}
