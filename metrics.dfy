/**
 * The label extraction of the metrics package: a destination name of the form
 * `<project>.<destination>[.<more>]` is split into its project and destination IDs.
 */
module Metrics {

  /** Go's `strings.Join(parts, string(sep))`. */
  function Join(parts: seq<string>, sep: char): string
  {
    if |parts| == 0 then ""
    else if |parts| == 1 then parts[0]
    else parts[0] + [sep] + Join(parts[1..], sep)
  }

  /**
   * Go's `strings.Split(s, string(sep))`: the pieces between the occurrences of
   * `sep`. There is always at least one piece (the empty string gives `[""]`),
   * no piece contains `sep`, and joining the pieces gives `s` back.
   */
  function Split(s: string, sep: char): (parts: seq<string>)
    ensures |parts| >= 1
    ensures forall i :: 0 <= i < |parts| ==> sep !in parts[i]
    ensures Join(parts, sep) == s
    decreases |s|
  {
    if |s| == 0 then [""]
    else
      var rest := Split(s[1..], sep);
      if s[0] == sep then [""] + rest
      else [[s[0]] + rest[0]] + rest[1..]
  }

  /** Index of the first `c` in `s`. */
  function FirstIndex(s: string, c: char): (i: nat)
    requires c in s
    ensures i < |s| && s[i] == c && c !in s[..i]
  {
    if s[0] == c then 0 else 1 + FirstIndex(s[1..], c)
  }

  /** Splitting a string without `sep` gives the string itself. */
  lemma {:induction false} SplitWithoutSeparator(s: string, sep: char)
    requires sep !in s
    ensures Split(s, sep) == [s]
    decreases |s|
  {
    if |s| > 0 {
      assert sep !in s[1..];
      SplitWithoutSeparator(s[1..], sep);
    }
  }

  /**
   * Splitting a string with a `sep` in it gives the text before the first `sep`,
   * followed by the split of the text after it.
   */
  lemma {:induction false} SplitAtFirst(s: string, sep: char)
    requires sep in s
    ensures Split(s, sep) == [s[..FirstIndex(s, sep)]] + Split(s[FirstIndex(s, sep) + 1..], sep)
    decreases |s|
  {
    if s[0] != sep {
      assert sep in s[1..];
      SplitAtFirst(s[1..], sep);
      assert s[1..][..FirstIndex(s[1..], sep)] == s[1..FirstIndex(s, sep)];
      assert s[1..][FirstIndex(s[1..], sep) + 1..] == s[FirstIndex(s, sep) + 1..];
      assert [s[0]] + s[1..FirstIndex(s, sep)] == s[..FirstIndex(s, sep)];
    }
  }

  /** The inverse direction of the round trip: pieces without `sep` come back from their join. */
  lemma {:induction false} SplitJoin(parts: seq<string>, sep: char)
    requires |parts| >= 1
    requires forall i :: 0 <= i < |parts| ==> sep !in parts[i]
    ensures Split(Join(parts, sep), sep) == parts
    decreases |parts|
  {
    if |parts| == 1 {
      SplitWithoutSeparator(parts[0], sep);
    } else {
      var s := Join(parts, sep);
      var tail := Join(parts[1..], sep);
      assert s == parts[0] + [sep] + tail;
      assert sep in s by { assert s[|parts[0]|] == sep; }
      var i := FirstIndex(s, sep);
      assert i == |parts[0]| by {
        assert s[..|parts[0]|] == parts[0];
      }
      SplitAtFirst(s, sep);
      assert s[..i] == parts[0];
      assert s[i + 1..] == tail;
      SplitJoin(parts[1..], sep);
      assert parts == [parts[0]] + parts[1..];
    }
  }

  /**
   * `extractLabels`: when the name has a `.`, the first two pieces of the split
   * are the project ID and the destination ID; otherwise the project is `"-"` and
   * the destination ID is the whole name.
   */
  function ExtractLabels(destinationName: string): (labels: (string, string))
    ensures '.' !in destinationName ==> labels == ("-", destinationName)
    ensures '.' in destinationName ==> '.' !in labels.0 && '.' !in labels.1
  {
    var splitted := Split(destinationName, '.');
    if |splitted| > 1 then (splitted[0], splitted[1]) else ("-", destinationName)
  }

  /** A name without `.` (the empty name included) has project `"-"` and is its own destination ID. */
  lemma ExtractLabelsUnsplit(destinationName: string)
    requires '.' !in destinationName
    ensures ExtractLabels(destinationName) == ("-", destinationName)
    ensures ExtractLabels("") == ("-", "")
  {
    SplitWithoutSeparator(destinationName, '.');
    SplitWithoutSeparator("", '.');
  }

  /**
   * A name with a `.` has as project ID the text before the first `.` and as
   * destination ID the text between the first and the second `.` (everything
   * after a second `.` is dropped).
   */
  lemma ExtractLabelsSplit(destinationName: string)
    requires '.' in destinationName
    ensures var first := FirstIndex(destinationName, '.');
            var rest := destinationName[first + 1..];
            ExtractLabels(destinationName)
            == (destinationName[..first], if '.' in rest then rest[..FirstIndex(rest, '.')] else rest)
  {
    var first := FirstIndex(destinationName, '.');
    var rest := destinationName[first + 1..];
    SplitAtFirst(destinationName, '.');
    if '.' in rest {
      SplitAtFirst(rest, '.');
    } else {
      SplitWithoutSeparator(rest, '.');
    }
  }
}
