/**
 * The text operations a pedigree line goes through (graph.py:13): removing
 * newline characters from both ends, then splitting on single spaces the way
 * Python's `str.split(' ')` does (consecutive spaces give empty fields, and
 * the result always has at least one field).
 */
module LineFormat {

  /** `s` without its leading newline characters. */
  function StripLeading(s: string): (r: string)
    ensures |r| <= |s| && r == s[|s| - |r|..]
    ensures forall i :: 0 <= i < |s| - |r| ==> s[i] == '\n'
    ensures r == [] || r[0] != '\n'
  {
    if s != [] && s[0] == '\n' then StripLeading(s[1..]) else s
  }

  /** `s` without its trailing newline characters. */
  function StripTrailing(s: string): (r: string)
    ensures |r| <= |s| && r == s[..|r|]
    ensures forall i :: |r| <= i < |s| ==> s[i] == '\n'
    ensures r == [] || r[|r| - 1] != '\n'
  {
    if s != [] && s[|s| - 1] == '\n' then StripTrailing(s[..|s| - 1]) else s
  }

  /** Python's `s.strip('\n')`: the longest middle part of `s` with no newline at either end. */
  function StripNewlines(s: string): (r: string)
    ensures exists i, j ::
      && 0 <= i <= j <= |s| && r == s[i..j]
      && (forall k :: 0 <= k < i ==> s[k] == '\n')
      && (forall k :: j <= k < |s| ==> s[k] == '\n')
    ensures r == [] || (r[0] != '\n' && r[|r| - 1] != '\n')
  {
    var front := StripLeading(s);
    var r := StripTrailing(front);
    var i := |s| - |front|;
    assert r == s[i..i + |r|];
    r
  }

  /** The index of the first `sep` in `s`. */
  function FirstIndex(s: string, sep: char): (i: nat)
    requires sep in s
    ensures i < |s| && s[i] == sep && sep !in s[..i]
  {
    if s[0] == sep then 0 else 1 + FirstIndex(s[1..], sep)
  }

  /** The fields joined back together, with `sep` between neighbours (Python's `sep.join(parts)`). */
  function Join(parts: seq<string>, sep: char): string {
    if parts == [] then []
    else if |parts| == 1 then parts[0]
    else parts[0] + [sep] + Join(parts[1..], sep)
  }

  /** Python's `s.split(sep)` for a one-character separator. */
  function Split(s: string, sep: char): (parts: seq<string>)
    ensures |parts| >= 1
    ensures forall i :: 0 <= i < |parts| ==> sep !in parts[i]
    ensures Join(parts, sep) == s
    decreases |s|
  {
    if sep !in s then [s]
    else
      var i := FirstIndex(s, sep);
      var rest := Split(s[i + 1..], sep);
      assert s == s[..i] + [sep] + s[i + 1..];
      [s[..i]] + rest
  }

  /** Splitting a join of separator-free fields gives the fields back. */
  lemma {:induction false} SplitJoin(parts: seq<string>, sep: char)
    requires |parts| >= 1
    requires forall i :: 0 <= i < |parts| ==> sep !in parts[i]
    ensures Split(Join(parts, sep), sep) == parts
    decreases |parts|
  {
    if |parts| > 1 {
      var head, tail := parts[0], parts[1..];
      var rest := Join(tail, sep);
      var s := head + [sep] + rest;
      assert Join(parts, sep) == s;
      SplitAtFirst(head, sep, rest);
      SplitJoin(tail, sep);
      assert parts == [head] + tail;
    } else {
      assert sep !in Join(parts, sep);
    }
  }

  /** Splitting at the first separator: the text before it, then the split of the text after it. */
  lemma SplitAtFirst(head: string, sep: char, rest: string)
    requires sep !in head
    ensures Split(head + [sep] + rest, sep) == [head] + Split(rest, sep)
  {
    var s := head + [sep] + rest;
    assert s[|head|] == sep;
    var i := FirstIndex(s, sep);
    assert i == |head|;
    assert s[..i] == head;
    assert s[i + 1..] == rest;
  }
}
