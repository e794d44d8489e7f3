/** The two JavaScript string operations the controller relies on:
    `Array.prototype.join` (also what a template literal does to an array,
    with a comma) and `String.prototype.split` with a one-character
    separator. */
module JsStrings {

  /** `parts.join(sep)`. */
  function Join(parts: seq<string>, sep: string): (r: string)
    ensures |parts| >= 1 ==> |parts[0]| <= |r| && r[..|parts[0]|] == parts[0]
  {
    if |parts| == 0 then ""
    else if |parts| == 1 then parts[0]
    else parts[0] + sep + Join(parts[1..], sep)
  }

  /** `s.split(sep)` for a one-character separator: the pieces between
      separators, empty pieces included, and `[""]` for the empty string. */
  function Split(s: string, sep: char): (parts: seq<string>)
    ensures |parts| >= 1
    decreases |s|
  {
    if s == [] then [""]
    else
      var rest := Split(s[1..], sep);
      if s[0] == sep then [""] + rest
      else [[s[0]] + rest[0]] + rest[1..]
  }

  /** The number of occurrences of `c` in `s`. */
  function Occurrences(s: string, c: char): nat
    decreases |s|
  {
    if s == [] then 0 else (if s[0] == c then 1 else 0) + Occurrences(s[1..], c)
  }

  /** Every occurrence of `from` replaced by `to`. */
  function Replaced(s: string, from: char, to: char): (r: string)
    ensures |r| == |s|
    ensures forall i :: 0 <= i < |s| ==> r[i] == if s[i] == from then to else s[i]
  {
    seq(|s|, i requires 0 <= i < |s| => if s[i] == from then to else s[i])
  }

  /** Extending the first part by a character extends the joined text by it. */
  lemma JoinExtendsHead(parts: seq<string>, c: char, sep: string)
    requires |parts| >= 1
    ensures Join([[c] + parts[0]] + parts[1..], sep) == [c] + Join(parts, sep)
  {
    var ext := [[c] + parts[0]] + parts[1..];
    assert ext[1..] == parts[1..];
  }

  /** Splitting and joining back with the same separator gives the text back. */
  lemma {:induction false} JoinSplit(s: string, sep: char)
    ensures Join(Split(s, sep), [sep]) == s
    decreases |s|
  {
    if s != [] {
      var rest := Split(s[1..], sep);
      JoinSplit(s[1..], sep);
      if s[0] == sep {
        assert ([""] + rest)[1..] == rest;
      } else {
        JoinExtendsHead(rest, s[0], [sep]);
      }
    }
  }

  /** No piece of a split contains the separator. */
  lemma {:induction false} SplitPartsLackSeparator(s: string, sep: char)
    ensures forall i :: 0 <= i < |Split(s, sep)| ==> sep !in Split(s, sep)[i]
    decreases |s|
  {
    if s != [] {
      SplitPartsLackSeparator(s[1..], sep);
    }
  }

  /** A split has one piece more than there are separators. */
  lemma {:induction false} SplitCount(s: string, sep: char)
    ensures |Split(s, sep)| == Occurrences(s, sep) + 1
    decreases |s|
  {
    if s != [] {
      SplitCount(s[1..], sep);
    }
  }

  /** Splitting then joining with another character replaces every separator
      by that character and keeps every other character in place: what
      `sort.split(',').join(' ')` does. */
  lemma {:induction false} SplitJoinReplaces(s: string, from: char, to: char)
    ensures Join(Split(s, from), [to]) == Replaced(s, from, to)
    decreases |s|
  {
    if s != [] {
      var rest := Split(s[1..], from);
      SplitJoinReplaces(s[1..], from, to);
      if s[0] == from {
        assert ([""] + rest)[1..] == rest;
      } else {
        JoinExtendsHead(rest, s[0], [to]);
      }
      assert Replaced(s, from, to) == [if s[0] == from then to else s[0]] + Replaced(s[1..], from, to);
    }
  }
}
