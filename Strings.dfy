/**
 * Joining and splitting strings. `Join` is JavaScript's `Array.prototype.join`;
 * `Split` cuts a string at every occurrence of one character and is the
 * reference used to state what a joined cell contains.
 */
module Strings {

  /** `parts.join(sep)`: the parts in order, `sep` between neighbours, "" for no parts. */
  function Join(sep: string, parts: seq<string>): string
  {
    if |parts| == 0 then ""
    else if |parts| == 1 then parts[0]
    else parts[0] + sep + Join(sep, parts[1..])
  }

  /** The pieces of `s` between the occurrences of `c`; never empty ("" gives [""]). */
  function Split(s: string, c: char): (r: seq<string>)
    ensures |r| >= 1
  {
    if |s| == 0 then [""]
    else if s[0] == c then [""] + Split(s[1..], c)
    else
      var rest := Split(s[1..], c);
      [[s[0]] + rest[0]] + rest[1..]
  }

  /** The pieces of a ", "-joined list as `Split(_, ',')` sees them: every piece but the first keeps the blank after the comma. */
  function Spaced(parts: seq<string>): (r: seq<string>)
    ensures |r| == |parts|
  {
    seq(|parts|, i requires 0 <= i < |parts| => if i == 0 then parts[i] else " " + parts[i])
  }

  /** A string without the separator is one piece. */
  lemma {:induction false} SplitWithout(s: string, c: char)
    requires c !in s
    ensures Split(s, c) == [s]
  {
    if |s| > 0 {
      SplitWithout(s[1..], c);
      assert [s[0]] + s[1..] == s;
    }
  }

  /** The first occurrence of the separator ends the first piece. */
  lemma {:induction false} SplitAfter(x: string, c: char, rest: string)
    requires c !in x
    ensures Split(x + [c] + rest, c) == [x] + Split(rest, c)
  {
    var s := x + [c] + rest;
    if |x| == 0 {
      assert s == [c] + rest;
      assert s[1..] == rest;
    } else {
      assert s[0] == x[0];
      assert s[1..] == x[1..] + [c] + rest;
      SplitAfter(x[1..], c, rest);
      assert [x[0]] + x[1..] == x;
    }
  }

  /** Splitting undoes joining when no part holds the separator. */
  lemma {:induction false} SplitJoin(parts: seq<string>, c: char)
    requires |parts| >= 1
    requires forall i :: 0 <= i < |parts| ==> c !in parts[i]
    ensures Split(Join([c], parts), c) == parts
  {
    if |parts| == 1 {
      SplitWithout(parts[0], c);
    } else {
      SplitJoin(parts[1..], c);
      SplitAfter(parts[0], c, Join([c], parts[1..]));
      assert [parts[0]] + parts[1..] == parts;
    }
  }

  /** A prefix glued to a join lands on its first part. */
  lemma PrefixJoin(pre: string, sep: string, parts: seq<string>)
    requires |parts| >= 1
    ensures pre + Join(sep, parts) == Join(sep, [pre + parts[0]] + parts[1..])
  {
    var q := [pre + parts[0]] + parts[1..];
    assert q[1..] == parts[1..];
  }

  /** A ", "-join is a ","-join of the spaced parts. */
  lemma {:induction false} JoinCommaSpace(parts: seq<string>)
    ensures Join(", ", parts) == Join(",", Spaced(parts))
  {
    if |parts| >= 2 {
      var tail := parts[1..];
      JoinCommaSpace(tail);
      var st := Spaced(tail);
      PrefixJoin(" ", ",", st);
      var sp := Spaced(parts);
      assert sp[1..] == [" " + st[0]] + st[1..];
      assert Join(", ", parts) == parts[0] + ", " + Join(", ", tail);
      assert Join(",", sp) == sp[0] + "," + Join(",", sp[1..]);
    }
  }

  /** Splitting a ", "-join at its commas gives back the parts, each after the first with its leading blank. */
  lemma SplitCommaJoin(parts: seq<string>)
    requires |parts| >= 1
    requires forall i :: 0 <= i < |parts| ==> ',' !in parts[i]
    ensures Split(Join(", ", parts), ',') == Spaced(parts)
  {
    JoinCommaSpace(parts);
    var sp := Spaced(parts);
    SplitJoin(sp, ',');
  }
}
