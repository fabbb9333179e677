/**
 * The std::string operations the URI codecs are built on: find of a character, the pieces
 * std::getline yields for a separator, and joining pieces with a separator.
 */
module Texts {

  /** std::string::find(ch, from), with |s| standing for npos. */
  function IndexOf(s: string, ch: char, from: nat): (r: nat)
    requires from <= |s|
    ensures from <= r <= |s|
    ensures r < |s| ==> s[r] == ch
    ensures forall k :: from <= k < r ==> s[k] != ch
    decreases |s| - from
  {
    if from == |s| then |s|
    else if s[from] == ch then from
    else IndexOf(s, ch, from + 1)
  }

  /** find returns the first occurrence. */
  lemma IndexOfFirst(s: string, ch: char, from: nat, i: nat)
    requires from <= i < |s| && s[i] == ch
    requires forall k :: from <= k < i ==> s[k] != ch
    ensures IndexOf(s, ch, from) == i
  {
  }

  lemma IndexOfAbsent(s: string, ch: char)
    requires ch !in s
    ensures IndexOf(s, ch, 0) == |s|
  {
  }

  /**
   * The pieces `while (std::getline(stream, piece, sep))` yields: the text between
   * separators, with no piece after a trailing separator.
   */
  function Split(s: string, sep: char): (r: seq<string>)
    ensures forall i :: 0 <= i < |r| ==> sep !in r[i]
    ensures s == "" <==> r == []
    decreases |s|
  {
    if s == "" then []
    else
      var i := IndexOf(s, sep, 0);
      if i == |s| then [s] else [s[..i]] + Split(s[i + 1..], sep)
  }

  /** The pieces written one after another with the separator between them. */
  function Join(segs: seq<string>, sep: char): string {
    if |segs| == 0 then ""
    else if |segs| == 1 then segs[0]
    else segs[0] + [sep] + Join(segs[1..], sep)
  }

  /** A leading piece without the separator splits off on its own. */
  lemma SplitCons(a: string, sep: char, rest: string)
    requires a != "" && sep !in a
    ensures Split(a + [sep] + rest, sep) == [a] + Split(rest, sep)
  {
    var s := a + [sep] + rest;
    IndexOfFirst(s, sep, 0, |a|);
    assert s[..|a|] == a && s[|a| + 1..] == rest;
  }

  /** Splitting what Join joined gives the pieces back, when none is empty or holds the separator. */
  lemma {:induction false} SplitJoin(segs: seq<string>, sep: char)
    requires forall i :: 0 <= i < |segs| ==> segs[i] != "" && sep !in segs[i]
    ensures Split(Join(segs, sep), sep) == segs
    decreases |segs|
  {
    if |segs| == 1 {
      IndexOfAbsent(segs[0], sep);
    } else if |segs| > 1 {
      SplitCons(segs[0], sep, Join(segs[1..], sep));
      SplitJoin(segs[1..], sep);
      assert segs == [segs[0]] + segs[1..];
    }
  }
}
