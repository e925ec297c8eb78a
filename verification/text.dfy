/**
 * Multi-line text: joining lines with '\n', splitting text back into lines,
 * and stripping a fixed prefix or suffix.
 */
module Text {
  import opened Wrappers

  predicate NoNewline(s: string) {
    '\n' !in s
  }

  predicate AllNoNewline(ls: seq<string>) {
    forall i :: 0 <= i < |ls| ==> NoNewline(ls[i])
  }

  /** The lines of `ls` separated by single '\n' characters. */
  function Join(ls: seq<string>): string
    requires |ls| >= 1
    decreases |ls|
  {
    if |ls| == 1 then ls[0] else ls[0] + "\n" + Join(ls[1..])
  }

  /** The position of the first `c` in `s`. */
  function IndexOf(s: string, c: char): (i: nat)
    requires c in s
    ensures i < |s| && s[i] == c
    ensures c !in s[..i]
  {
    if s[0] == c then 0 else 1 + IndexOf(s[1..], c)
  }

  /** The position of the last `c` in `s`. */
  function LastIndexOf(s: string, c: char): (i: nat)
    requires c in s
    ensures i < |s| && s[i] == c
    ensures c !in s[i + 1..]
  {
    if s[|s| - 1] == c then |s| - 1
    else
      assert c in s[..|s| - 1] by {
        var k :| 0 <= k < |s| && s[k] == c;
        assert s[..|s| - 1][k] == c;
      }
      LastIndexOf(s[..|s| - 1], c)
  }

  /** `s` cut at every '\n'; always at least one (possibly empty) line. */
  function Lines(s: string): (ls: seq<string>)
    ensures |ls| >= 1 && AllNoNewline(ls)
    decreases |s|
  {
    if '\n' in s then
      var i := IndexOf(s, '\n');
      [s[..i]] + Lines(s[i + 1..])
    else
      [s]
  }

  lemma {:induction false} JoinLines(s: string)
    ensures Join(Lines(s)) == s
    decreases |s|
  {
    if '\n' in s {
      var i := IndexOf(s, '\n');
      JoinLines(s[i + 1..]);
      assert s == s[..i] + "\n" + s[i + 1..];
    }
  }

  lemma {:induction false} LinesJoin(ls: seq<string>)
    requires |ls| >= 1 && AllNoNewline(ls)
    ensures Lines(Join(ls)) == ls
    decreases |ls|
  {
    if |ls| > 1 {
      var s := Join(ls);
      var rest := Join(ls[1..]);
      assert s == ls[0] + "\n" + rest;
      assert s[|ls[0]|] == '\n';
      assert s[..|ls[0]|] == ls[0];
      assert IndexOf(s, '\n') == |ls[0]|;
      assert s[|ls[0]| + 1..] == rest;
      LinesJoin(ls[1..]);
      assert ls == [ls[0]] + ls[1..];
    }
  }

  lemma {:induction false} JoinAppend(a: seq<string>, b: seq<string>)
    requires |a| >= 1 && |b| >= 1
    ensures Join(a + b) == Join(a) + "\n" + Join(b)
    decreases |a|
  {
    if |a| > 1 {
      assert (a + b)[1..] == a[1..] + b;
      JoinAppend(a[1..], b);
    } else {
      assert (a + b)[1..] == b;
    }
  }

  /**
   * Splitting the join of fixed newline-free lines around one free-form
   * line gives back the fixed lines unchanged and the lines of the free one.
   */
  lemma LinesAround(head: seq<string>, middle: string, tail: seq<string>)
    requires |head| >= 1 && |tail| >= 1
    requires AllNoNewline(head) && AllNoNewline(tail)
    ensures Lines(Join(head + [middle] + tail)) == head + Lines(middle) + tail
  {
    var m := Lines(middle);
    JoinLines(middle);
    JoinAround(head, m, tail);
    AllNoNewlineConcat(head, m);
    AllNoNewlineConcat(head + m, tail);
    LinesJoin(head + m + tail);
  }

  lemma AllNoNewlineConcat(a: seq<string>, b: seq<string>)
    requires AllNoNewline(a) && AllNoNewline(b)
    ensures AllNoNewline(a + b)
  {
    forall i | 0 <= i < |a + b|
      ensures NoNewline((a + b)[i])
    {
      if i >= |a| {
        assert (a + b)[i] == b[i - |a|];
      }
    }
  }

  /** The first line of a join is a prefix of it. */
  lemma JoinStartsWithFirst(ls: seq<string>)
    requires |ls| >= 1
    ensures |ls[0]| <= |Join(ls)| && Join(ls)[..|ls[0]|] == ls[0]
  {
  }

  /** `s` without the leading `p`, if `s` starts with `p`. */
  function StripPrefix(p: string, s: string): (r: Option<string>)
    ensures r.Some? <==> (|p| <= |s| && s[..|p|] == p)
    ensures r.Some? ==> s == p + r.value
  {
    if |p| <= |s| && s[..|p|] == p then
      assert s == p + s[|p|..];
      Some(s[|p|..])
    else
      None
  }

  /** `s` without the trailing `p`, if `s` ends with `p`. */
  function StripSuffix(p: string, s: string): (r: Option<string>)
    ensures r.Some? <==> (|p| <= |s| && s[|s| - |p|..] == p)
    ensures r.Some? ==> s == r.value + p
  {
    if |p| <= |s| && s[|s| - |p|..] == p then
      assert s == s[..|s| - |p|] + p;
      Some(s[..|s| - |p|])
    else
      None
  }

  lemma StripPrefixOfConcat(p: string, x: string)
    ensures StripPrefix(p, p + x) == Some(x)
  {
    assert (p + x)[..|p|] == p;
    assert (p + x)[|p|..] == x;
  }

  lemma StripSuffixOfConcat(x: string, p: string)
    ensures StripSuffix(p, x + p) == Some(x)
  {
    assert (x + p)[|x|..] == p;
    assert (x + p)[..|x|] == x;
  }

  /** A part of a newline-free string is newline-free. */
  lemma NoNewlineParts(a: string, b: string)
    requires NoNewline(a + b)
    ensures NoNewline(a) && NoNewline(b)
  {
  }

  lemma NoNewlineConcat(a: string, b: string)
    requires NoNewline(a) && NoNewline(b)
    ensures NoNewline(a + b)
  {
  }

  /** Replacing one line by the lines it is made of leaves the join unchanged. */
  lemma JoinAround(head: seq<string>, middle: seq<string>, tail: seq<string>)
    requires |head| >= 1 && |middle| >= 1 && |tail| >= 1
    ensures Join(head + [Join(middle)] + tail) == Join(head + middle + tail)
  {
    JoinAppend(head, [Join(middle)]);
    JoinAppend(head + [Join(middle)], tail);
    JoinAppend(head, middle);
    JoinAppend(head + middle, tail);
  }
}
