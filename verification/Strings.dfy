/** Searching in strings. */
module Strings {

  datatype Option<+T> = None | Some(value: T)

  /** The position of the first c at or after `from`, or |s| if there is none. */
  function Find(s: string, c: char, from: nat): (pos: nat)
    requires from <= |s|
    ensures from <= pos <= |s| && c !in s[from..pos] && (pos < |s| ==> s[pos] == c)
    decreases |s| - from
  {
    if from == |s| || s[from] == c then from
    else
      var pos := Find(s, c, from + 1);
      assert s[from..pos] == [s[from]] + s[from + 1..pos];
      pos
  }

  lemma FindIs(s: string, c: char, from: nat, pos: nat)
    requires from <= pos <= |s| && c !in s[from..pos] && (pos < |s| ==> s[pos] == c)
    ensures Find(s, c, from) == pos
  {
  }

  lemma FindAfter(pre: string, s: string, c: char)
    ensures Find(pre + s, c, |pre|) == |pre| + Find(s, c, 0)
  {
    var t, k := pre + s, Find(s, c, 0);
    assert t[|pre|..|pre| + k] == s[0..k] by {
      assert |s[0..k]| == k;
      assert forall i :: 0 <= i < k ==> s[0..k][i] == s[i] == t[|pre| + i];
    }
    FindIs(t, c, |pre|, |pre| + k);
  }

  /** A character that does not occur in `pre` is first found where `s` starts with it. */
  lemma FindHead(pre: string, s: string, c: char)
    requires c !in pre && s != "" && s[0] == c
    ensures Find(pre + s, c, 0) == |pre|
  {
    assert (pre + s)[0..|pre|] == pre;
    FindIs(pre + s, c, 0, |pre|);
  }

  /** The position of the last c, as strrchr gives it, or |s| if there is none. */
  function FindLast(s: string, c: char): (pos: nat)
    ensures pos <= |s| && (pos < |s| ==> s[pos] == c && c !in s[pos + 1..])
    ensures pos == |s| ==> c !in s
  {
    if s == "" then 0
    else if s[|s| - 1] == c then |s| - 1
    else
      var init := s[..|s| - 1];
      var pos := FindLast(init, c);
      assert s == init + [s[|s| - 1]];
      if pos == |init| then |s|
      else
        assert s[pos + 1..] == init[pos + 1..] + [s[|s| - 1]];
        pos
  }

  lemma FindLastIsNone(s: string, c: char)
    requires c !in s
    ensures FindLast(s, c) == |s|
  {
  }

  lemma FindLastIs(pre: string, c: char, post: string)
    requires c !in post
    ensures FindLast(pre + [c] + post, c) == |pre|
  {
    var s := pre + [c] + post;
    assert s[|pre|] == c && s[|pre| + 1..] == post;
  }

  /** What is before and after the last ':'. */
  lemma SameSplit(a: string, b: string, x: string, y: string)
    requires ':' !in b && ':' !in y
    ensures a + ":" + b == x + ":" + y <==> a == x && b == y
  {
    if a + ":" + b == x + ":" + y {
      FindLastIs(a, ':', b);
      FindLastIs(x, ':', y);
      assert a + [':'] + b == x + [':'] + y;
      assert a == (a + [':'] + b)[..|a|] && b == (a + [':'] + b)[|a| + 1..];
      assert x == (x + [':'] + y)[..|x|] && y == (x + [':'] + y)[|x| + 1..];
    }
  }
}
