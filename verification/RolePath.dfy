/** Dotted role paths: splitting as Python's str.split(".") does, and joining. */
module RolePath {

  const DOT := '.'

  /** Position of the first dot at or after `i`, or the length of the string. */
  function NextDot(s: string, i: nat): (k: nat)
    requires i <= |s|
    ensures i <= k <= |s| && (k < |s| ==> s[k] == DOT) && forall j :: i <= j < k ==> s[j] != DOT
    decreases |s| - i
  {
    if i == |s| || s[i] == DOT then i else NextDot(s, i + 1)
  }

  function Split(s: string): (segments: seq<string>)
    ensures |segments| >= 1
    decreases |s|
  {
    var k := NextDot(s, 0);
    if k == |s| then [s] else [s[..k]] + Split(s[k + 1..])
  }

  function Join(segments: seq<string>): string
    requires segments != []
  {
    if |segments| == 1 then segments[0] else segments[0] + [DOT] + Join(segments[1..])
  }

  predicate DotFree(s: string) {
    forall i :: 0 <= i < |s| ==> s[i] != DOT
  }

  lemma FirstDot(a: string, rest: string)
    requires DotFree(a)
    ensures NextDot(a + rest, 0) == if rest == [] then |a| else if rest[0] == DOT then |a| else NextDot(a + rest, |a|)
  {
    SkipTo(a + rest, 0, |a|);
  }

  lemma {:induction false} SkipTo(s: string, i: nat, k: nat)
    requires i <= k <= |s| && forall j :: i <= j < k ==> s[j] != DOT
    ensures NextDot(s, i) == NextDot(s, k)
    decreases k - i
  {
    if i < k { SkipTo(s, i + 1, k); }
  }

  lemma SplitStep(a: string, tail: string)
    requires DotFree(a)
    ensures Split(a) == [a]
    ensures Split(a + [DOT] + tail) == [a] + Split(tail)
  {
    FirstDot(a, []);
    assert a + [] == a;
    var s := a + [DOT] + tail;
    assert s == a + ([DOT] + tail);
    FirstDot(a, [DOT] + tail);
    assert s[..|a|] == a && s[|a| + 1..] == tail;
  }

  /** Joining dot-free segments and splitting again gives the segments back. */
  lemma {:induction false} SplitJoin(segments: seq<string>)
    requires segments != [] && forall i :: 0 <= i < |segments| ==> DotFree(segments[i])
    ensures Split(Join(segments)) == segments
    decreases |segments|
  {
    hide Split, DotFree;
    if |segments| == 1 {
      SplitStep(segments[0], []);
    } else {
      SplitStep(segments[0], Join(segments[1..]));
      SplitJoin(segments[1..]);
    }
  }

  /** Splitting and joining again gives the string back, and no segment holds a dot. */
  lemma {:induction false} JoinSplit(s: string)
    ensures Join(Split(s)) == s
    ensures forall i :: 0 <= i < |Split(s)| ==> DotFree(Split(s)[i])
    decreases |s|
  {
    var k := NextDot(s, 0);
    if k < |s| {
      JoinSplit(s[k + 1..]);
      assert Split(s)[1..] == Split(s[k + 1..]);
      assert s == s[..k] + [DOT] + s[k + 1..];
    }
  }
}
