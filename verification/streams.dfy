/**
 * The token stream and the array operations the parser applies to it
 * (`splice`, `shift`, `indexOf`), with the fact that matters about every
 * one of them: tokens are only ever removed, never added or reordered.
 */
module Streams {
  import opened Wrappers
  import opened Values

  /** `a` is obtained from `b` by deleting some tokens. */
  predicate IsSubseq(a: seq<string>, b: seq<string>)
    decreases |b|
  {
    if a == [] then true
    else if b == [] then false
    else (a[0] == b[0] && IsSubseq(a[1..], b[1..])) || IsSubseq(a, b[1..])
  }

  lemma {:induction false} SubseqRefl(a: seq<string>)
    ensures IsSubseq(a, a)
    decreases |a|
  {
    if a != [] {
      SubseqRefl(a[1..]);
    }
  }

  lemma {:induction false} SubseqTrans(a: seq<string>, b: seq<string>, c: seq<string>)
    requires IsSubseq(a, b) && IsSubseq(b, c)
    ensures IsSubseq(a, c)
    decreases |c|
  {
    if a != [] {
      if b[0] == c[0] && IsSubseq(b[1..], c[1..]) {
        if a[0] == b[0] && IsSubseq(a[1..], b[1..]) {
          SubseqTrans(a[1..], b[1..], c[1..]);
        } else {
          SubseqTrans(a, b[1..], c[1..]);
        }
      } else {
        SubseqTrans(a, b, c[1..]);
      }
    }
  }

  lemma {:induction false} SubseqSuffix(s: seq<string>, n: nat)
    requires n <= |s|
    ensures IsSubseq(s[n..], s)
    decreases n
  {
    if n == 0 {
      SubseqRefl(s);
    } else {
      SubseqSuffix(s[1..], n - 1);
      assert s[1..][n - 1..] == s[n..];
      if s[n..] != [] {
        assert IsSubseq(s[n..], s[1..]);
      }
    }
  }

  /** Keeping a prefix and a later suffix yields a subsequence. */
  lemma {:induction false} SubseqCut(s: seq<string>, i: nat, j: nat)
    requires i <= j <= |s|
    ensures IsSubseq(s[..i] + s[j..], s)
    decreases i
  {
    if i == 0 {
      assert s[..i] + s[j..] == s[j..];
      SubseqSuffix(s, j);
    } else {
      SubseqCut(s[1..], i - 1, j - 1);
      var t := s[..i] + s[j..];
      assert t[0] == s[0];
      assert t[1..] == s[1..][..i - 1] + s[1..][j - 1..];
    }
  }

  /** Every token of a subsequence is a token of the original. */
  lemma {:induction false} SubseqMembers(a: seq<string>, b: seq<string>)
    requires IsSubseq(a, b)
    ensures forall t :: t in a ==> t in b
    decreases |b|
  {
    if a != [] {
      if a[0] == b[0] && IsSubseq(a[1..], b[1..]) {
        SubseqMembers(a[1..], b[1..]);
        assert forall t :: t in a ==> t == a[0] || t in a[1..];
      } else {
        SubseqMembers(a, b[1..]);
      }
    }
  }

  lemma {:induction false} SubseqLength(a: seq<string>, b: seq<string>)
    requires IsSubseq(a, b)
    ensures |a| <= |b|
    decreases |b|
  {
    if a != [] {
      if a[0] == b[0] && IsSubseq(a[1..], b[1..]) {
        SubseqLength(a[1..], b[1..]);
      } else {
        SubseqLength(a, b[1..]);
      }
    }
  }

  /** `s.splice(i, n)` for `n >= 0`: removes up to `n` tokens starting at `i`. */
  function Splice(s: seq<string>, i: nat, n: nat): (r: seq<string>)
    ensures i <= |s| ==> r == s[..i] + s[if i + n <= |s| then i + n else |s|..]
    ensures i >= |s| ==> r == s
    ensures IsSubseq(r, s)
  {
    if i >= |s| then
      SubseqRefl(s);
      s
    else
      var j := if i + n <= |s| then i + n else |s|;
      SubseqCut(s, i, j);
      s[..i] + s[j..]
  }

  /** `s.splice(i, 1)`. */
  function RemoveAt(s: seq<string>, i: nat): (r: seq<string>)
    ensures i < |s| ==> r == s[..i] + s[i + 1..] && |r| == |s| - 1
    ensures i >= |s| ==> r == s
    ensures IsSubseq(r, s)
  {
    Splice(s, i, 1)
  }

  /** `s.shift()`, the removed token discarded. */
  function Shift(s: seq<string>): (r: seq<string>)
    ensures s != [] ==> r == s[1..]
    ensures s == [] ==> r == []
    ensures IsSubseq(r, s)
  {
    RemoveAt(s, 0)
  }

  /** `s.indexOf(t)`: the first position holding `t`; an absent trigger is never found. */
  function IndexOf(s: seq<string>, t: Option<string>): (r: Option<nat>)
    ensures r.Some? ==> t.Some? && r.value < |s| && s[r.value] == t.value
    ensures r.Some? ==> forall j :: 0 <= j < r.value ==> s[j] != t.value
    ensures r.None? ==> t.None? || forall j :: 0 <= j < |s| ==> s[j] != t.value
  {
    if t.None? || s == [] then None
    else if s[0] == t.value then Some(0)
    else match IndexOf(s[1..], t)
      case None => None
      case Some(j) => Some(j + 1)
  }

  /** The tokens of `s` that `keep` accepts, in order. */
  function Filter(s: seq<string>, keep: string -> bool): seq<string> {
    if s == [] then [] else (if keep(s[0]) then [s[0]] else []) + Filter(s[1..], keep)
  }

  lemma {:induction false} FilterConcat(a: seq<string>, b: seq<string>, keep: string -> bool)
    ensures Filter(a + b, keep) == Filter(a, keep) + Filter(b, keep)
    decreases |a|
  {
    if a == [] {
      assert a + b == b;
    } else {
      FilterConcat(a[1..], b, keep);
      assert (a + b)[0] == a[0];
      assert (a + b)[1..] == a[1..] + b;
    }
  }

  /** Removing a token that `keep` rejects leaves the kept tokens as they were. */
  lemma RemoveKeepsFilter(s: seq<string>, i: nat, keep: string -> bool)
    requires i < |s| && !keep(s[i])
    ensures Filter(RemoveAt(s, i), keep) == Filter(s, keep)
  {
    assert s == (s[..i] + [s[i]]) + s[i + 1..];
    FilterDropsRejected(s[..i], s[i], s[i + 1..], keep);
  }

  lemma FilterDropsRejected(pre: seq<string>, x: string, post: seq<string>, keep: string -> bool)
    requires !keep(x)
    ensures Filter((pre + [x]) + post, keep) == Filter(pre + post, keep)
  {
    calc {
      Filter((pre + [x]) + post, keep);
      { FilterConcat(pre + [x], post, keep); }
      Filter(pre + [x], keep) + Filter(post, keep);
      { FilterConcat(pre, [x], keep); FilterRejected(x, keep); }
      Filter(pre, keep) + Filter(post, keep);
      { FilterConcat(pre, post, keep); }
      Filter(pre + post, keep);
    }
  }

  lemma FilterRejected(t: string, keep: string -> bool)
    requires !keep(t)
    ensures Filter([t], keep) == []
  {
    assert [t][1..] == [];
  }

  /** The occurrences of `u` in a stream are its filter by `Is(u)`. */
  function Is(u: string): string -> bool {
    t => t == u
  }

  /** The number of occurrences of `u`, read off the filter. */
  lemma {:induction false} OccurrencesAreCount(s: seq<string>, u: string)
    ensures |Filter(s, Is(u))| == multiset(s)[u]
    decreases |s|
  {
    if s != [] {
      OccurrencesAreCount(s[1..], u);
      assert s == [s[0]] + s[1..];
      assert multiset(s) == multiset{s[0]} + multiset(s[1..]);
    }
  }

  predicate NotDashLed(t: string) {
    !DashLed(t)
  }

  /** The tokens of `s` that do not start with `-`, in order. */
  function Plain(s: seq<string>): seq<string> {
    Filter(s, NotDashLed)
  }
}
