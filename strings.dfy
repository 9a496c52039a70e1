/**
 * String helpers the code generator relies on: prefixes and occurrences,
 * joining with a separator, and the left-to-right replacement that
 * `String.replace(CharSequence, CharSequence)` performs on the JVM.
 */
module Strings {

  /** `pre` is a prefix of `s`. */
  predicate StartsWith<T(==)>(s: seq<T>, pre: seq<T>) {
    |pre| <= |s| && s[..|pre|] == pre
  }

  /** `suf` is a suffix of `s`. */
  predicate EndsWith<T(==)>(s: seq<T>, suf: seq<T>) {
    |suf| <= |s| && s[|s| - |suf|..] == suf
  }

  /** `pat` occurs in `s` starting at index `i`. */
  predicate OccursAt<T(==)>(s: seq<T>, pat: seq<T>, i: int) {
    0 <= i <= |s| - |pat| && s[i..i + |pat|] == pat
  }

  ghost predicate Contains<T>(s: seq<T>, pat: seq<T>) {
    exists i :: OccursAt(s, pat, i)
  }

  /** `n` blanks, as an indentation. */
  function Spaces(n: nat): (r: string)
    ensures |r| == n && forall i :: 0 <= i < n ==> r[i] == ' '
  {
    seq(n, _ => ' ')
  }

  /**
   * Replace every occurrence of `pat` in `s` by `rep`, scanning from the left
   * and resuming after each replaced occurrence, as the JVM's
   * `String.replace(CharSequence, CharSequence)` does.
   */
  function ReplaceAll<T(==)>(s: seq<T>, pat: seq<T>, rep: seq<T>): seq<T>
    requires |pat| > 0
    decreases |s|
  {
    if |s| == 0 then []
    else if StartsWith(s, pat) then rep + ReplaceAll(s[|pat|..], pat, rep)
    else [s[0]] + ReplaceAll(s[1..], pat, rep)
  }

  /** The number of occurrences `ReplaceAll` replaces (non-overlapping, from the left). */
  function Replacements<T(==)>(s: seq<T>, pat: seq<T>): nat
    requires |pat| > 0
    decreases |s|
  {
    if |s| == 0 then 0
    else if StartsWith(s, pat) then 1 + Replacements(s[|pat|..], pat)
    else Replacements(s[1..], pat)
  }

  lemma ShiftOccurrence<T>(s: seq<T>, pat: seq<T>, i: int)
    requires |s| > 0 && 0 <= i
    ensures OccursAt(s[1..], pat, i) <==> OccursAt(s, pat, i + 1)
  {
    if 0 <= i <= |s| - 1 - |pat| {
      assert s[1..][i..i + |pat|] == s[i + 1..i + 1 + |pat|];
    }
  }

  /** Nothing is replaced exactly when the pattern does not occur. */
  lemma {:induction false} NoReplacementsIffAbsent<T>(s: seq<T>, pat: seq<T>)
    requires |pat| > 0
    ensures Replacements(s, pat) == 0 <==> !Contains(s, pat)
    decreases |s|
  {
    if |s| > 0 {
      if StartsWith(s, pat) {
        assert OccursAt(s, pat, 0);
      } else {
        NoReplacementsIffAbsent(s[1..], pat);
        if Contains(s, pat) {
          var i :| OccursAt(s, pat, i);
          assert i != 0;
          ShiftOccurrence(s, pat, i - 1);
        }
        if Contains(s[1..], pat) {
          var i :| OccursAt(s[1..], pat, i);
          ShiftOccurrence(s, pat, i);
        }
      }
    }
  }

  /** A string without the pattern is returned unchanged. */
  lemma {:induction false} ReplaceAllAbsent<T>(s: seq<T>, pat: seq<T>, rep: seq<T>)
    requires |pat| > 0 && !Contains(s, pat)
    ensures ReplaceAll(s, pat, rep) == s
    decreases |s|
  {
    if |s| > 0 {
      assert StartsWith(s, pat) ==> OccursAt(s, pat, 0);
      assert !Contains(s[1..], pat) by {
        if Contains(s[1..], pat) {
          var i :| OccursAt(s[1..], pat, i);
          ShiftOccurrence(s, pat, i);
        }
      }
      ReplaceAllAbsent(s[1..], pat, rep);
    }
  }

  /** A stretch that does not contain the pattern's first element is copied as is. */
  lemma {:induction false} ReplaceAllCopiesPrefix<T>(pre: seq<T>, rest: seq<T>, pat: seq<T>, rep: seq<T>)
    requires |pat| > 0 && pat[0] !in pre
    ensures ReplaceAll(pre + rest, pat, rep) == pre + ReplaceAll(rest, pat, rep)
    decreases |pre|
  {
    if |pre| > 0 {
      var s := pre + rest;
      assert s[0] == pre[0] && s[1..] == pre[1..] + rest;
      ReplaceAllCopiesPrefix(pre[1..], rest, pat, rep);
    } else {
      assert pre + rest == rest;
    }
  }

  /** Each replacement trades |pat| elements for |rep| elements. */
  lemma {:induction false} ReplaceAllLength<T>(s: seq<T>, pat: seq<T>, rep: seq<T>)
    requires |pat| > 0
    ensures |ReplaceAll(s, pat, rep)| + Replacements(s, pat) * |pat|
         == |s| + Replacements(s, pat) * |rep|
    decreases |s|
  {
    if |s| > 0 {
      if StartsWith(s, pat) {
        var k := Replacements(s[|pat|..], pat);
        ReplaceAllLength(s[|pat|..], pat, rep);
        assert (k + 1) * |pat| == k * |pat| + |pat|;
        assert (k + 1) * |rep| == k * |rep| + |rep|;
      } else {
        ReplaceAllLength(s[1..], pat, rep);
      }
    }
  }

  /**
   * When the replacement cannot begin any proper suffix `t` of interest,
   * a prefix `t` of the output was already a prefix of the input.
   */
  lemma {:induction false} ReplaceAllPrefixBack<T>(u: seq<T>, pat: seq<T>, rep: seq<T>, t: seq<T>)
    requires |pat| > 0 && |rep| > 0 && rep[0] !in t
    requires StartsWith(ReplaceAll(u, pat, rep), t)
    ensures StartsWith(u, t)
    decreases |u|
  {
    if |t| > 0 && |u| > 0 && !StartsWith(u, pat) {
      var r1 := ReplaceAll(u[1..], pat, rep);
      assert ReplaceAll(u, pat, rep) == [u[0]] + r1;
      assert StartsWith(r1, t[1..]);
      ReplaceAllPrefixBack(u[1..], pat, rep, t[1..]);
      assert u[..|t|] == [u[0]] + u[1..][..|t| - 1];
    } else if |t| > 0 && |u| > 0 {
      assert ReplaceAll(u, pat, rep)[0] == rep[0];
    }
  }

  /**
   * If the pattern's first element never appears in the replacement and the
   * replacement's first element never appears in the rest of the pattern,
   * no occurrence of the pattern survives the replacement.
   */
  lemma {:induction false} ReplaceAllLeavesNoMatch<T>(s: seq<T>, pat: seq<T>, rep: seq<T>)
    requires |pat| > 0 && |rep| > 0
    requires pat[0] !in rep && rep[0] !in pat[1..]
    ensures !Contains(ReplaceAll(s, pat, rep), pat)
    decreases |s|
  {
    if |s| > 0 && StartsWith(s, pat) {
      ReplaceAllLeavesNoMatch(s[|pat|..], pat, rep);
      NoMatchAfterReplacement(rep, ReplaceAll(s[|pat|..], pat, rep), pat);
    } else if |s| > 0 {
      ReplaceAllLeavesNoMatch(s[1..], pat, rep);
      NoMatchAfterCopy(s, pat, rep);
    }
  }

  /** An occurrence cannot start inside a replacement that lacks the pattern's first element. */
  lemma NoMatchAfterReplacement<T>(rep: seq<T>, r1: seq<T>, pat: seq<T>)
    requires |pat| > 0 && pat[0] !in rep && !Contains(r1, pat)
    ensures !Contains(rep + r1, pat)
  {
    var o := rep + r1;
    var m := |pat|;
    forall i | OccursAt(o, pat, i) && i >= |rep|
      ensures OccursAt(r1, pat, i - |rep|)
    {
      assert o[i..i + m] == r1[i - |rep|..i - |rep| + m];
    }
  }

  /** Putting one element in front of a string without the pattern can only create an occurrence at the front. */
  lemma NoLaterMatch<T>(x: T, r1: seq<T>, pat: seq<T>)
    requires !Contains(r1, pat)
    ensures forall i :: 0 < i ==> !OccursAt([x] + r1, pat, i)
  {
    forall i | 0 < i && OccursAt([x] + r1, pat, i)
      ensures OccursAt(r1, pat, i - 1)
    {
      assert ([x] + r1)[i..i + |pat|] == r1[i - 1..i - 1 + |pat|];
    }
  }

  /**
   * Copying an element that does not start the pattern in the input cannot
   * start an occurrence in the output either.
   */
  lemma NoMatchAfterCopy<T>(s: seq<T>, pat: seq<T>, rep: seq<T>)
    requires |pat| > 0 && |rep| > 0 && pat[0] !in rep && rep[0] !in pat[1..]
    requires |s| > 0 && !StartsWith(s, pat)
    requires !Contains(ReplaceAll(s[1..], pat, rep), pat)
    ensures !Contains(ReplaceAll(s, pat, rep), pat)
  {
    var r1 := ReplaceAll(s[1..], pat, rep);
    var o := ReplaceAll(s, pat, rep);
    assert o == [s[0]] + r1;
    NoLaterMatch(s[0], r1, pat);
    NoFrontMatch(s, pat, rep);
  }

  /** The output starts with the pattern only if the input did. */
  lemma NoFrontMatch<T>(s: seq<T>, pat: seq<T>, rep: seq<T>)
    requires |pat| > 0 && |rep| > 0 && pat[0] !in rep && rep[0] !in pat[1..]
    requires !StartsWith(s, pat)
    ensures !OccursAt(ReplaceAll(s, pat, rep), pat, 0)
  {
    assert rep[0] !in pat by {
      assert pat == [pat[0]] + pat[1..];
    }
    if OccursAt(ReplaceAll(s, pat, rep), pat, 0) {
      ReplaceAllPrefixBack(s, pat, rep, pat);
    }
  }

  /** A prefix of `a` is a prefix of `a + b`. */
  lemma StartsWithAppend<T>(a: seq<T>, b: seq<T>, pre: seq<T>)
    requires StartsWith(a, pre)
    ensures StartsWith(a + b, pre)
  {
    assert (a + b)[..|pre|] == a[..|pre|];
  }

  /** Putting the same text in front of a string and its prefix keeps it a prefix. */
  lemma StartsWithPrepend<T>(c: seq<T>, a: seq<T>, pre: seq<T>)
    requires StartsWith(a, pre)
    ensures StartsWith(c + a, c + pre)
  {
    assert (c + a)[..|c + pre|] == c + a[..|pre|];
  }

  /** `b` ends `a + b`. */
  lemma EndsWithAppend<T>(a: seq<T>, b: seq<T>)
    ensures EndsWith(a + b, b)
  {
    assert (a + b)[|a|..] == b;
  }

  /** Concatenation regroups freely; stated once so that long appends need not be re-proved by extensionality. */
  lemma AppendAssoc<T>(a: seq<T>, b: seq<T>, c: seq<T>)
    ensures a + (b + c) == a + b + c
  {
  }

  /** Sum of the lengths of `xs`. */
  function TotalLength(xs: seq<string>): nat {
    if |xs| == 0 then 0 else TotalLength(xs[..|xs| - 1]) + |xs[|xs| - 1]|
  }

  /** `xs` with `sep` between consecutive elements (Kotlin's `joinToString(sep)`). */
  function Join(sep: string, xs: seq<string>): string {
    if |xs| == 0 then ""
    else if |xs| == 1 then xs[0]
    else Join(sep, xs[..|xs| - 1]) + sep + xs[|xs| - 1]
  }

  lemma JoinSnoc(sep: string, xs: seq<string>, x: string)
    ensures Join(sep, xs + [x]) == if |xs| == 0 then x else Join(sep, xs) + sep + x
  {
    assert (xs + [x])[..|xs|] == xs;
  }

  /** Joining one more element of `xs` adds a separator (unless it is the first) and the element. */
  lemma JoinStep(sep: string, xs: seq<string>, i: nat)
    requires i < |xs|
    ensures Join(sep, xs[..i + 1]) == Join(sep, xs[..i]) + (if i > 0 then sep else "") + xs[i]
  {
    assert xs[..i + 1] == xs[..i] + [xs[i]];
    JoinSnoc(sep, xs[..i], xs[i]);
  }

  /** n strings are joined with exactly n - 1 separators. */
  lemma {:induction false} JoinLength(sep: string, xs: seq<string>)
    requires |xs| > 0
    ensures |Join(sep, xs)| == TotalLength(xs) + (|xs| - 1) * |sep|
  {
    if |xs| > 1 {
      JoinLength(sep, xs[..|xs| - 1]);
      assert (|xs| - 1) * |sep| == (|xs| - 2) * |sep| + |sep|;
    }
  }

  /** Number of occurrences of `c` in `s`. */
  function CountChar(s: string, c: char): nat {
    if |s| == 0 then 0 else CountChar(s[..|s| - 1], c) + (if s[|s| - 1] == c then 1 else 0)
  }

  lemma {:induction false} CountCharAppend(a: string, b: string, c: char)
    ensures CountChar(a + b, c) == CountChar(a, c) + CountChar(b, c)
    decreases |b|
  {
    if |b| > 0 {
      assert (a + b)[..|a + b| - 1] == a + b[..|b| - 1];
      CountCharAppend(a, b[..|b| - 1], c);
    } else {
      assert a + b == a;
    }
  }

  lemma {:induction false} CountCharAbsent(s: string, c: char)
    requires c !in s
    ensures CountChar(s, c) == 0
    decreases |s|
  {
    if |s| > 0 {
      CountCharAbsent(s[..|s| - 1], c);
    }
  }

  /** Joining strings free of `c` leaves only the separators' occurrences of `c`. */
  lemma {:induction false} CountCharJoin(sep: string, xs: seq<string>, c: char)
    requires |xs| > 0
    requires forall i :: 0 <= i < |xs| ==> c !in xs[i]
    ensures CountChar(Join(sep, xs), c) == (|xs| - 1) * CountChar(sep, c)
  {
    if |xs| == 1 {
      CountCharAbsent(xs[0], c);
    } else {
      var init := xs[..|xs| - 1];
      CountCharJoin(sep, init, c);
      CountCharAppend(Join(sep, init), sep, c);
      CountCharAppend(Join(sep, init) + sep, xs[|xs| - 1], c);
      CountCharAbsent(xs[|xs| - 1], c);
      assert (|xs| - 1) * CountChar(sep, c) == (|xs| - 2) * CountChar(sep, c) + CountChar(sep, c);
    }
  }
}
