// When two node ids name the same test (normalize_nodeid of
// scripts/_coverage_report_schema.py), told character by character.
module CoverageNames {
  import opened CoverageResults

  predicate DoubleColonAt(s: string, i: nat) { i + 1 < |s| && s[i] == ':' && s[i + 1] == ':' }

  // The test part begins at the first "::"; without one there is no test part.
  predicate TestPartAt(s: string, k: nat) {
    k <= |s| && (k < |s| ==> DoubleColonAt(s, k)) && forall i :: 0 <= i < k ==> !DoubleColonAt(s, i)
  }

  lemma {:induction false} SeparatorIsFirst(s: string)
    ensures TestPartAt(s, Separator(s))
  {
    if |s| >= 2 && s[..2] != "::" {
      var rest, k := s[1..], Separator(s);
      SeparatorIsFirst(rest);
      assert s[..2] == [s[0], s[1]];
      forall i | 0 <= i < k ensures !DoubleColonAt(s, i) {
        if i > 0 { assert DoubleColonAt(s, i) == DoubleColonAt(rest, i - 1); }
      }
    } else if |s| >= 2 {
      assert s[0] == s[..2][0] && s[1] == s[..2][1];
    }
  }

  lemma OneTestPart(s: string, k: nat, l: nat)
    requires TestPartAt(s, k) && TestPartAt(s, l)
    ensures k == l
  {
    assert k < l ==> DoubleColonAt(s, k);
    assert l < k ==> DoubleColonAt(s, l);
    hide DoubleColonAt;
  }

  // The same path but for the direction of its slashes.
  predicate SlashAlike(x: string, y: string) {
    |x| == |y| && forall i :: 0 <= i < |x| ==> x[i] == y[i] || (x[i] in "/\\" && y[i] in "/\\")
  }

  // So many times "./" in front.
  function Dots(n: nat): string { if n == 0 then "" else "./" + Dots(n - 1) }

  lemma SlashedAlike(x: string, y: string)
    ensures Slashed(x) == Slashed(y) <==> SlashAlike(x, y)
  {
    if Slashed(x) == Slashed(y) {
      forall i | 0 <= i < |x| ensures x[i] == y[i] || (x[i] in "/\\" && y[i] in "/\\") {
        assert Slashed(x)[i] == Slashed(y)[i];
      }
    }
  }

  lemma {:induction false} SlashedDots(n: nat, x: string)
    ensures Slashed(Dots(n) + x) == Dots(n) + Slashed(x)
  {
    if n > 0 {
      SlashedDots(n - 1, x);
      var inner := Dots(n - 1) + x;
      assert Dots(n) + x == "./" + inner;
      assert Slashed("./" + inner) == "./" + Slashed(inner);
      assert Dots(n) + Slashed(x) == "./" + (Dots(n - 1) + Slashed(x));
    } else {
      assert Dots(0) + x == x;
    }
  }

  // What is left of a path is the path without some leading "./", and has none itself.
  lemma {:induction false} WithoutDotSound(x: string) returns (n: nat)
    ensures x == Dots(n) + WithoutDot(x) && 2 * n <= |x| && |Dots(n)| == 2 * n
    ensures !(|WithoutDot(x)| >= 2 && WithoutDot(x)[..2] == "./")
    decreases |x|
  {
    if |x| >= 2 && x[..2] == "./" {
      var m := WithoutDotSound(x[2..]);
      n := m + 1;
      assert x == "./" + x[2..] == "./" + (Dots(m) + WithoutDot(x[2..])) == Dots(n) + WithoutDot(x);
    } else {
      n := 0;
    }
  }

  lemma {:induction false} WithoutDotDots(n: nat, x: string)
    ensures WithoutDot(Dots(n) + x) == WithoutDot(x)
  {
    if n > 0 {
      WithoutDotDots(n - 1, x);
      var y := Dots(n) + x;
      assert y == "./" + (Dots(n - 1) + x);
      assert y[..2] == "./" && y[2..] == Dots(n - 1) + x;
    } else {
      assert Dots(0) + x == x;
    }
  }

  lemma {:induction false} DotsAdd(m: nat, n: nat)
    ensures Dots(m) + Dots(n) == Dots(m + n)
  {
    if m > 0 {
      DotsAdd(m - 1, n);
      assert Dots(m) + Dots(n) == "./" + (Dots(m - 1) + Dots(n));
    }
  }

  // The same path but for leading "./" on one side.
  predicate DotsAlike(x: string, y: string) {
    exists n: nat :: n <= |x| + |y| && (x == Dots(n) + y || y == Dots(n) + x)
  }

  lemma SameCore(x: string, y: string, m: nat, n: nat, core: string)
    requires x == Dots(m) + core && y == Dots(n) + core && n <= m && |Dots(m)| == 2 * m && |Dots(n)| == 2 * n
    ensures x == Dots(m - n) + y && m - n <= |x| + |y|
  {
    DotsAdd(m - n, n);
    assert Dots(m) + core == Dots(m - n) + (Dots(n) + core);
  }

  lemma WithoutDotAlike(x: string, y: string)
    ensures WithoutDot(x) == WithoutDot(y) <==> DotsAlike(x, y)
  {
    if WithoutDot(x) == WithoutDot(y) {
      var m := WithoutDotSound(x);
      var n := WithoutDotSound(y);
      var core := WithoutDot(x);
      hide WithoutDot, Dots;
      if n <= m { SameCore(x, y, m, n, core); } else { SameCore(y, x, n, m, core); }
    }
    if DotsAlike(x, y) {
      var n: nat :| n <= |x| + |y| && (x == Dots(n) + y || y == Dots(n) + x);
      WithoutDotDots(n, y);
      WithoutDotDots(n, x);
      hide WithoutDot, Dots;
    }
  }

  // A text whose tail repeats that of another, colon for colon, has its test part where
  // the other has it.
  lemma ShiftedTestPart(s: string, k: nat, whole: string, shift: nat)
    requires TestPartAt(s, k) && shift <= k && |whole| == |s| - shift
    requires forall i :: 0 <= i < |whole| ==> (whole[i] == ':' <==> s[shift + i] == ':')
    ensures TestPartAt(whole, k - shift)
  {
    forall i | 0 <= i < |whole| ensures DoubleColonAt(whole, i) <==> DoubleColonAt(s, shift + i) {}
  }

  // Normalising touches the path part only, so its result has the same test part.
  lemma NormalTestPart(s: string)
    ensures var k := Separator(s);
      var path := WithoutDot(Slashed(s[..k]));
      NormalizeNodeid(s) == path + s[k..] && TestPartAt(NormalizeNodeid(s), |path|)
  {
    var k := Separator(s);
    SeparatorIsFirst(s);
    var slashed := Slashed(s[..k]);
    var path := WithoutDot(slashed);
    var n := WithoutDotSound(slashed);
    var whole := path + s[k..];
    hide WithoutDot, Separator, Dots, TestPartAt;
    forall i | 0 <= i < |whole| ensures whole[i] == ':' <==> s[2 * n + i] == ':' {
      if i < |path| { assert path[i] == slashed[2 * n + i]; }
    }
    ShiftedTestPart(s, k, whole, 2 * n);
  }

  // The same test part, and the same path but for slashes and leading "./".
  predicate PartsAlike(a: string, k: nat, b: string, l: nat)
    requires k <= |a| && l <= |b|
  {
    && a[k..] == b[l..]
    && exists n: nat :: n <= k + l && (SlashAlike(a[..k], Dots(n) + b[..l]) || SlashAlike(Dots(n) + a[..k], b[..l]))
  }

  // Two node ids are taken for one exactly when they agree from their first "::" on and
  // their paths differ at most in the direction of slashes and in leading "./".
  lemma SameNodeExactly(a: string, b: string, k: nat, l: nat)
    requires TestPartAt(a, k) && TestPartAt(b, l)
    ensures NormalizeNodeid(a) == NormalizeNodeid(b) <==> PartsAlike(a, k, b, l)
  {
    SeparatorIsFirst(a);
    SeparatorIsFirst(b);
    OneTestPart(a, k, Separator(a));
    OneTestPart(b, l, Separator(b));
    NormalTestPart(a);
    NormalTestPart(b);
    var x, y := Slashed(a[..k]), Slashed(b[..l]);
    var p, q := WithoutDot(x), WithoutDot(y);
    WithoutDotAlike(x, y);
    if NormalizeNodeid(a) == NormalizeNodeid(b) {
      OneTestPart(NormalizeNodeid(a), |p|, |q|);
      assert a[k..] == NormalizeNodeid(a)[|p|..] && b[l..] == NormalizeNodeid(b)[|q|..];
      assert p == NormalizeNodeid(a)[..|p|] && q == NormalizeNodeid(b)[..|q|];
    }
    forall n: nat ensures x == Dots(n) + y <==> SlashAlike(a[..k], Dots(n) + b[..l]) {
      SlashedDots(n, b[..l]);
      SlashedAlike(a[..k], Dots(n) + b[..l]);
    }
    forall n: nat ensures y == Dots(n) + x <==> SlashAlike(Dots(n) + a[..k], b[..l]) {
      SlashedDots(n, a[..k]);
      SlashedAlike(Dots(n) + a[..k], b[..l]);
    }
    hide SlashAlike, Slashed, WithoutDot, Dots, Separator, TestPartAt;
    if DotsAlike(x, y) {
      var n: nat :| n <= |x| + |y| && (x == Dots(n) + y || y == Dots(n) + x);
      assert SlashAlike(a[..k], Dots(n) + b[..l]) || SlashAlike(Dots(n) + a[..k], b[..l]);
    }
    if n: nat :| n <= k + l && (SlashAlike(a[..k], Dots(n) + b[..l]) || SlashAlike(Dots(n) + a[..k], b[..l])) {
      assert x == Dots(n) + y || y == Dots(n) + x;
      assert DotsAlike(x, y);
    }
  }
}
