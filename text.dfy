/**
 * The string operations the services and the results card rely on:
 * `toLowerCase`, `toUpperCase` and `includes`. Case mapping covers the ASCII
 * letters only.
 */
module Text {

  predicate IsUpperAscii(c: char)
  {
    'A' <= c <= 'Z'
  }

  predicate IsLowerAscii(c: char)
  {
    'a' <= c <= 'z'
  }

  /** `c.toLowerCase()` for one character. */
  function LowerChar(c: char): (r: char)
    ensures !IsUpperAscii(r)
    ensures IsUpperAscii(c) <==> r != c
  {
    if IsUpperAscii(c) then (c as int + 32) as char else c
  }

  /** `c.toUpperCase()` for one character. */
  function UpperChar(c: char): (r: char)
    ensures !IsLowerAscii(r)
    ensures IsLowerAscii(c) <==> r != c
  {
    if IsLowerAscii(c) then (c as int - 32) as char else c
  }

  /** `s.toLowerCase()`. */
  function ToLower(s: string): (r: string)
    ensures |r| == |s|
    ensures forall i :: 0 <= i < |r| ==> !IsUpperAscii(r[i])
  {
    seq(|s|, i requires 0 <= i < |s| => LowerChar(s[i]))
  }

  /** Two strings that differ at most in the case of their letters. */
  predicate SameUpToCase(s: string, t: string)
  {
    |s| == |t| && forall i :: 0 <= i < |s| ==> LowerChar(s[i]) == LowerChar(t[i])
  }

  /** Lower-casing forgets exactly the case of the letters. */
  lemma ToLowerEqualIff(s: string, t: string)
    ensures ToLower(s) == ToLower(t) <==> SameUpToCase(s, t)
  {
    if ToLower(s) == ToLower(t) {
      forall i | 0 <= i < |s| ensures LowerChar(s[i]) == LowerChar(t[i]) {
        assert ToLower(s)[i] == ToLower(t)[i];
      }
    }
  }

  /** Lower-casing twice is lower-casing once. */
  lemma ToLowerIdempotent(s: string)
    ensures ToLower(ToLower(s)) == ToLower(s)
  {
  }

  /** `w` occurs at the start of `s`. */
  predicate StartsWith(s: string, w: string)
  {
    |w| <= |s| && s[..|w|] == w
  }

  /** `s.includes(w)`: some suffix of `s` starts with `w`. */
  predicate Contains(s: string, w: string)
    decreases |s|
  {
    StartsWith(s, w) || (s != [] && Contains(s[1..], w))
  }

  /** `w` occurs in `s` at index `i`. */
  predicate OccursAt(s: string, w: string, i: int)
  {
    0 <= i && i + |w| <= |s| && s[i..i + |w|] == w
  }

  /** `Contains` is the usual substring test: an occurrence at some index. */
  lemma {:induction false} ContainsIff(s: string, w: string)
    ensures Contains(s, w) <==> exists i :: OccursAt(s, w, i)
    decreases |s|
  {
    if s != [] {
      ContainsIff(s[1..], w);
      if exists i :: OccursAt(s[1..], w, i) {
        var i :| OccursAt(s[1..], w, i);
        assert s[i + 1..i + 1 + |w|] == s[1..][i..i + |w|];
        assert OccursAt(s, w, i + 1);
      }
      if exists i :: OccursAt(s, w, i) {
        var i :| OccursAt(s, w, i);
        if i > 0 {
          assert s[1..][i - 1..i - 1 + |w|] == s[i..i + |w|];
          assert OccursAt(s[1..], w, i - 1);
        } else {
          assert s[..|w|] == s[0..|w|];
        }
      }
      if StartsWith(s, w) {
        assert s[..|w|] == s[0..|w|];
        assert OccursAt(s, w, 0);
      }
    } else {
      if exists i :: OccursAt(s, w, i) {
        var i :| OccursAt(s, w, i);
        assert i == 0 && w == [];
        assert StartsWith(s, w);
      }
      if StartsWith(s, w) {
        assert OccursAt(s, w, 0);
      }
    }
  }

  /** A string containing `w` contains every piece of `w`. */
  lemma ContainsTransitive(s: string, w: string, u: string)
    requires Contains(s, w) && Contains(w, u)
    ensures Contains(s, u)
  {
    ContainsIff(s, w);
    ContainsIff(w, u);
    var i :| OccursAt(s, w, i);
    var j :| OccursAt(w, u, j);
    forall k | 0 <= k < |u| ensures s[i + j + k] == u[k] {
      assert w[j + k] == u[k];
      assert s[i + (j + k)] == s[i..i + |w|][j + k];
    }
    assert OccursAt(s, u, i + j);
    ContainsIff(s, u);
  }

  /** Every string contains the text at any of its positions. */
  lemma ContainsSlice(s: string, i: nat, j: nat)
    requires i <= j <= |s|
    ensures Contains(s, s[i..j])
  {
    assert OccursAt(s, s[i..j], i);
    ContainsIff(s, s[i..j]);
  }
}
