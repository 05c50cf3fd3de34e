/**
 * The three string operations the search box relies on:
 * `String.prototype.trim`, `String.prototype.toLowerCase` and
 * `String.prototype.includes`.
 */
module Text {

  /**
   * The code points `trim` strips: the WhiteSpace and LineTerminator code
   * points of the ECMAScript language specification (tab, line tabulation,
   * form feed, space, no-break space, the other space separators, zero-width
   * no-break space, line feed, carriage return, line and paragraph separator).
   */
  predicate IsSpace(c: char) {
    || c == '\t' || c == '\n' || c == '\r' || c == ' '
    || c as int == 0x0B || c as int == 0x0C
    || c as int == 0xA0 || c as int == 0x1680
    || (0x2000 <= c as int <= 0x200A)
    || c as int == 0x2028 || c as int == 0x2029 || c as int == 0x202F
    || c as int == 0x205F || c as int == 0x3000 || c as int == 0xFEFF
  }

  ghost predicate AllSpace(s: string) {
    forall i :: 0 <= i < |s| ==> IsSpace(s[i])
  }

  /** Drops leading white space: what is left starts with a non-space. */
  function TrimStart(s: string): (r: string)
    ensures |r| <= |s|
    ensures r != [] ==> !IsSpace(r[0])
  {
    if s != [] && IsSpace(s[0]) then TrimStart(s[1..]) else s
  }

  /** What `TrimStart` drops is white space, and what it keeps is the rest of `s`. */
  lemma {:induction false} TrimStartSplits(s: string)
    ensures var r := TrimStart(s);
      r == s[|s| - |r|..] && AllSpace(s[..|s| - |r|])
    decreases |s|
  {
    if s != [] && IsSpace(s[0]) {
      TrimStartSplits(s[1..]);
      var r := TrimStart(s);
      assert s[1..][|s| - 1 - |r|..] == s[|s| - |r|..];
      assert forall i :: 0 <= i < |s| - |r| ==> IsSpace(s[i]) by {
        forall i | 0 <= i < |s| - |r| ensures IsSpace(s[i]) {
          if i > 0 { assert s[1..][..|s| - 1 - |r|][i - 1] == s[i]; }
        }
      }
    }
  }

  /** Drops trailing white space: what is left is a prefix that ends with a non-space. */
  function TrimEnd(s: string): (r: string)
    ensures |r| <= |s| && r == s[..|r|]
    ensures AllSpace(s[|r|..])
    ensures r != [] ==> !IsSpace(r[|r| - 1])
  {
    if s != [] && IsSpace(s[|s| - 1]) then TrimEnd(s[..|s| - 1]) else s
  }

  /** `s` is `r` with white space `s[..k]` before it and white space after it. */
  ghost predicate PaddedAt(s: string, r: string, k: int) {
    && 0 <= k && k + |r| <= |s|
    && s[k..k + |r|] == r
    && AllSpace(s[..k]) && AllSpace(s[k + |r|..])
  }

  /** `String.prototype.trim`. */
  function Trim(s: string): (r: string)
    ensures exists k :: PaddedAt(s, r, k)
    ensures r != [] ==> !IsSpace(r[0]) && !IsSpace(r[|r| - 1])
  {
    TrimPaddedAt(s);
    TrimEnd(TrimStart(s))
  }

  lemma TrimPaddedAt(s: string)
    ensures PaddedAt(s, TrimEnd(TrimStart(s)), |s| - |TrimStart(s)|)
  {
    TrimStartSplits(s);
    var front := TrimStart(s);
    var k := |s| - |front|;
    var r := TrimEnd(front);
    assert s[k..k + |r|] == front[..|r|];
    assert s[k + |r|..] == front[|r|..];
  }

  lemma TrimAllSpace(s: string)
    ensures AllSpace(s) <==> Trim(s) == []
  {
  }

  /** Trimming twice is trimming once. */
  lemma TrimIdempotent(s: string)
    ensures Trim(Trim(s)) == Trim(s)
  {
  }

  /** White space in front of a string disappears under `TrimStart`. */
  lemma {:induction false} TrimStartAfterSpace(p: string, s: string)
    requires AllSpace(p)
    ensures TrimStart(p + s) == TrimStart(s)
    decreases |p|
  {
    if p != [] {
      assert (p + s)[1..] == p[1..] + s;
      TrimStartAfterSpace(p[1..], s);
    } else {
      assert p + s == s;
    }
  }

  /** White space after a string disappears under `TrimEnd`. */
  lemma {:induction false} TrimEndBeforeSpace(s: string, p: string)
    requires AllSpace(p)
    ensures TrimEnd(s + p) == TrimEnd(s)
    decreases |p|
  {
    if p != [] {
      assert (s + p)[..|s + p| - 1] == s + p[..|p| - 1];
      TrimEndBeforeSpace(s, p[..|p| - 1]);
    } else {
      assert s + p == s;
    }
  }

  /** `TrimStart` of a concatenation: either all of `s` goes, or only its leading space. */
  lemma {:induction false} TrimStartAppend(s: string, p: string)
    ensures TrimStart(s + p) == if AllSpace(s) then TrimStart(p) else TrimStart(s) + p
    decreases |s|
  {
    if s == [] {
      assert s + p == p;
    } else if IsSpace(s[0]) {
      assert (s + p)[1..] == s[1..] + p;
      TrimStartAppend(s[1..], p);
    } else {
      assert (s + p)[0] == s[0];
    }
  }

  /** A query with white space on both sides trims to the same term. */
  lemma TrimPadded(pre: string, s: string, post: string)
    requires AllSpace(pre) && AllSpace(post)
    ensures Trim(pre + s + post) == Trim(s)
  {
    assert pre + s + post == pre + (s + post);
    TrimStartAfterSpace(pre, s + post);
    TrimStartAppend(s, post);
    if AllSpace(s) {
      TrimAllSpace(s);
      assert TrimStart(post) == [] by { TrimStartAllSpace(post); }
      assert TrimStart(s) == [] by { TrimStartAllSpace(s); }
    } else {
      TrimEndBeforeSpace(TrimStart(s), post);
    }
  }

  lemma TrimStartAllSpace(s: string)
    requires AllSpace(s)
    ensures TrimStart(s) == []
  {
    TrimStartSplits(s);
  }

  predicate IsUpper(c: char) {
    'A' <= c <= 'Z'
  }

  /** ASCII case mapping of `toLowerCase`: `A`-`Z` become `a`-`z`, every other character stays. */
  function LowerChar(c: char): (d: char)
    ensures !IsUpper(d)
    ensures !IsUpper(c) ==> d == c
    ensures IsSpace(d) == IsSpace(c)
  {
    if IsUpper(c) then (c as int - 'A' as int + 'a' as int) as char else c
  }

  /** `String.prototype.toLowerCase`, character by character. */
  function Lower(s: string): (r: string)
    ensures |r| == |s|
    ensures forall i {:trigger r[i]} :: 0 <= i < |s| ==> r[i] == LowerChar(s[i])
    ensures forall i :: 0 <= i < |r| ==> !IsUpper(r[i])
  {
    if s == [] then [] else [LowerChar(s[0])] + Lower(s[1..])
  }

  lemma LowerIdempotent(s: string)
    ensures Lower(Lower(s)) == Lower(s)
  {
  }

  lemma LowerSlice(s: string, i: nat, j: nat)
    requires i <= j <= |s|
    ensures Lower(s[i..j]) == Lower(s)[i..j]
  {
    var a, b := Lower(s[i..j]), Lower(s)[i..j];
    forall k | 0 <= k < j - i
      ensures a[k] == b[k]
    {
      assert a[k] == LowerChar(s[i + k]);
    }
  }

  /** Lower-casing never creates or removes white space, so it commutes with trimming. */
  lemma {:induction false} LowerTrimStart(s: string)
    ensures TrimStart(Lower(s)) == Lower(TrimStart(s))
    decreases |s|
  {
    if s != [] && IsSpace(s[0]) {
      LowerSlice(s, 1, |s|);
      LowerTrimStart(s[1..]);
    }
  }

  lemma {:induction false} LowerTrimEnd(s: string)
    ensures TrimEnd(Lower(s)) == Lower(TrimEnd(s))
    decreases |s|
  {
    if s != [] && IsSpace(s[|s| - 1]) {
      LowerSlice(s, 0, |s| - 1);
      LowerTrimEnd(s[..|s| - 1]);
    }
  }

  lemma LowerTrim(s: string)
    ensures Lower(Trim(s)) == Trim(Lower(s))
  {
    LowerTrimStart(s);
    LowerTrimEnd(TrimStart(s));
  }

  /** `t` occurs in `s` at position `i`. */
  ghost predicate OccursAt(s: string, t: string, i: int) {
    0 <= i && i + |t| <= |s| && s[i..i + |t|] == t
  }

  /** `t` is a substring of `s`. */
  ghost predicate Contains(s: string, t: string) {
    exists i :: OccursAt(s, t, i)
  }

  predicate StartsWith(s: string, t: string) {
    |t| <= |s| && s[..|t|] == t
  }

  /** `String.prototype.includes`: tries every start position from the left. */
  function Includes(s: string, t: string): bool
    decreases |s|
  {
    StartsWith(s, t) || (s != [] && Includes(s[1..], t))
  }

  lemma SliceOfTail(s: string, i: nat, n: nat)
    requires i + n < |s|
    ensures s[1..][i..i + n] == s[i + 1..i + 1 + n]
  {
    var a, b := s[1..][i..i + n], s[i + 1..i + 1 + n];
    forall k | 0 <= k < n
      ensures a[k] == b[k]
    {
    }
  }

  /** `Includes` holds exactly when `t` occurs somewhere in `s`. */
  lemma {:induction false} IncludesIffOccurs(s: string, t: string)
    ensures Includes(s, t) <==> Contains(s, t)
    decreases |s|
  {
    if s != [] {
      IncludesIffOccurs(s[1..], t);
      if Includes(s[1..], t) {
        var i :| OccursAt(s[1..], t, i);
        assert 0 <= i && i + |t| <= |s[1..]| == |s| - 1;
        SliceOfTail(s, i, |t|);
        assert OccursAt(s, t, i + 1);
        assert Contains(s, t);
      }
      if i :| OccursAt(s, t, i) {
        if i > 0 {
          SliceOfTail(s, i - 1, |t|);
          assert OccursAt(s[1..], t, i - 1);
        }
      }
    } else {
      if i :| OccursAt(s, t, i) {
        assert |t| == 0;
      }
    }
    if StartsWith(s, t) {
      assert OccursAt(s, t, 0);
    }
  }

  /** A string never includes anything longer than itself. */
  lemma {:induction false} IncludesTooLong(s: string, t: string)
    requires |s| < |t|
    ensures !Includes(s, t)
    decreases |s|
  {
    if s != [] {
      IncludesTooLong(s[1..], t);
    }
  }

  /** Every string includes the empty string. */
  lemma IncludesEmpty(s: string)
    ensures Includes(s, [])
  {
  }
}
