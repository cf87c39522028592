/** The string operations the backend applies: `str.strip()`, `c in s` and `s[:n]`. */
module Text {

  /** `c.isspace()` for a single character. */
  predicate IsSpace(c: char)
  {
    var n := c as int;
    (9 <= n <= 13) || (28 <= n <= 32) || n == 0x85 || n == 0xA0 || n == 0x1680
    || (0x2000 <= n <= 0x200A) || n == 0x2028 || n == 0x2029 || n == 0x202F
    || n == 0x205F || n == 0x3000
  }

  predicate AllSpace(s: string)
  {
    forall i :: 0 <= i < |s| ==> IsSpace(s[i])
  }

  /** A leading space cut in front of what the rest of the string loses keeps the cut all whitespace. */
  lemma StripStartStep(s: string, r: string)
    requires s != [] && IsSpace(s[0]) && |r| <= |s| - 1
    requires r == s[1..][|s| - 1 - |r|..] && AllSpace(s[1..][..|s| - 1 - |r|])
    ensures r == s[|s| - |r|..] && AllSpace(s[..|s| - |r|])
  {
    var k := |s| - |r|;
    forall i | 0 <= i < k
      ensures IsSpace(s[..k][i])
    {
      if i > 0 {
        assert s[..k][i] == s[1..][..k - 1][i - 1];
      }
    }
  }

  /** A trailing space cut after what the rest of the string loses keeps the cut all whitespace. */
  lemma StripEndStep(s: string, r: string)
    requires s != [] && IsSpace(s[|s| - 1]) && |r| <= |s| - 1
    requires r == s[..|s| - 1][..|r|] && AllSpace(s[..|s| - 1][|r|..])
    ensures r == s[..|r|] && AllSpace(s[|r|..])
  {
    forall i | 0 <= i < |s| - |r|
      ensures IsSpace(s[|r|..][i])
    {
      if i < |s| - 1 - |r| {
        assert s[|r|..][i] == s[..|s| - 1][|r|..][i];
      }
    }
  }

  /** `s.lstrip()` */
  function StripStart(s: string): (r: string)
    ensures r == [] || !IsSpace(r[0])
    ensures |r| <= |s| && r == s[|s| - |r|..]
    ensures AllSpace(s[..|s| - |r|])
  {
    if s != [] && IsSpace(s[0]) then
      var r := StripStart(s[1..]);
      StripStartStep(s, r);
      assert AllSpace(s[..|s| - |r|]);
      r
    else
      assert s[..0] == [] && s[0..] == s;
      s
  }

  /** `s.rstrip()` */
  function StripEnd(s: string): (r: string)
    ensures r == [] || !IsSpace(r[|r| - 1])
    ensures |r| <= |s| && r == s[..|r|]
    ensures AllSpace(s[|r|..])
  {
    if s != [] && IsSpace(s[|s| - 1]) then
      var r := StripEnd(s[..|s| - 1]);
      StripEndStep(s, r);
      assert AllSpace(s[|r|..]);
      r
    else
      s
  }

  /** `s.strip()` */
  function Strip(s: string): string
  {
    StripEnd(StripStart(s))
  }

  lemma {:induction false} StripStartOfAllSpace(s: string)
    requires AllSpace(s)
    ensures StripStart(s) == []
  {
    if s != [] {
      StripStartOfAllSpace(s[1..]);
    }
  }

  /** Leading whitespace stops at the first non-space character. */
  lemma {:induction false} StripStartKeeps(s: string, k: nat)
    requires k < |s| && !IsSpace(s[k])
    ensures |s| - |StripStart(s)| <= k
  {
    if IsSpace(s[0]) {
      StripStartKeeps(s[1..], k - 1);
    }
  }

  lemma {:induction false} StripEndKeeps(s: string, k: nat)
    requires k < |s| && !IsSpace(s[k])
    ensures k < |StripEnd(s)|
  {
    if IsSpace(s[|s| - 1]) {
      StripEndKeeps(s[..|s| - 1], k);
    }
  }

  /** `s.strip()` is empty exactly when every character of `s` is whitespace. */
  lemma {:induction false} StripEmptyIffAllSpace(s: string)
    ensures Strip(s) == [] <==> AllSpace(s)
  {
    if AllSpace(s) {
      StripStartOfAllSpace(s);
      assert StripEnd([]) == [];
    } else {
      var k :| 0 <= k < |s| && !IsSpace(s[k]);
      StripKeeps(s, k);
    }
  }

  lemma {:induction false} StripKeeps(s: string, k: nat)
    requires k < |s| && !IsSpace(s[k])
    ensures Strip(s) != []
  {
    var t := StripStart(s);
    StripStartKeeps(s, k);
    var j := k - (|s| - |t|);
    assert t[j] == s[k];
    StripEndKeeps(t, j);
  }

  /** The stripped text is a contiguous piece of the original, and only whitespace is cut on either side. */
  lemma {:induction false} StripIsSlice(s: string)
    ensures exists i, j :: 0 <= i <= j <= |s| && Strip(s) == s[i..j] && AllSpace(s[..i]) && AllSpace(s[j..])
  {
    var t := StripStart(s);
    var r := StripEnd(t);
    var i := |s| - |t|;
    SliceOfSlice(s, i, |r|);
    assert 0 <= i <= i + |r| <= |s| && Strip(s) == s[i..i + |r|] && AllSpace(s[..i]) && AllSpace(s[i + |r|..]);
  }

  /** A prefix of a suffix is a slice, and what follows it is the rest of the suffix. */
  lemma SliceOfSlice(s: string, i: nat, k: nat)
    requires i + k <= |s|
    ensures s[i..][..k] == s[i..i + k] && s[i..][k..] == s[i + k..]
  {
  }

  /** The stripped text has no whitespace at either end. */
  lemma {:induction false} StripIsTrimmed(s: string)
    ensures Strip(s) == [] || (!IsSpace(Strip(s)[0]) && !IsSpace(Strip(s)[|Strip(s)| - 1]))
  {
    var t := StripStart(s);
    var r := StripEnd(t);
    if r != [] {
      assert r == t[..|r|];
      assert r[0] == t[0];
    }
  }

  /** Stripping twice is the same as stripping once. */
  lemma {:induction false} StripIdempotent(s: string)
    ensures Strip(Strip(s)) == Strip(s)
  {
    StripIsTrimmed(s);
    var r := Strip(s);
    if r != [] {
      assert StripStart(r) == r;
      assert StripEnd(r) == r;
    }
  }

  /** `c in s` */
  predicate Contains(s: string, c: char)
  {
    c in s
  }

  /** `s[:n]` for n >= 0 */
  function Prefix(s: string, n: nat): (r: string)
    ensures |r| == if |s| < n then |s| else n
    ensures r <= s
  {
    if |s| < n then s else s[..n]
  }
}
