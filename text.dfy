/**
 * The two string operations the code check relies on, Python's `str.strip()`
 * and `str.upper()`, restricted to the ASCII range: whitespace is what
 * `str.isspace()` accepts below 128, and upper-casing maps `a`..`z` to `A`..`Z`.
 */
module Text {

  /** Python's `str.isspace()` on ASCII: \t \n \v \f \r, the separators 0x1c..0x1f, and space. */
  predicate IsSpace(c: char) {
    (9 <= c as int <= 13) || (28 <= c as int <= 32)
  }

  predicate AllSpace(s: string) {
    forall k :: 0 <= k < |s| ==> IsSpace(s[k])
  }

  function UpperChar(c: char): char {
    if 'a' <= c <= 'z' then (c as int - 32) as char else c
  }

  /** `str.upper()` on ASCII. */
  function Upper(s: string): string {
    seq(|s|, i requires 0 <= i < |s| => UpperChar(s[i]))
  }

  /** `str.lstrip()`: the longest suffix of `s` that does not start with whitespace. */
  function TrimStart(s: string): (r: string)
    ensures |r| <= |s| && r == s[|s| - |r|..]
    ensures AllSpace(s[..|s| - |r|])
    ensures r == [] || !IsSpace(r[0])
  {
    if |s| > 0 && IsSpace(s[0]) then TrimStart(s[1..]) else s
  }

  /** `str.rstrip()`: the longest prefix of `s` that does not end with whitespace. */
  function TrimEnd(s: string): (r: string)
    ensures |r| <= |s| && r == s[..|r|]
    ensures AllSpace(s[|r|..])
    ensures r == [] || !IsSpace(r[|r| - 1])
  {
    if |s| > 0 && IsSpace(s[|s| - 1]) then TrimEnd(s[..|s| - 1]) else s
  }

  /** `str.strip()`. */
  function Strip(s: string): string {
    TrimEnd(TrimStart(s))
  }

  /** `s.strip().upper()`, the form in which codes are compared. */
  function Normalize(s: string): string {
    Upper(Strip(s))
  }

  /** Strip removes exactly a whitespace prefix and a whitespace suffix, and nothing inside. */
  lemma StripIsSlice(s: string)
    ensures exists i, j :: 0 <= i <= j <= |s| && Strip(s) == s[i..j]
                        && AllSpace(s[..i]) && AllSpace(s[j..])
    ensures Strip(s) == [] || (!IsSpace(Strip(s)[0]) && !IsSpace(Strip(s)[|Strip(s)| - 1]))
  {
    var t := TrimStart(s);
    var r := TrimEnd(t);
    var i := |s| - |t|;
    assert r == s[i..i + |r|];
    assert s[i + |r|..] == t[|r|..];
    if r != [] {
      assert r[0] == t[0];
    }
  }

  /** A string without surrounding whitespace is its own `strip()`. */
  lemma UnpaddedStrip(s: string)
    requires s != [] && !IsSpace(s[0]) && !IsSpace(s[|s| - 1])
    ensures Strip(s) == s
  {
    assert TrimStart(s) == s;
  }

  /** Leading whitespace does not reach `TrimStart`'s result. */
  lemma {:induction false} TrimStartSkipsSpaces(a: string, t: string)
    requires AllSpace(a)
    ensures TrimStart(a + t) == TrimStart(t)
  {
    if a != [] {
      assert (a + t)[1..] == a[1..] + t;
      assert AllSpace(a[1..]) by {
        forall k | 0 <= k < |a[1..]| ensures IsSpace(a[1..][k]) {
          assert a[1..][k] == a[k + 1];
        }
      }
      TrimStartSkipsSpaces(a[1..], t);
    } else {
      assert a + t == t;
    }
  }

  /** Trailing whitespace does not reach `TrimEnd`'s result. */
  lemma {:induction false} TrimEndSkipsSpaces(t: string, b: string)
    requires AllSpace(b)
    ensures TrimEnd(t + b) == TrimEnd(t)
  {
    if b != [] {
      var b' := b[..|b| - 1];
      assert (t + b)[..|t + b| - 1] == t + b';
      assert AllSpace(b') by {
        forall k | 0 <= k < |b'| ensures IsSpace(b'[k]) {
          assert b'[k] == b[k];
        }
      }
      TrimEndSkipsSpaces(t, b');
    } else {
      assert t + b == t;
    }
  }

  /** Once the start is trimmed, appending trailing whitespace only appends it. */
  lemma {:induction false} TrimStartAppendSpaces(t: string, b: string)
    requires AllSpace(b)
    ensures TrimStart(t + b) == TrimStart(t) + b || (TrimStart(t) == [] && TrimStart(t + b) == [])
  {
    if t == [] {
      TrimStartSkipsSpaces(b, []);
      assert b + [] == b && t + b == b;
    } else if IsSpace(t[0]) {
      assert (t + b)[0] == t[0];
      assert (t + b)[1..] == t[1..] + b;
      assert TrimStart(t + b) == TrimStart(t[1..] + b);
      assert TrimStart(t) == TrimStart(t[1..]);
      TrimStartAppendSpaces(t[1..], b);
    } else {
      assert (t + b)[0] == t[0];
      assert TrimStart(t + b) == t + b;
    }
  }

  /** `str.strip()` ignores whitespace padding on either side. */
  lemma StripIgnoresPadding(a: string, t: string, b: string)
    requires AllSpace(a) && AllSpace(b)
    ensures Strip(a + t + b) == Strip(t)
  {
    assert a + t + b == a + (t + b);
    TrimStartSkipsSpaces(a, t + b);
    assert Strip(a + t + b) == TrimEnd(TrimStart(t + b));
    TrimStartAppendSpaces(t, b);
    if TrimStart(t + b) == TrimStart(t) + b {
      TrimEndSkipsSpaces(TrimStart(t), b);
    } else {
      assert TrimStart(t) == [] && TrimStart(t + b) == [];
    }
  }

  /** `str.strip()` is idempotent. */
  lemma StripIdempotent(s: string)
    ensures Strip(Strip(s)) == Strip(s)
  {
    var t := TrimStart(s);
    var r := TrimEnd(t);
    if r != [] {
      assert r[0] == t[0];
    }
    assert TrimStart(r) == r;
    TrimEndIdempotent(t);
  }

  lemma TrimEndIdempotent(s: string)
    ensures TrimEnd(TrimEnd(s)) == TrimEnd(s)
  {
  }

  lemma UpperPrefix(s: string, k: nat)
    requires k <= |s|
    ensures Upper(s[..k]) == Upper(s)[..k] && Upper(s[k..]) == Upper(s)[k..]
  {
  }

  /** Upper-casing never creates or removes whitespace, so trimming commutes with it. */
  lemma {:induction false} TrimStartUpper(s: string)
    ensures Upper(TrimStart(s)) == TrimStart(Upper(s))
  {
    if |s| > 0 && IsSpace(s[0]) {
      UpperPrefix(s, 1);
      TrimStartUpper(s[1..]);
    }
  }

  lemma {:induction false} TrimEndUpper(s: string)
    ensures Upper(TrimEnd(s)) == TrimEnd(Upper(s))
  {
    if |s| > 0 && IsSpace(s[|s| - 1]) {
      UpperPrefix(s, |s| - 1);
      TrimEndUpper(s[..|s| - 1]);
    }
  }

  /** `s.strip().upper() == s.upper().strip()` on ASCII. */
  lemma StripUpperCommute(s: string)
    ensures Upper(Strip(s)) == Strip(Upper(s))
  {
    TrimStartUpper(s);
    TrimEndUpper(TrimStart(s));
  }

  lemma UpperIdempotent(s: string)
    ensures Upper(Upper(s)) == Upper(s)
  {
  }

  /** Normalizing twice is normalizing once. */
  lemma NormalizeIdempotent(s: string)
    ensures Normalize(Normalize(s)) == Normalize(s)
  {
    StripUpperCommute(Strip(s));
    StripIdempotent(s);
    UpperIdempotent(Strip(s));
  }

  /** Normalization ignores letter case and surrounding whitespace. */
  lemma NormalizeIgnoresCaseAndPadding(a: string, s: string, b: string)
    requires AllSpace(a) && AllSpace(b)
    ensures Normalize(a + Upper(s) + b) == Normalize(s)
  {
    StripIgnoresPadding(a, Upper(s), b);
    StripUpperCommute(s);
    UpperIdempotent(Strip(s));
  }
}
