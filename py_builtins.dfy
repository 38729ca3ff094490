/**
 * The Python built-ins the agent and the request handlers rely on:
 * `dict.get(key, default)`, `str.strip()` with no argument, and `sep.join(parts)`.
 */
module PyBuiltins {

  /** `m.get(key, default)`. */
  function Get<K, V>(m: map<K, V>, key: K, default: V): V
  {
    if key in m then m[key] else default
  }

  /** Python's `str.isspace()` on one code point: exactly the characters `strip()` removes. */
  predicate IsSpace(c: char) {
    || ('\t' <= c <= '\r')
    || ('\U{1C}' <= c <= ' ')
    || c == '\U{85}' || c == '\U{A0}' || c == '\U{1680}'
    || ('\U{2000}' <= c <= '\U{200A}')
    || c == '\U{2028}' || c == '\U{2029}' || c == '\U{202F}'
    || c == '\U{205F}' || c == '\U{3000}'
  }

  predicate AllSpace(s: string) {
    forall i :: 0 <= i < |s| ==> IsSpace(s[i])
  }

  /** Number of whitespace characters at the front of `s`. */
  function LeadingSpaces(s: string): (k: nat)
    ensures k <= |s|
    ensures AllSpace(s[..k])
    ensures k < |s| ==> !IsSpace(s[k])
  {
    if |s| > 0 && IsSpace(s[0]) then 1 + LeadingSpaces(s[1..]) else 0
  }

  /** Number of whitespace characters at the back of `s`. */
  function TrailingSpaces(s: string): (k: nat)
    ensures k <= |s|
    ensures AllSpace(s[|s| - k..])
    ensures k < |s| ==> !IsSpace(s[|s| - 1 - k])
  {
    if |s| > 0 && IsSpace(s[|s| - 1]) then 1 + TrailingSpaces(s[..|s| - 1]) else 0
  }

  /**
   * `s.strip()`: the slice of `s` left after dropping the whitespace at both ends.
   * The result is a contiguous piece of `s`, everything cut off is whitespace, and
   * the result neither starts nor ends with whitespace.
   */
  function Strip(s: string): (r: string)
    ensures LeadingSpaces(s) + |r| <= |s|
    ensures r == s[LeadingSpaces(s)..LeadingSpaces(s) + |r|]
    ensures AllSpace(s[..LeadingSpaces(s)])
    ensures AllSpace(s[LeadingSpaces(s) + |r|..])
    ensures r != [] ==> !IsSpace(r[0]) && !IsSpace(r[|r| - 1])
  {
    var t := s[LeadingSpaces(s)..];
    t[..|t| - TrailingSpaces(t)]
  }

  /** `LeadingSpaces` is the index of the first non-whitespace character. */
  lemma {:induction false} LeadingSpacesAt(s: string, j: nat)
    requires j <= |s| && AllSpace(s[..j])
    requires j < |s| ==> !IsSpace(s[j])
    ensures LeadingSpaces(s) == j
  {
    if j > 0 {
      assert s[..j][0] == s[0];
      var rest, front := s[1..], s[..j];
      var p := rest[..j - 1];
      assert AllSpace(p) by {
        forall i | 0 <= i < |p| ensures IsSpace(p[i]) {
          assert p[i] == front[i + 1];
        }
      }
      LeadingSpacesAt(rest, j - 1);
    }
  }

  /** `TrailingSpaces` counts back to the last non-whitespace character. */
  lemma {:induction false} TrailingSpacesAt(s: string, j: nat)
    requires j <= |s| && AllSpace(s[|s| - j..])
    requires j < |s| ==> !IsSpace(s[|s| - 1 - j])
    ensures TrailingSpaces(s) == j
  {
    if j > 0 {
      assert s[|s| - j..][j - 1] == s[|s| - 1];
      var s' := s[..|s| - 1];
      var back, p := s[|s| - j..], s'[|s'| - (j - 1)..];
      assert AllSpace(p) by {
        forall i | 0 <= i < |p| ensures IsSpace(p[i]) {
          assert p[i] == back[i];
        }
      }
      assert j - 1 < |s'| ==> s'[|s'| - 1 - (j - 1)] == s[|s| - 1 - j];
      TrailingSpacesAt(s', j - 1);
    }
  }

  /**
   * Strip is determined by its contract: whenever `s` is whitespace, then a middle part
   * with no whitespace at either end, then whitespace, the middle part is `s.strip()`.
   */
  lemma StripUnique(a: string, m: string, b: string)
    requires AllSpace(a) && AllSpace(b)
    requires m != [] ==> !IsSpace(m[0]) && !IsSpace(m[|m| - 1])
    ensures Strip(a + m + b) == m
  {
    var s := a + m + b;
    if m == [] {
      assert s == a + b;
      assert AllSpace(s) by {
        forall i | 0 <= i < |s| ensures IsSpace(s[i]) {
          if i < |a| { assert s[i] == a[i]; } else { assert s[i] == b[i - |a|]; }
        }
      }
      assert s[..|s|] == s;
      LeadingSpacesAt(s, |s|);
      assert s[|s|..] == [];
      TrailingSpacesAt([], 0);
    } else {
      assert s[..|a|] == a;
      assert s[|a|] == m[0];
      LeadingSpacesAt(s, |a|);
      var t := s[|a|..];
      assert t == m + b;
      assert t[|t| - |b|..] == b;
      assert t[|t| - 1 - |b|] == m[|m| - 1];
      TrailingSpacesAt(t, |b|);
      assert t[..|t| - |b|] == m;
    }
  }

  /** A string whose two halves are whitespace is whitespace. */
  lemma AllSpaceSplit(s: string, k: nat)
    requires k <= |s| && AllSpace(s[..k]) && AllSpace(s[k..])
    ensures AllSpace(s)
  {
    forall j | 0 <= j < |s| ensures IsSpace(s[j]) {
      if j < k { assert s[..k][j] == s[j]; } else { assert s[k..][j - k] == s[j]; }
    }
  }

  /** `strip()` returns the empty string exactly when its argument is all whitespace. */
  lemma StripEmptyIffAllSpace(s: string)
    ensures Strip(s) == "" <==> AllSpace(s)
  {
    if Strip(s) == "" {
      // what strip cuts off at each end is whitespace, and here it cuts off everything
      AllSpaceSplit(s, LeadingSpaces(s));
    }
    if AllSpace(s) {
      StripUnique(s, "", "");
      assert s + "" + "" == s;
    }
  }

  /** Stripping twice is stripping once. */
  lemma StripIdempotent(s: string)
    ensures Strip(Strip(s)) == Strip(s)
  {
    var m := Strip(s);
    StripUnique("", m, "");
    assert "" + m + "" == m;
  }

  /** `sep.join(parts)`. */
  function Join(sep: string, parts: seq<string>): string
  {
    if |parts| == 0 then ""
    else if |parts| == 1 then parts[0]
    else Join(sep, parts[..|parts| - 1]) + sep + parts[|parts| - 1]
  }

  function TotalLength(parts: seq<string>): nat
  {
    if |parts| == 0 then 0 else TotalLength(parts[..|parts| - 1]) + |parts[|parts| - 1]|
  }

  /** Joining two non-empty lists is joining each and putting one separator between. */
  lemma {:induction false} JoinConcat(sep: string, p: seq<string>, q: seq<string>)
    requires p != [] && q != []
    ensures Join(sep, p + q) == Join(sep, p) + sep + Join(sep, q)
  {
    if |q| == 1 {
      assert (p + q)[..|p + q| - 1] == p;
    } else {
      var q' := q[..|q| - 1];
      assert (p + q)[..|p + q| - 1] == p + q';
      JoinConcat(sep, p, q');
    }
  }

  /** The joined string holds every part and one separator between neighbours, nothing more. */
  lemma {:induction false} JoinLength(sep: string, parts: seq<string>)
    requires parts != []
    ensures |Join(sep, parts)| == TotalLength(parts) + (|parts| - 1) * |sep|
  {
    if |parts| > 1 {
      JoinLength(sep, parts[..|parts| - 1]);
      assert (|parts| - 2) * |sep| + |sep| == (|parts| - 1) * |sep|;
    }
  }

  /** The first part comes first in the joined string. */
  lemma {:induction false} JoinStartsWithFirst(sep: string, parts: seq<string>)
    requires parts != []
    ensures |parts[0]| <= |Join(sep, parts)|
    ensures Join(sep, parts)[..|parts[0]|] == parts[0]
  {
    if |parts| > 1 {
      JoinConcat(sep, parts[..1], parts[1..]);
      assert parts[..1] + parts[1..] == parts;
    }
  }
}
