/** Go string helpers used throughout the kernel: strings.TrimSpace, strings.HasPrefix and the
    ordering of sort.Strings.  Strings are sequences of code points. */
module Text {

  /** unicode.IsSpace. */
  predicate IsSpace(c: char) {
    var n := c as int;
    || 0x09 <= n <= 0x0D || n == 0x20 || n == 0x85 || n == 0xA0 || n == 0x1680
    || 0x2000 <= n <= 0x200A || n == 0x2028 || n == 0x2029 || n == 0x202F || n == 0x205F || n == 0x3000
  }

  function SkipLeft(s: string, lo: nat): (r: nat)
    requires lo <= |s|
    ensures lo <= r <= |s|
    decreases |s| - lo
  {
    if lo < |s| && IsSpace(s[lo]) then SkipLeft(s, lo + 1) else lo
  }

  function SkipRight(s: string, lo: nat, hi: nat): (r: nat)
    requires lo <= hi <= |s|
    ensures lo <= r <= hi
  {
    if lo < hi && IsSpace(s[hi - 1]) then SkipRight(s, lo, hi - 1) else hi
  }

  /** strings.TrimSpace. */
  function TrimSpace(s: string): string {
    var lo := SkipLeft(s, 0);
    s[lo..SkipRight(s, lo, |s|)]
  }

  /** A string that strings.TrimSpace leaves alone. */
  predicate Trimmed(s: string) {
    s == "" || (!IsSpace(s[0]) && !IsSpace(s[|s| - 1]))
  }

  lemma SkipLeftStops(s: string, lo: nat)
    requires lo <= |s|
    ensures SkipLeft(s, lo) < |s| ==> !IsSpace(s[SkipLeft(s, lo)])
    decreases |s| - lo
  {
    if lo < |s| && IsSpace(s[lo]) { SkipLeftStops(s, lo + 1); }
  }

  lemma SkipRightStops(s: string, lo: nat, hi: nat)
    requires lo <= hi <= |s|
    ensures lo < SkipRight(s, lo, hi) ==> !IsSpace(s[SkipRight(s, lo, hi) - 1])
  {
    if lo < hi && IsSpace(s[hi - 1]) { SkipRightStops(s, lo, hi - 1); }
  }

  lemma TrimSpaceTrimmed(s: string)
    ensures Trimmed(TrimSpace(s))
  {
    var lo := SkipLeft(s, 0);
    SkipLeftStops(s, 0);
    SkipRightStops(s, lo, |s|);
  }

  lemma TrimSpaceFixpoint(s: string)
    requires Trimmed(s)
    ensures TrimSpace(s) == s
  {}

  /** Trimming takes away spaces at both ends, all of them, and nothing else. */
  lemma TrimSpaceCuts(s: string) returns (lead: string, trail: string)
    ensures s == lead + TrimSpace(s) + trail && Trimmed(TrimSpace(s))
    ensures forall i :: 0 <= i < |lead| ==> IsSpace(lead[i])
    ensures forall i :: 0 <= i < |trail| ==> IsSpace(trail[i])
  {
    TrimSpaceTrimmed(s);
    var lo := SkipLeft(s, 0);
    var hi := SkipRight(s, lo, |s|);
    lead, trail := s[..lo], s[hi..];
    SkippedLeft(s, 0);
    SkippedRight(s, lo, |s|);
  }

  lemma SkippedLeft(s: string, lo: nat)
    requires lo <= |s|
    ensures forall i :: lo <= i < SkipLeft(s, lo) ==> IsSpace(s[i])
    decreases |s| - lo
  {
    if lo < |s| && IsSpace(s[lo]) { SkippedLeft(s, lo + 1); }
  }

  lemma SkippedRight(s: string, lo: nat, hi: nat)
    requires lo <= hi <= |s|
    ensures forall i :: SkipRight(s, lo, hi) <= i < hi ==> IsSpace(s[i])
  {
    if lo < hi && IsSpace(s[hi - 1]) { SkippedRight(s, lo, hi - 1); }
  }

  /** Trimming twice is trimming once. */
  lemma TrimSpaceIdempotent(s: string)
    ensures TrimSpace(TrimSpace(s)) == TrimSpace(s)
  {
    TrimSpaceTrimmed(s);
    TrimSpaceFixpoint(TrimSpace(s));
  }

  predicate Blank(s: string) {
    TrimSpace(s) == ""
  }

  /** The order of sort.Strings: byte order of UTF-8, which is code point order. */
  predicate StringLe(a: string, b: string) {
    if a == "" then true
    else if b == "" then false
    else if a[0] != b[0] then a[0] < b[0]
    else StringLe(a[1..], b[1..])
  }

  lemma StringLeTotal(a: string, b: string)
    ensures StringLe(a, b) || StringLe(b, a)
    ensures StringLe(a, b) && StringLe(b, a) ==> a == b
  {
    if a != "" && b != "" && a[0] == b[0] {
      StringLeTotal(a[1..], b[1..]);
      assert a == [a[0]] + a[1..] && b == [b[0]] + b[1..];
    }
  }

  lemma StringLeTransitive(a: string, b: string, c: string)
    requires StringLe(a, b) && StringLe(b, c)
    ensures StringLe(a, c)
  {
    if a != "" && b != "" && c != "" && a[0] == b[0] == c[0] {
      StringLeTransitive(a[1..], b[1..], c[1..]);
    }
  }

  /** It is the lexicographic order: a is a beginning of b, or smaller at the first place where they differ. */
  lemma {:induction false} StringLeIff(a: string, b: string)
    ensures StringLe(a, b)
        <==> a <= b || exists k :: 0 <= k < |a| && k < |b| && a[..k] == b[..k] && a[k] < b[k]
    decreases |a|
  {
    if a != "" && b != "" && a[0] == b[0] {
      var s, t := a[1..], b[1..];
      StringLeIff(s, t);
      assert a == [a[0]] + s && b == [a[0]] + t;
      if k :| 0 <= k < |s| && k < |t| && s[..k] == t[..k] && s[k] < t[k] {
        assert a[..k + 1] == [a[0]] + s[..k] && b[..k + 1] == [a[0]] + t[..k];
        assert a[k + 1] < b[k + 1];
      }
      if k :| 0 <= k < |a| && k < |b| && a[..k] == b[..k] && a[k] < b[k] {
        assert k > 0;
        assert s[..k - 1] == a[..k][1..] && t[..k - 1] == b[..k][1..];
        assert s[k - 1] < t[k - 1];
      }
    } else if a != "" && b != "" {
      assert a[..0] == b[..0];
      if k :| 0 <= k < |a| && k < |b| && a[..k] == b[..k] && a[k] < b[k] {
        assert k > 0 ==> a[..k][0] == b[..k][0];
      }
    }
  }
}
