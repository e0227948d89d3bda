/** The part of Go's `strings` and `strconv` packages that the retry
    classifier and the command-line front end rely on, over `seq<char>`.
    Go strings are byte strings; here a string is a sequence of Unicode
    scalar values, which is the same thing for the ASCII texts involved. */
module GoStrings {

  datatype Option<+T> = None | Some(value: T)

  // ---------------------------------------------------------------------
  // Substring search (strings.Contains)
  // ---------------------------------------------------------------------

  /** `p` occurs in `s` starting at index `i`. */
  predicate MatchAt(s: string, p: string, i: nat) {
    i + |p| <= |s| && s[i..i + |p|] == p
  }

  /** strings.Contains(s, p): some index of `s` starts an occurrence of `p`. */
  predicate Contains(s: string, p: string) {
    exists i :: 0 <= i <= |s| - |p| && MatchAt(s, p, i)
  }

  /** An occurrence placed between two arbitrary strings is found. */
  lemma ContainsInfix(a: string, p: string, b: string)
    ensures Contains(a + p + b, p)
  {
    assert (a + p + b)[|a|..|a| + |p|] == p;
    assert MatchAt(a + p + b, p, |a|);
  }

  /** A prefix that does not contain the pattern's first character cannot
      start an occurrence, so it neither creates nor hides one. */
  lemma ContainsAfterFreePrefix(a: string, b: string, p: string)
    requires |p| > 0 && p[0] !in a
    ensures Contains(a + b, p) <==> Contains(b, p)
  {
    if Contains(a + b, p) {
      var i :| 0 <= i <= |a + b| - |p| && MatchAt(a + b, p, i);
      assert (a + b)[i] == p[0];
      assert i >= |a|;
      assert (a + b)[i..i + |p|] == b[i - |a|..i - |a| + |p|];
      assert MatchAt(b, p, i - |a|);
    }
    if Contains(b, p) {
      var i :| 0 <= i <= |b| - |p| && MatchAt(b, p, i);
      assert (a + b)[|a| + i..|a| + i + |p|] == b[i..i + |p|];
      assert MatchAt(a + b, p, |a| + i);
    }
  }

  /** A first character that disagrees with the pattern at offset `j`
      starts no occurrence, so the search may skip it. */
  lemma ContainsSkipHead(s: string, p: string, j: nat)
    requires 0 < |s| && j < |p| && j < |s| && s[j] != p[j]
    ensures Contains(s, p) <==> Contains(s[1..], p)
  {
    if Contains(s, p) {
      var i :| 0 <= i <= |s| - |p| && MatchAt(s, p, i);
      assert s[i..i + |p|][j] == s[i + j];
      assert i != 0;
      assert s[1..][i - 1..i - 1 + |p|] == p by {
        forall t | 0 <= t < |p| ensures s[1..][i - 1..i - 1 + |p|][t] == p[t] {
          assert s[1..][i - 1 + t] == s[i + t] == s[i..i + |p|][t];
        }
      }
      assert MatchAt(s[1..], p, i - 1);
    }
    if Contains(s[1..], p) {
      var i :| 0 <= i <= |s[1..]| - |p| && MatchAt(s[1..], p, i);
      assert s[1..][i..i + |p|] == s[i + 1..i + 1 + |p|];
      assert MatchAt(s, p, i + 1);
    }
  }

  /** A pattern with a character that the text lacks does not occur in it. */
  lemma NotContainsMissingChar(s: string, p: string, k: nat)
    requires k < |p| && p[k] !in s
    ensures !Contains(s, p)
  {
  }

  /** An occurrence inside a middle part is an occurrence in the whole. */
  lemma ContainsWithin(a: string, b: string, c: string, p: string)
    requires Contains(b, p)
    ensures Contains(a + b + c, p)
  {
    var j :| 0 <= j <= |b| - |p| && MatchAt(b, p, j);
    var s := a + b + c;
    forall t | 0 <= t < |p|
      ensures s[|a| + j + t] == p[t]
    {
      assert s[|a| + j + t] == b[j + t];
    }
    assert s[|a| + j..|a| + j + |p|] == p;
    assert MatchAt(s, p, |a| + j);
  }

  /** A two-character pattern absent from both halves is absent from their
      concatenation unless it straddles the seam. */
  lemma NoPairAcross(a: string, b: string, p: string)
    requires |p| == 2 && !Contains(a, p) && !Contains(b, p)
    requires a == [] || b == [] || a[|a| - 1] != p[0] || b[0] != p[1]
    ensures !Contains(a + b, p)
  {
    if Contains(a + b, p) {
      var s := a + b;
      var i :| 0 <= i <= |s| - |p| && MatchAt(s, p, i);
      assert s[i] == p[0] && s[i + 1] == p[1];
      if i + 2 <= |a| {
        assert a[i..i + 2] == s[i..i + 2];
        assert MatchAt(a, p, i);
      } else if i >= |a| {
        assert b[i - |a|..i - |a| + 2] == s[i..i + 2];
        assert MatchAt(b, p, i - |a|);
      }
    }
  }

  /** Every piece of an occurring pattern occurs too. */
  lemma ContainsPiece(s: string, p: string, lo: nat, hi: nat)
    requires lo <= hi <= |p|
    ensures Contains(s, p) ==> Contains(s, p[lo..hi])
  {
    if Contains(s, p) {
      var i :| 0 <= i <= |s| - |p| && MatchAt(s, p, i);
      forall t | 0 <= t < hi - lo ensures s[i + lo..i + hi][t] == p[lo..hi][t] {
        assert s[i + lo + t] == s[i..i + |p|][lo + t];
      }
      assert MatchAt(s, p[lo..hi], i + lo);
    }
  }

  // ---------------------------------------------------------------------
  // strings.ToLower, restricted to ASCII letters
  // ---------------------------------------------------------------------

  predicate IsUpperAscii(c: char) { 'A' <= c <= 'Z' }

  function LowerChar(c: char): (r: char)
    ensures !IsUpperAscii(r)
  {
    if IsUpperAscii(c) then (c as int + 32) as char else c
  }

  function ToLower(s: string): (r: string)
    ensures |r| == |s|
  {
    seq(|s|, i requires 0 <= i < |s| => LowerChar(s[i]))
  }

  /** Lower-casing leaves no upper-case ASCII letter, changes only those,
      and so is idempotent and the identity on lower-case text. */
  lemma ToLowerSpec(s: string)
    ensures forall i :: 0 <= i < |s| ==> !IsUpperAscii(ToLower(s)[i])
    ensures forall i :: 0 <= i < |s| && !IsUpperAscii(s[i]) ==> ToLower(s)[i] == s[i]
    ensures ToLower(ToLower(s)) == ToLower(s)
    ensures (forall i :: 0 <= i < |s| ==> !IsUpperAscii(s[i])) ==> ToLower(s) == s
    ensures forall i :: 0 <= i < |s| && IsUpperAscii(s[i]) ==> ToLower(s)[i] as int == s[i] as int + 32
  {
  }

  /** `a` spells `lower` with any of its letters in upper case: each
      character is the same, or the upper-case form of the letter
      ('A'..'Z' sit 32 code points below 'a'..'z'). */
  predicate CaseVariant(a: string, lower: string) {
    && |a| == |lower|
    && forall i :: 0 <= i < |a| ==>
         a[i] == lower[i] || (IsUpperAscii(a[i]) && a[i] as int + 32 == lower[i] as int)
  }

  /** Lower-casing gives a text free of upper-case letters exactly for its
      case variants. */
  lemma ToLowerMatches(a: string, lower: string)
    requires forall i :: 0 <= i < |lower| ==> !IsUpperAscii(lower[i])
    ensures ToLower(a) == lower <==> CaseVariant(a, lower)
  {
    if CaseVariant(a, lower) {
      forall i | 0 <= i < |a|
        ensures ToLower(a)[i] == lower[i]
      {
        if a[i] == lower[i] {
          assert !IsUpperAscii(a[i]);
        }
      }
    }
  }

  // ---------------------------------------------------------------------
  // strings.SplitN(s, sep, 2) for a one-character separator
  // ---------------------------------------------------------------------

  /** The index of the first `c` in `s`, if any. */
  function IndexOfChar(s: string, c: char): (r: Option<nat>)
    ensures r.None? <==> c !in s
    ensures r.Some? ==> r.value < |s| && s[r.value] == c && c !in s[..r.value]
  {
    if s == [] then None
    else if s[0] == c then Some(0)
    else
      match IndexOfChar(s[1..], c)
      case None => None
      case Some(k) =>
        assert s[..k + 1] == [s[0]] + s[1..][..k];
        Some(k + 1)
  }

  /** strings.SplitN(s, [sep], 2): the text before the first `sep` and the
      text after it, or None when `sep` does not occur (SplitN then returns
      a single part). */
  function SplitFirst(s: string, sep: char): Option<(string, string)> {
    match IndexOfChar(s, sep)
    case None => None
    case Some(k) => Some((s[..k], s[k + 1..]))
  }

  /** Splitting at the first separator loses nothing: the parts put back
      together with the separator give the input, the head holds no
      separator, and only a separator-free input fails to split. */
  lemma SplitFirstSpec(s: string, sep: char)
    ensures SplitFirst(s, sep).None? <==> sep !in s
    ensures SplitFirst(s, sep).Some? ==>
              var (head, tail) := SplitFirst(s, sep).value;
              head + [sep] + tail == s && sep !in head
  {
    if SplitFirst(s, sep).Some? {
      var k := IndexOfChar(s, sep).value;
      assert s == s[..k] + [s[k]] + s[k + 1..];
    }
  }

  /** Joining with the separator inverts the split. */
  lemma SplitFirstJoin(head: string, tail: string, sep: char)
    requires sep !in head
    ensures SplitFirst(head + [sep] + tail, sep) == Some((head, tail))
  {
    var s := head + [sep] + tail;
    assert s[|head|] == sep;
    assert s[..|head|] == head;
    var k := IndexOfChar(s, sep).value;
    assert s[|head| + 1..] == tail;
  }

  // ---------------------------------------------------------------------
  // strings.Join
  // ---------------------------------------------------------------------

  function Join(parts: seq<string>, sep: string): string {
    if |parts| == 0 then ""
    else if |parts| == 1 then parts[0]
    else parts[0] + sep + Join(parts[1..], sep)
  }

  /** The summed length of the parts. */
  function TotalLength(parts: seq<string>): nat {
    if parts == [] then 0 else |parts[0]| + TotalLength(parts[1..])
  }

  /** Where part `k` begins in a join: after the `k` earlier parts, each
      followed by one separator. */
  function PartStart(parts: seq<string>, sep: string, k: nat): nat
    requires k <= |parts|
  {
    TotalLength(parts[..k]) + k * |sep|
  }

  /** Dropping the first part moves every later part's start back by that
      part and one separator. */
  lemma PartStartShift(parts: seq<string>, sep: string, k: nat)
    requires 1 <= k <= |parts|
    ensures PartStart(parts, sep, k) == |parts[0]| + |sep| + PartStart(parts[1..], sep, k - 1)
  {
    assert parts[..k][1..] == parts[1..][..k - 1];
    assert k * |sep| == |sep| + (k - 1) * |sep|;
  }

  /** The parts before `k + 1` are those before `k`, then part `k`. */
  lemma {:induction false} TotalLengthSnoc(parts: seq<string>, k: nat)
    requires k < |parts|
    ensures TotalLength(parts[..k + 1]) == TotalLength(parts[..k]) + |parts[k]|
  {
    if k == 0 {
      assert parts[..1][1..] == [];
      assert parts[..0] == [];
    } else {
      TotalLengthSnoc(parts[1..], k - 1);
      assert parts[..k + 1][1..] == parts[1..][..k];
      assert parts[..k][1..] == parts[1..][..k - 1];
    }
  }

  /** Part `k + 1` begins one separator after part `k` ends. */
  lemma PartStartNext(parts: seq<string>, sep: string, k: nat)
    requires k < |parts|
    ensures PartStart(parts, sep, k + 1) == PartStart(parts, sep, k) + |parts[k]| + |sep|
  {
    TotalLengthSnoc(parts, k);
    assert (k + 1) * |sep| == k * |sep| + |sep|;
  }

  /** A join is as long as its parts plus one separator between each two. */
  lemma {:induction false} JoinLength(parts: seq<string>, sep: string)
    requires parts != []
    ensures |Join(parts, sep)| == TotalLength(parts) + (|parts| - 1) * |sep|
  {
    if |parts| == 1 {
      assert parts[1..] == [];
    } else {
      JoinLength(parts[1..], sep);
      assert (|parts| - 1) * |sep| == |sep| + (|parts| - 2) * |sep|;
    }
  }

  /** `s` is made of the parts in order, each but the last followed by
      `sep`, and of nothing else. */
  predicate JoinedFrom(s: string, parts: seq<string>, sep: string) {
    && parts != []
    && |s| == TotalLength(parts) + (|parts| - 1) * |sep|
    && (forall k :: 0 <= k < |parts| ==>
          && PartStart(parts, sep, k) + |parts[k]| <= |s|
          && s[PartStart(parts, sep, k)..PartStart(parts, sep, k) + |parts[k]|] == parts[k])
    && (forall k :: 0 <= k < |parts| - 1 ==>
          && PartStart(parts, sep, k + 1) == PartStart(parts, sep, k) + |parts[k]| + |sep|
          && s[PartStart(parts, sep, k) + |parts[k]|..PartStart(parts, sep, k + 1)] == sep)
  }

  /** Part `k` of a join sits at its start. */
  lemma {:induction false} JoinPartAt(parts: seq<string>, sep: string, k: nat)
    requires k < |parts|
    ensures var o := PartStart(parts, sep, k);
            o + |parts[k]| <= |Join(parts, sep)| && Join(parts, sep)[o..o + |parts[k]|] == parts[k]
  {
    if k == 0 {
      assert parts[..0] == [];
      if |parts| > 1 {
        assert Join(parts, sep) == parts[0] + sep + Join(parts[1..], sep);
      }
    } else {
      var rest := parts[1..];
      var jr := Join(rest, sep);
      var shift := |parts[0]| + |sep|;
      JoinPartAt(rest, sep, k - 1);
      PartStartShift(parts, sep, k);
      assert Join(parts, sep) == parts[0] + sep + jr;
      var o := PartStart(rest, sep, k - 1);
      assert parts[k] == rest[k - 1];
      assert Join(parts, sep)[shift + o..shift + o + |parts[k]|] == jr[o..o + |parts[k]|];
    }
  }

  /** Every part of a join but the last is followed by the separator. */
  lemma {:induction false} JoinSepAt(parts: seq<string>, sep: string, k: nat)
    requires k < |parts| - 1
    ensures var e := PartStart(parts, sep, k) + |parts[k]|;
            e + |sep| <= |Join(parts, sep)| && Join(parts, sep)[e..e + |sep|] == sep
  {
    var rest := parts[1..];
    var jr := Join(rest, sep);
    var shift := |parts[0]| + |sep|;
    assert Join(parts, sep) == parts[0] + sep + jr;
    if k == 0 {
      assert parts[..0] == [];
    } else {
      JoinSepAt(rest, sep, k - 1);
      PartStartShift(parts, sep, k);
      var e := PartStart(rest, sep, k - 1) + |rest[k - 1]|;
      assert parts[k] == rest[k - 1];
      assert Join(parts, sep)[shift + e..shift + e + |sep|] == jr[e..e + |sep|];
    }
  }

  /** A join of at least one part is laid out as its parts and separators. */
  lemma JoinLayout(parts: seq<string>, sep: string)
    requires parts != []
    ensures JoinedFrom(Join(parts, sep), parts, sep)
  {
    var j := Join(parts, sep);
    JoinLength(parts, sep);
    forall k | 0 <= k < |parts|
      ensures && PartStart(parts, sep, k) + |parts[k]| <= |j|
              && j[PartStart(parts, sep, k)..PartStart(parts, sep, k) + |parts[k]|] == parts[k]
    {
      JoinPartAt(parts, sep, k);
    }
    forall k | 0 <= k < |parts| - 1
      ensures && PartStart(parts, sep, k + 1) == PartStart(parts, sep, k) + |parts[k]| + |sep|
              && j[PartStart(parts, sep, k) + |parts[k]|..PartStart(parts, sep, k + 1)] == sep
    {
      JoinSepAt(parts, sep, k);
      PartStartNext(parts, sep, k);
    }
  }

  // ---------------------------------------------------------------------
  // strings.TrimSpace (unicode.IsSpace)
  // ---------------------------------------------------------------------

  /** unicode.IsSpace: the Latin-1 spaces and the other White_Space code points. */
  predicate IsSpace(c: char) {
    c == ' ' || c == '\t' || c == '\n' || c == '\r' || c == '\U{000B}' || c == '\U{000C}'
    || c == '\U{0085}' || c == '\U{00A0}' || c == '\U{1680}'
    || ('\U{2000}' <= c <= '\U{200A}') || c == '\U{2028}' || c == '\U{2029}'
    || c == '\U{202F}' || c == '\U{205F}' || c == '\U{3000}'
  }

  predicate AllSpace(s: string) {
    forall i :: 0 <= i < |s| ==> IsSpace(s[i])
  }

  /** Drops leading white space. */
  function TrimLeft(s: string): (r: string)
    ensures |r| <= |s| && r == s[|s| - |r|..] && AllSpace(s[..|s| - |r|])
    ensures r == [] || !IsSpace(r[0])
  {
    if s == [] || !IsSpace(s[0]) then s
    else
      var r := TrimLeft(s[1..]);
      var k := |s| - |r|;
      assert s[1..][|s[1..]| - |r|..] == s[k..];
      assert forall i :: 1 <= i < k ==> s[i] == s[1..][..|s[1..]| - |r|][i - 1];
      assert AllSpace(s[..k]);
      r
  }

  /** Drops trailing white space. */
  function TrimRight(s: string): (r: string)
    ensures |r| <= |s| && r == s[..|r|] && AllSpace(s[|r|..])
    ensures r == [] || !IsSpace(r[|r| - 1])
  {
    if s == [] || !IsSpace(s[|s| - 1]) then s
    else
      var r := TrimRight(s[..|s| - 1]);
      assert s[..|s| - 1][|r|..] == s[|r|..|s| - 1];
      r
  }

  /** strings.TrimSpace */
  function TrimSpace(s: string): string {
    TrimRight(TrimLeft(s))
  }

  /** TrimSpace yields the empty string exactly for all-space input. */
  lemma TrimSpaceEmpty(s: string)
    ensures TrimSpace(s) == "" <==> AllSpace(s)
  {
    var l := TrimLeft(s);
    if TrimSpace(s) == "" {
      // TrimRight left nothing, so `l` is all space; TrimLeft left no
      // leading space, so `l` is empty and TrimLeft dropped all of `s`.
      assert AllSpace(l[0..]) && l[0..] == l;
      assert l == [];
      assert s[..|s| - |l|] == s;
    } else {
      var r := TrimSpace(s);
      assert r[0] == l[0];
      assert l[0] == s[|s| - |l|];
    }
  }

  /** Joined white-space parts stay white space, and a part that is not all
      white space shows through the join. */
  lemma {:induction false} JoinAllSpace(parts: seq<string>, sep: string)
    requires AllSpace(sep)
    ensures AllSpace(Join(parts, sep)) <==> forall k :: 0 <= k < |parts| ==> AllSpace(parts[k])
  {
    if |parts| > 1 {
      JoinAllSpace(parts[1..], sep);
      var rest := Join(parts[1..], sep);
      var j := parts[0] + sep + rest;
      assert Join(parts, sep) == j;
      if AllSpace(j) {
        assert AllSpace(parts[0]) by {
          forall i | 0 <= i < |parts[0]| ensures IsSpace(parts[0][i]) { assert j[i] == parts[0][i]; }
        }
        assert AllSpace(rest) by {
          forall i | 0 <= i < |rest| ensures IsSpace(rest[i]) {
            assert j[|parts[0]| + |sep| + i] == rest[i];
          }
        }
        forall k | 0 <= k < |parts| ensures AllSpace(parts[k]) {
          if k > 0 { assert parts[k] == parts[1..][k - 1]; }
        }
      }
      if forall k :: 0 <= k < |parts| ==> AllSpace(parts[k]) {
        assert AllSpace(parts[0]);
        assert forall k :: 0 <= k < |parts[1..]| ==> AllSpace(parts[1..][k]) by {
          forall k | 0 <= k < |parts[1..]| ensures AllSpace(parts[1..][k]) {
            assert parts[1..][k] == parts[k + 1];
          }
        }
        forall i | 0 <= i < |j| ensures IsSpace(j[i]) {
          if i < |parts[0]| {
            assert j[i] == parts[0][i];
          } else if i < |parts[0]| + |sep| {
            assert j[i] == sep[i - |parts[0]|];
          } else {
            assert j[i] == rest[i - |parts[0]| - |sep|];
          }
        }
      }
    }
  }

  // ---------------------------------------------------------------------
  // Decimal rendering (strconv.Itoa, fmt's %d)
  // ---------------------------------------------------------------------

  predicate IsDigit(c: char) { '0' <= c <= '9' }

  function DigitChar(d: nat): (c: char)
    requires d < 10
    ensures IsDigit(c)
  {
    ('0' as int + d) as char
  }

  /** The decimal digits of `n`, most significant first, without leading zeros. */
  function NatToDecimal(n: nat): (r: string)
    ensures |r| >= 1
    ensures forall i :: 0 <= i < |r| ==> IsDigit(r[i])
    ensures n >= 10 ==> r[0] != '0'
  {
    if n < 10 then [DigitChar(n)] else NatToDecimal(n / 10) + [DigitChar(n % 10)]
  }

  /** fmt's %d of a Go int: a minus sign before the magnitude when negative. */
  function IntToDecimal(n: int): (r: string)
    ensures |r| >= 1
    ensures forall i :: 0 <= i < |r| ==> IsDigit(r[i]) || r[i] == '-'
    ensures r[0] == '-' <==> n < 0
  {
    if n < 0 then "-" + NatToDecimal(-n) else NatToDecimal(n)
  }

  /** The value of a string of decimal digits (the inverse of NatToDecimal). */
  function DecimalValue(s: string): nat
    requires forall i :: 0 <= i < |s| ==> IsDigit(s[i])
  {
    if s == [] then 0
    else
      assert IsDigit(s[|s| - 1]);
      10 * DecimalValue(s[..|s| - 1]) + (s[|s| - 1] as int - '0' as int)
  }

  /** Reading back the rendered digits gives the number. */
  lemma {:induction false} DecimalRoundTrip(n: nat)
    ensures DecimalValue(NatToDecimal(n)) == n
  {
    if n >= 10 {
      DecimalRoundTrip(n / 10);
      var r := NatToDecimal(n);
      assert r[..|r| - 1] == NatToDecimal(n / 10);
    }
  }

  /** The first character printed for a three-digit number is its hundreds digit. */
  lemma ThreeDigitLead(n: nat)
    requires 100 <= n < 1000
    ensures NatToDecimal(n)[0] == DigitChar(n / 100)
  {
    assert NatToDecimal(n / 10)[0] == NatToDecimal(n / 100)[0];
    assert n / 10 / 10 == n / 100;
  }
}
