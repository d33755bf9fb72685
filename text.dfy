/**
 * String helpers shared by the whole model. Strings are `seq<char>`; every
 * regular expression of the source is written out as a predicate or function
 * for its own pattern in the module that uses it, and the character classes
 * those patterns share (`\s`, `\d`, `\w`, `\b`, `.`) are defined here once.
 */
module Text {

  /** JavaScript's `\s` class; `String.prototype.trim` removes the same characters. */
  predicate IsSpace(c: char) {
    || c == ' ' || c == '\t' || c == '\n' || c == '\r' || c == '\U{B}' || c == '\U{C}'
    || c == '\U{A0}' || c == '\U{1680}' || ('\U{2000}' <= c <= '\U{200A}')
    || c == '\U{2028}' || c == '\U{2029}' || c == '\U{202F}' || c == '\U{205F}'
    || c == '\U{3000}' || c == '\U{FEFF}'
  }

  /** The characters a regular-expression `.` does not match. */
  predicate IsLineTerminator(c: char) {
    c == '\n' || c == '\r' || c == '\U{2028}' || c == '\U{2029}'
  }

  predicate IsDigit(c: char) { '0' <= c <= '9' }

  predicate IsUpper(c: char) { 'A' <= c <= 'Z' }

  predicate IsLower(c: char) { 'a' <= c <= 'z' }

  /** JavaScript's `\w`, that is `[A-Za-z0-9_]`. */
  predicate IsWordChar(c: char) { IsUpper(c) || IsLower(c) || IsDigit(c) || c == '_' }

  /** `\b` holds at position `i` of `s`. */
  predicate IsBoundary(s: string, i: int)
    requires 0 <= i <= |s|
  {
    (i > 0 && IsWordChar(s[i - 1])) != (i < |s| && IsWordChar(s[i]))
  }

  /** JavaScript's `a || b` on strings: `a` unless it is empty. */
  function Or(a: string, b: string): string {
    if a != "" then a else b
  }

  predicate NoSpace(s: string) {
    forall i :: 0 <= i < |s| ==> !IsSpace(s[i])
  }

  predicate AllDigits(s: string) {
    forall i :: 0 <= i < |s| ==> IsDigit(s[i])
  }

  predicate StartsWith(s: string, prefix: string) {
    |prefix| <= |s| && s[..|prefix|] == prefix
  }

  /** `s.includes(p)`. */
  predicate Contains(s: string, p: string)
    decreases |s|
  {
    StartsWith(s, p) || (|s| > 0 && Contains(s[1..], p))
  }

  lemma {:induction false} ContainsAt(s: string, p: string, i: nat)
    requires i + |p| <= |s| && s[i..i + |p|] == p
    ensures Contains(s, p)
  {
    if i > 0 {
      assert s[1..][i - 1..i - 1 + |p|] == p;
      ContainsAt(s[1..], p, i - 1);
    } else {
      assert s[..|p|] == p;
    }
  }

  lemma {:induction false} ContainsWitness(s: string, p: string) returns (i: nat)
    requires Contains(s, p)
    ensures i + |p| <= |s| && s[i..i + |p|] == p
    decreases |s|
  {
    if StartsWith(s, p) {
      i := 0;
    } else {
      var j := ContainsWitness(s[1..], p);
      assert s[1..][j..j + |p|] == s[j + 1..j + 1 + |p|];
      i := j + 1;
    }
  }

  /** A string without `c` does not contain any text that starts with `c`. */
  lemma {:induction false} ContainsNotWithout(s: string, p: string)
    requires |p| > 0 && p[0] !in s
    ensures !Contains(s, p)
    decreases |s|
  {
    if |s| > 0 {
      assert s[0] in s;
      assert forall c :: c in s[1..] ==> c in s;
      ContainsNotWithout(s[1..], p);
    }
  }

  /** Lower-cases ASCII and the Cyrillic block U+0400..U+042F; other characters are kept. */
  function LowerChar(c: char): (l: char)
    ensures !IsUpper(l)
    ensures IsWordChar(c) <==> IsWordChar(l)
    ensures IsSpace(c) <==> IsSpace(l)
  {
    if 'A' <= c <= 'Z' then (c as int + 32) as char
    else if '\U{410}' <= c <= '\U{42F}' then (c as int + 32) as char
    else if '\U{400}' <= c <= '\U{40F}' then (c as int + 80) as char
    else c
  }

  /** `s.toLowerCase()`, within the repertoire of `LowerChar`. */
  function ToLower(s: string): (r: string)
    ensures |r| == |s|
    ensures forall i :: 0 <= i < |s| ==> r[i] == LowerChar(s[i])
  {
    seq(|s|, i requires 0 <= i < |s| => LowerChar(s[i]))
  }

  function TrimStart(s: string): (r: string)
    ensures |r| <= |s| && r == s[|s| - |r|..]
    ensures r == [] || !IsSpace(r[0])
    ensures forall i :: 0 <= i < |s| - |r| ==> IsSpace(s[i])
  {
    if s != [] && IsSpace(s[0]) then TrimStart(s[1..]) else s
  }

  function TrimEnd(s: string): (r: string)
    ensures |r| <= |s| && r == s[..|r|]
    ensures r == [] || !IsSpace(r[|r| - 1])
    ensures forall i :: |r| <= i < |s| ==> IsSpace(s[i])
  {
    if s != [] && IsSpace(s[|s| - 1]) then TrimEnd(s[..|s| - 1]) else s
  }

  /** `s.trim()`: `s` without its leading and trailing white space. */
  function Trim(s: string): (r: string)
    ensures |r| <= |s|
    ensures r == [] || (!IsSpace(r[0]) && !IsSpace(r[|r| - 1]))
  {
    TrimEnd(TrimStart(s))
  }

  /** `r` occurs in `s` at position `k`. */
  predicate InfixAt(s: string, r: string, k: int) {
    0 <= k <= |s| - |r| && s[k..k + |r|] == r
  }

  /** An infix of a prefix of `s` is an infix of `s` at the same place. */
  lemma InfixOfPrefix(s: string, p: string, r: string, k: int)
    requires |p| <= |s| && p == s[..|p|] && InfixAt(p, r, k)
    ensures InfixAt(s, r, k)
  {
    assert s[k..k + |r|] == p[k..k + |r|];
  }

  /** The trimmed text is the infix of `s` left after dropping white space at both ends. */
  lemma TrimInfix(s: string) returns (k: nat)
    ensures InfixAt(s, Trim(s), k)
    ensures forall i :: 0 <= i < k ==> IsSpace(s[i])
    ensures forall i :: k + |Trim(s)| <= i < |s| ==> IsSpace(s[i])
  {
    var t := TrimStart(s);
    var r := TrimEnd(t);
    k := |s| - |t|;
    assert r == Trim(s);
    assert forall i :: 0 <= i < k ==> IsSpace(s[i]);
    assert InfixAt(s, r, k) by {
      assert t == s[k..] && r == t[..|r|];
      assert s[k..k + |r|] == s[k..][..|r|];
    }
    assert forall i :: k + |r| <= i < |s| ==> IsSpace(s[i]) by {
      forall i | k + |r| <= i < |s|
        ensures IsSpace(s[i])
      {
        assert t == s[k..];
        assert s[i] == t[i - k];
      }
    }
  }

  /** Trimming adds no character: one missing from `s` is missing from its trim. */
  lemma TrimKeepsOut(s: string, c: char)
    requires c !in s
    ensures c !in Trim(s)
  {
    var k := TrimInfix(s);
    forall j | 0 <= j < |Trim(s)| ensures Trim(s)[j] != c {
      assert Trim(s)[j] == s[k + j];
    }
  }

  /** A string that already neither starts nor ends with white space is its own trim. */
  lemma TrimUnchanged(s: string)
    requires s == [] || (!IsSpace(s[0]) && !IsSpace(s[|s| - 1]))
    ensures Trim(s) == s
  {
  }

  lemma TrimIdempotent(s: string)
    ensures Trim(Trim(s)) == Trim(s)
  {
    TrimUnchanged(Trim(s));
  }

  /** Trimming leaves no white space when there was none to begin with. */
  lemma TrimNoSpace(s: string)
    requires NoSpace(s)
    ensures Trim(s) == s
  {
  }

  /** `s.split(sep)` for a one-character separator: always at least one piece. */
  function Split(s: string, sep: char): (parts: seq<string>)
    ensures |parts| >= 1
    decreases |s|
  {
    if s == [] then [""]
    else
      var rest := Split(s[1..], sep);
      if s[0] == sep then [""] + rest else [[s[0]] + rest[0]] + rest[1..]
  }

  /** No piece of a split holds the separator. */
  lemma {:induction false} SplitNoSeparator(s: string, sep: char)
    ensures forall k :: 0 <= k < |Split(s, sep)| ==> sep !in Split(s, sep)[k]
    decreases |s|
  {
    if s != [] {
      SplitNoSeparator(s[1..], sep);
      var rest := Split(s[1..], sep);
      if s[0] != sep {
        assert sep !in rest[0];
        assert forall k :: 1 <= k < |Split(s, sep)| ==> Split(s, sep)[k] == rest[k];
      } else {
        assert forall k :: 1 <= k < |Split(s, sep)| ==> Split(s, sep)[k] == rest[k - 1];
      }
    }
  }

  /** Every character of a piece comes from the split string. */
  lemma {:induction false} SplitPieceChars(s: string, sep: char)
    ensures forall k, c :: 0 <= k < |Split(s, sep)| && c in Split(s, sep)[k] ==> c in s
    decreases |s|
  {
    if s != [] {
      SplitPieceChars(s[1..], sep);
      var rest := Split(s[1..], sep);
      assert forall c :: c in s[1..] ==> c in s;
      if s[0] != sep {
        assert forall c :: c in [s[0]] + rest[0] ==> c == s[0] || c in rest[0];
        assert forall k :: 1 <= k < |Split(s, sep)| ==> Split(s, sep)[k] == rest[k];
      } else {
        assert forall k :: 1 <= k < |Split(s, sep)| ==> Split(s, sep)[k] == rest[k - 1];
      }
    }
  }

  /** `parts.join(sep)`. */
  function Join(parts: seq<string>, sep: char): string
    requires |parts| >= 1
  {
    if |parts| == 1 then parts[0] else parts[0] + [sep] + Join(parts[1..], sep)
  }

  /** Splitting and joining again with the same separator gives the input back. */
  lemma {:induction false} SplitJoin(s: string, sep: char)
    ensures Join(Split(s, sep), sep) == s
    decreases |s|
  {
    if s != [] {
      SplitJoin(s[1..], sep);
      var rest := Split(s[1..], sep);
      if s[0] == sep {
        assert Split(s, sep) == [""] + rest;
        assert ([""] + rest)[1..] == rest;
      } else {
        var parts := Split(s, sep);
        assert parts == [[s[0]] + rest[0]] + rest[1..];
        if |rest| == 1 {
          assert parts == [[s[0]] + rest[0]];
        } else {
          assert parts[1..] == rest[1..];
          assert Join(rest, sep) == rest[0] + [sep] + Join(rest[1..], sep);
        }
      }
    }
  }

  /** The first piece of a split is the text before the first separator. */
  lemma SplitFirst(s: string, sep: char)
    ensures StartsWith(s, Split(s, sep)[0])
    ensures |Split(s, sep)[0]| < |s| ==> s[|Split(s, sep)[0]|] == sep
    ensures sep !in s ==> Split(s, sep) == [s]
  {
    SplitFirstPrefix(s, sep);
    SplitFirstEnd(s, sep);
    if sep !in s {
      SplitWithoutSeparator(s, sep);
    }
  }

  /** The first piece is a prefix of the string. */
  lemma {:induction false} SplitFirstPrefix(s: string, sep: char)
    ensures StartsWith(s, Split(s, sep)[0])
    decreases |s|
  {
    if s != [] && s[0] != sep {
      var tail := s[1..];
      var piece := Split(tail, sep)[0];
      assert Split(s, sep)[0] == [s[0]] + piece;
      assert StartsWith([s[0]] + tail, [s[0]] + piece) by {
        SplitFirstPrefix(tail, sep);
        PrefixCons(s[0], tail, piece);
      }
      assert [s[0]] + tail == s;
    }
  }

  lemma PrefixCons(c: char, s: string, prefix: string)
    requires StartsWith(s, prefix)
    ensures StartsWith([c] + s, [c] + prefix)
  {
    assert ([c] + s)[..1 + |prefix|] == [c] + s[..|prefix|];
  }

  /** The first piece ends at the string's end or at a separator. */
  lemma {:induction false} SplitFirstEnd(s: string, sep: char)
    ensures |Split(s, sep)[0]| <= |s|
    ensures |Split(s, sep)[0]| < |s| ==> s[|Split(s, sep)[0]|] == sep
    decreases |s|
  {
    if s != [] && s[0] != sep {
      var tail := s[1..];
      var piece := Split(tail, sep)[0];
      assert Split(s, sep)[0] == [s[0]] + piece;
      assert |piece| <= |tail| && (|piece| < |tail| ==> tail[|piece|] == sep) by {
        SplitFirstEnd(tail, sep);
      }
      assert |piece| < |tail| ==> s[1 + |piece|] == tail[|piece|];
    }
  }

  /** Without the separator there is one piece, the whole string. */
  lemma {:induction false} SplitWithoutSeparator(s: string, sep: char)
    requires sep !in s
    ensures Split(s, sep) == [s]
    decreases |s|
  {
    if s != [] {
      assert forall c :: c in s[1..] ==> c in s;
      SplitWithoutSeparator(s[1..], sep);
      assert s[0] in s;
      assert [s[0]] + s[1..] == s;
    }
  }

  /** After the first piece, a split continues with the split of the text after the first separator. */
  lemma {:induction false} SplitRest(s: string, sep: char)
    ensures |Split(s, sep)[0]| < |s| ==> Split(s, sep)[1..] == Split(s[|Split(s, sep)[0]| + 1..], sep)
    ensures |Split(s, sep)[0]| == |s| ==> |Split(s, sep)| == 1
    decreases |s|
  {
    SplitFirst(s, sep);
    if s != [] {
      SplitRest(s[1..], sep);
      var rest := Split(s[1..], sep);
      if s[0] != sep {
        var first := Split(s, sep)[0];
        assert first == [s[0]] + rest[0];
        if |first| < |s| {
          assert s[|first| + 1..] == s[1..][|rest[0]| + 1..];
        }
      }
    }
  }

  /** `s.split(sep)[0]`: the text before the first `sep`, or all of `s`. */
  function BeforeFirst(s: string, sep: char): (r: string)
    ensures StartsWith(s, r) && sep !in r
    ensures |r| < |s| ==> s[|r|] == sep
  {
    SplitFirst(s, sep);
    SplitNoSeparator(s, sep);
    Split(s, sep)[0]
  }

  /** The elements of `s` that satisfy `keep`, in order (a `filter`, or a `replace(/[...]/g, '')` on characters). */
  function Keep<T>(s: seq<T>, keep: T -> bool): (r: seq<T>)
    ensures |r| <= |s|
    ensures forall i :: 0 <= i < |r| ==> keep(r[i])
  {
    if s == [] then [] else (if keep(s[0]) then [s[0]] else []) + Keep(s[1..], keep)
  }

  /** The kept elements are exactly the elements of `s` that satisfy `keep`. */
  lemma {:induction false} KeepMembers<T>(s: seq<T>, keep: T -> bool)
    ensures forall c :: c in Keep(s, keep) <==> c in s && keep(c)
  {
    if s != [] {
      KeepMembers(s[1..], keep);
      assert s == [s[0]] + s[1..];
    }
  }

  /** Every kept element occurs as often as in `s`; the others do not occur at all. */
  lemma {:induction false} KeepCounts<T>(s: seq<T>, keep: T -> bool)
    ensures forall x :: keep(x) ==> multiset(Keep(s, keep))[x] == multiset(s)[x]
    ensures forall x :: !keep(x) ==> multiset(Keep(s, keep))[x] == 0
  {
    if s != [] {
      KeepCounts(s[1..], keep);
      assert s == [s[0]] + s[1..];
    }
  }

  /** Filtering a concatenation filters each part: the kept elements stay in their order. */
  lemma {:induction false} KeepConcat<T>(s: seq<T>, t: seq<T>, keep: T -> bool)
    ensures Keep(s + t, keep) == Keep(s, keep) + Keep(t, keep)
  {
    if s != [] {
      assert (s + t)[0] == s[0] && (s + t)[1..] == s[1..] + t;
      KeepConcat(s[1..], t, keep);
      var head := if keep(s[0]) then [s[0]] else [];
      assert Keep(s + t, keep) == head + Keep(s[1..] + t, keep);
      assert head + (Keep(s[1..], keep) + Keep(t, keep)) == (head + Keep(s[1..], keep)) + Keep(t, keep);
    } else {
      assert s + t == t;
    }
  }

  /** Filtering twice with the same test is filtering once. */
  lemma {:induction false} KeepIdempotent<T>(s: seq<T>, keep: T -> bool)
    ensures Keep(Keep(s, keep), keep) == Keep(s, keep)
  {
    if s != [] {
      KeepIdempotent(s[1..], keep);
      var rest := Keep(s[1..], keep);
      if keep(s[0]) {
        var k := [s[0]] + rest;
        assert Keep(s, keep) == k;
        assert k[0] == s[0] && k[1..] == rest;
      } else {
        assert Keep(s, keep) == [] + rest == rest;
      }
    }
  }

  /** Every `from` replaced by `to` (a `replace(/from/g, to)` for a single character). */
  function ReplaceChar(s: string, from: char, to: char): (r: string)
    ensures |r| == |s|
    ensures forall i :: 0 <= i < |s| ==> r[i] == if s[i] == from then to else s[i]
  {
    seq(|s|, i requires 0 <= i < |s| => if s[i] == from then to else s[i])
  }

  function DigitChar(d: nat): (c: char)
    requires d < 10
    ensures IsDigit(c)
  {
    ('0' as int + d) as char
  }

  /** Decimal rendering of a natural number, as JavaScript's `String(n)` gives it. */
  function NatToString(n: nat): (r: string)
    ensures |r| >= 1 && AllDigits(r)
    ensures n > 0 ==> r[0] != '0'
  {
    if n < 10 then [DigitChar(n)] else NatToString(n / 10) + [DigitChar(n % 10)]
  }

  /** The value of a run of decimal digits (leading zeros allowed, as in `parseInt`). */
  function DigitsValue(s: string): nat
    requires AllDigits(s)
  {
    if s == [] then 0 else 10 * DigitsValue(s[..|s| - 1]) + (s[|s| - 1] as int - '0' as int)
  }

  /** Reading back a rendered number gives the number. */
  lemma {:induction false} DigitsValueOfNatToString(n: nat)
    ensures DigitsValue(NatToString(n)) == n
  {
    if n >= 10 {
      var r := NatToString(n);
      assert r[..|r| - 1] == NatToString(n / 10);
      DigitsValueOfNatToString(n / 10);
    }
  }

  /** A `k`-digit run has a value below 10^k. */
  lemma {:induction false} DigitsValueBound(s: string, bound: nat)
    requires AllDigits(s) && bound == Pow10(|s|)
    ensures DigitsValue(s) < bound
  {
    if s != [] {
      DigitsValueBound(s[..|s| - 1], Pow10(|s| - 1));
    }
  }

  function Pow10(k: nat): (p: nat)
    ensures p >= 1
  {
    if k == 0 then 1 else 10 * Pow10(k - 1)
  }

  predicate IsSlugChar(c: char) { IsUpper(c) || IsLower(c) || IsDigit(c) || c == '_' || c == '-' }

  /** The pattern `^[a-zA-Z0-9_-]{3,20}$`, shared by custom short ids and user names. */
  predicate IsSlug(s: string) {
    3 <= |s| <= 20 && forall i :: 0 <= i < |s| ==> IsSlugChar(s[i])
  }
}
