/** The few JavaScript value semantics the components rely on: optional values,
    truthiness of strings, `String.prototype.includes`, `String.prototype.trim`,
    and decimal rendering of non-negative integers. */
module Js {

  /** `undefined` (None) or a present value. */
  datatype Option<+T> = None | Some(value: T)

  /** Truthiness of an optional string: present and not empty. */
  predicate Truthy(s: Option<string>) {
    s.Some? && s.value != ""
  }

  /** `a || d` where `a` is a string (the empty string is falsy). */
  function OrElse(a: string, d: string): string {
    if a != "" then a else d
  }

  /** `a || d` where `a` may be undefined. */
  function OptOrElse(a: Option<string>, d: string): string {
    if Truthy(a) then a.value else d
  }

  // ---------------------------------------------------------------------------
  // Substrings

  /** `s.includes(t)`, computed by scanning `s` from the left. */
  function Contains(s: string, t: string): bool
    decreases |s|
  {
    t <= s || (s != [] && Contains(s[1..], t))
  }

  /** `t` occurs in `s` starting at offset `i`. */
  ghost predicate OccursAt(s: string, t: string, i: int) {
    0 <= i && i + |t| <= |s| && s[i..i + |t|] == t
  }

  /** An occurrence at offset `i` is found by the scan. */
  lemma {:induction false} OccursAtContains(s: string, t: string, i: int)
    requires OccursAt(s, t, i)
    ensures Contains(s, t)
    decreases i
  {
    if i == 0 {
      assert s[..|t|] == t;
    } else {
      assert s[1..][i - 1..i - 1 + |t|] == s[i..i + |t|];
      OccursAtContains(s[1..], t, i - 1);
    }
  }

  /** A successful scan has found an occurrence. */
  lemma {:induction false} ContainsOccurs(s: string, t: string)
    requires Contains(s, t)
    ensures exists i :: OccursAt(s, t, i)
    decreases |s|
  {
    if t <= s {
      assert s[0..|t|] == t;
      assert OccursAt(s, t, 0);
    } else {
      ContainsOccurs(s[1..], t);
      var i :| OccursAt(s[1..], t, i);
      assert s[1..][i..i + |t|] == s[i + 1..i + 1 + |t|];
      assert OccursAt(s, t, i + 1);
    }
  }

  /** The scan agrees with the textbook definition: some offset holds `t`. */
  lemma ContainsIff(s: string, t: string)
    ensures Contains(s, t) <==> exists i :: OccursAt(s, t, i)
  {
    if Contains(s, t) {
      ContainsOccurs(s, t);
    }
    forall i | OccursAt(s, t, i) ensures Contains(s, t) {
      OccursAtContains(s, t, i);
    }
  }

  /** `t` cannot start at offset `i` of `s`: one of the three characters of
      `t` at positions `a`, `b`, `c` differs from the character of `s` under it. */
  ghost predicate Mismatch(s: string, t: string, i: int, a: nat, b: nat, c: nat)
    requires 0 <= i && a < |t| && b < |t| && c < |t| && i + |t| <= |s|
  {
    s[i + a] != t[a] || s[i + b] != t[b] || s[i + c] != t[c]
  }

  /** If `t` cannot start at any offset of `s`, then `s` does not contain `t`. */
  lemma NotContainsByMismatch(s: string, t: string, a: nat, b: nat, c: nat)
    requires a < |t| && b < |t| && c < |t|
    requires forall i :: 0 <= i <= |s| - |t| ==> Mismatch(s, t, i, a, b, c)
    ensures !Contains(s, t)
  {
    forall i | OccursAt(s, t, i) ensures !Mismatch(s, t, i, a, b, c) {
      var w := s[i..i + |t|];
      assert w[a] == s[i + a] && w[b] == s[i + b] && w[c] == s[i + c];
    }
    ContainsIff(s, t);
  }

  // ---------------------------------------------------------------------------
  // trim()

  /** The characters `String.prototype.trim` removes: WhiteSpace and
      LineTerminator of ECMAScript (sections 12.2 and 12.3 of ECMA-262). */
  predicate IsJsSpace(c: char) {
    c == ' ' || c == '\t' || c == '\n' || c == '\r' || c == '\U{000B}' || c == '\U{000C}'
    || c == '\U{00A0}' || c == '\U{1680}' || ('\U{2000}' <= c <= '\U{200A}')
    || c == '\U{2028}' || c == '\U{2029}' || c == '\U{202F}' || c == '\U{205F}'
    || c == '\U{3000}' || c == '\U{FEFF}'
  }

  function TrimStart(s: string): string
    decreases |s|
  {
    if s != [] && IsJsSpace(s[0]) then TrimStart(s[1..]) else s
  }

  function TrimEnd(s: string): string
    decreases |s|
  {
    if s != [] && IsJsSpace(s[|s| - 1]) then TrimEnd(s[..|s| - 1]) else s
  }

  /** `s.trim()`. */
  function Trim(s: string): string {
    TrimEnd(TrimStart(s))
  }

  ghost predicate AllSpace(s: string) {
    forall i :: 0 <= i < |s| ==> IsJsSpace(s[i])
  }

  lemma {:induction false} TrimStartEmptyIff(s: string)
    ensures TrimStart(s) == [] <==> AllSpace(s)
    decreases |s|
  {
    if s != [] && IsJsSpace(s[0]) {
      TrimStartEmptyIff(s[1..]);
      assert AllSpace(s[1..]) ==> AllSpace(s) by {
        if AllSpace(s[1..]) {
          forall i | 0 <= i < |s| ensures IsJsSpace(s[i]) {
            if i > 0 { assert s[i] == s[1..][i - 1]; }
          }
        }
      }
    }
  }

  /** TrimEnd leaves a string alone when its first surviving character is
      not a space (it then never empties the string). */
  lemma {:induction false} TrimEndKeepsNonSpaceHead(s: string)
    requires s != [] && !IsJsSpace(s[0])
    ensures TrimEnd(s) != []
    decreases |s|
  {
    if IsJsSpace(s[|s| - 1]) {
      assert |s| > 1;
      TrimEndKeepsNonSpaceHead(s[..|s| - 1]);
    }
  }

  lemma TrimStartHead(s: string)
    ensures TrimStart(s) == [] || !IsJsSpace(TrimStart(s)[0])
    decreases |s|
  {
  }

  /** The trimmed string is empty exactly when every character is white space. */
  lemma TrimEmptyIff(s: string)
    ensures Trim(s) == [] <==> AllSpace(s)
  {
    TrimStartEmptyIff(s);
    TrimStartHead(s);
    if TrimStart(s) != [] {
      TrimEndKeepsNonSpaceHead(TrimStart(s));
    }
  }

  // ---------------------------------------------------------------------------
  // Decimal numerals

  predicate IsDigit(c: char) {
    '0' <= c <= '9'
  }

  ghost predicate AllDigits(s: string) {
    forall i :: 0 <= i < |s| ==> IsDigit(s[i])
  }

  function DigitChar(d: nat): char
    requires d < 10
  {
    "0123456789"[d]
  }

  function DigitValue(c: char): nat {
    if IsDigit(c) then (c as int - '0' as int) else 0
  }

  /** `String(n)` for a non-negative integer: its decimal numeral. */
  function NatToString(n: nat): (s: string)
    decreases n
  {
    if n < 10 then [DigitChar(n)] else NatToString(n / 10) + [DigitChar(n % 10)]
  }

  /** The value of a numeral (read right to left). */
  function ParseNat(s: string): nat
    decreases |s|
  {
    if s == [] then 0 else ParseNat(s[..|s| - 1]) * 10 + DigitValue(s[|s| - 1])
  }

  /** The longest prefix of digits: what `parseInt` reads of "12pt". */
  function TakeDigits(s: string): string
    decreases |s|
  {
    if s != [] && IsDigit(s[0]) then [s[0]] + TakeDigits(s[1..]) else []
  }

  lemma {:induction false} NatToStringDigits(n: nat)
    ensures NatToString(n) != [] && AllDigits(NatToString(n))
    decreases n
  {
    if n >= 10 {
      NatToStringDigits(n / 10);
    }
  }

  /** Reading back a rendered numeral gives the number: NatToString is a
      faithful encoding. */
  lemma {:induction false} ParseNatToString(n: nat)
    ensures ParseNat(NatToString(n)) == n
    decreases n
  {
    if n >= 10 {
      var p := NatToString(n / 10);
      var s := p + [DigitChar(n % 10)];
      assert s[..|s| - 1] == p;
      ParseNatToString(n / 10);
    }
  }

  /** A run of digits followed by a non-digit (or nothing) is read up to the
      non-digit. */
  lemma {:induction false} TakeDigitsOfNumeral(d: string, rest: string)
    requires AllDigits(d)
    requires rest == [] || !IsDigit(rest[0])
    ensures TakeDigits(d + rest) == d
    decreases |d|
  {
    if d == [] {
      assert d + rest == rest;
    } else {
      assert (d + rest)[1..] == d[1..] + rest;
      TakeDigitsOfNumeral(d[1..], rest);
      assert [d[0]] + d[1..] == d;
    }
  }

  /** The number at the head of `NatToString(n) + unit` is `n`, for a unit
      that does not start with a digit. */
  lemma LeadingNumber(n: nat, unit: string)
    requires unit == [] || !IsDigit(unit[0])
    ensures ParseNat(TakeDigits(NatToString(n) + unit)) == n
  {
    NatToStringDigits(n);
    TakeDigitsOfNumeral(NatToString(n), unit);
    ParseNatToString(n);
  }

  // ---------------------------------------------------------------------------
  // Array.prototype.join

  /** `parts.join(sep)`. */
  function Join(parts: seq<string>, sep: string): string
    decreases |parts|
  {
    if parts == [] then ""
    else if |parts| == 1 then parts[0]
    else parts[0] + sep + Join(parts[1..], sep)
  }

  function TotalLength(parts: seq<string>): nat
    decreases |parts|
  {
    if parts == [] then 0 else |parts[0]| + TotalLength(parts[1..])
  }

  /** Joining one more part adds the separator and the part at the end. */
  lemma {:induction false} JoinAppend(parts: seq<string>, x: string, sep: string)
    requires parts != []
    ensures Join(parts + [x], sep) == Join(parts, sep) + sep + x
    decreases |parts|
  {
    if |parts| == 1 {
      assert (parts + [x])[1..] == [x];
    } else {
      assert (parts + [x])[1..] == parts[1..] + [x];
      JoinAppend(parts[1..], x, sep);
    }
  }

  /** The length of a joined string: the parts and one separator between
      each two neighbours. */
  lemma {:induction false} JoinLength(parts: seq<string>, sep: string)
    requires parts != []
    ensures |Join(parts, sep)| == TotalLength(parts) + (|parts| - 1) * |sep|
    decreases |parts|
  {
    if |parts| > 1 {
      JoinLength(parts[1..], sep);
    }
  }

  /** Where part `i` starts in `parts.join(sep)`: after the parts before it
      and one separator behind each of them. */
  function PartStart(parts: seq<string>, sep: string, i: nat): nat
    requires i <= |parts|
  {
    TotalLength(parts[..i]) + i * |sep|
  }

  /** `line` is `parts` laid end to end with `sep` between neighbours: each
      part at its start, each separator right after its part, and no room
      for anything else. */
  ghost predicate JoinedFrom(line: string, parts: seq<string>, sep: string) {
    && (parts == [] ==> line == "")
    && (parts != [] ==>
          && |line| == TotalLength(parts) + (|parts| - 1) * |sep|
          && (forall i :: 0 <= i < |parts| ==> OccursAt(line, parts[i], PartStart(parts, sep, i)))
          && (forall i :: 0 <= i < |parts| - 1 ==> OccursAt(line, sep, PartStart(parts, sep, i) + |parts[i]|)))
  }

  /** `parts.join(sep)` is exactly the parts in order with one separator
      between each two. */
  lemma {:induction false} JoinContents(parts: seq<string>, sep: string)
    ensures JoinedFrom(Join(parts, sep), parts, sep)
    decreases |parts|
  {
    if |parts| == 1 {
      assert parts[..0] == [] && parts[1..] == [];
      assert Join(parts, sep)[0..|parts[0]|] == parts[0];
    } else if |parts| > 1 {
      JoinContents(parts[1..], sep);
      JoinLength(parts, sep);
      JoinPartsStep(parts, sep);
      JoinSeparatorsStep(parts, sep);
    }
  }

  /** The parts of `parts[1..].join(sep)` move right by the first part and a
      separator, and the first part comes in front. */
  lemma JoinPartsStep(parts: seq<string>, sep: string)
    requires |parts| > 1
    requires forall i :: 0 <= i < |parts| - 1 ==> OccursAt(Join(parts[1..], sep), parts[1..][i], PartStart(parts[1..], sep, i))
    ensures forall i :: 0 <= i < |parts| ==> OccursAt(Join(parts, sep), parts[i], PartStart(parts, sep, i))
  {
    var h, rest := parts[0], parts[1..];
    var line := Join(parts, sep);
    assert line == (h + sep) + Join(rest, sep);
    forall i | 0 <= i < |parts| ensures OccursAt(line, parts[i], PartStart(parts, sep, i)) {
      if i == 0 {
        assert parts[..0] == [];
        assert line[0..|h|] == h;
      } else {
        PartStartStep(parts, sep, i);
        OccursAtShift(h + sep, Join(rest, sep), rest[i - 1], PartStart(rest, sep, i - 1));
      }
    }
  }

  /** Likewise for the separators, with a new one right after the first
      part. */
  lemma JoinSeparatorsStep(parts: seq<string>, sep: string)
    requires |parts| > 1
    requires forall i :: 0 <= i < |parts| - 2 ==> OccursAt(Join(parts[1..], sep), sep, PartStart(parts[1..], sep, i) + |parts[1..][i]|)
    ensures forall i :: 0 <= i < |parts| - 1 ==> OccursAt(Join(parts, sep), sep, PartStart(parts, sep, i) + |parts[i]|)
  {
    forall i | 0 <= i < |parts| - 1 ensures OccursAt(Join(parts, sep), sep, PartStart(parts, sep, i) + |parts[i]|) {
      if i == 0 {
        FirstSeparator(parts, sep);
      } else {
        LaterSeparator(parts, sep, i);
      }
    }
  }

  lemma FirstSeparator(parts: seq<string>, sep: string)
    requires |parts| > 1
    ensures OccursAt(Join(parts, sep), sep, PartStart(parts, sep, 0) + |parts[0]|)
  {
    var h := parts[0];
    assert parts[..0] == [];
    assert Join(parts, sep) == (h + sep) + Join(parts[1..], sep);
    assert (h + sep)[|h|..|h| + |sep|] == sep;
    OccursAtExtend(h + sep, Join(parts[1..], sep), sep, |h|);
  }

  lemma LaterSeparator(parts: seq<string>, sep: string, i: nat)
    requires 0 < i < |parts| - 1
    requires OccursAt(Join(parts[1..], sep), sep, PartStart(parts[1..], sep, i - 1) + |parts[1..][i - 1]|)
    ensures OccursAt(Join(parts, sep), sep, PartStart(parts, sep, i) + |parts[i]|)
  {
    var h, rest := parts[0], parts[1..];
    assert Join(parts, sep) == (h + sep) + Join(rest, sep);
    assert parts[i] == rest[i - 1];
    PartStartStep(parts, sep, i);
    OccursAtShift(h + sep, Join(rest, sep), sep, PartStart(rest, sep, i - 1) + |rest[i - 1]|);
  }

  lemma OccursAtExtend(a: string, b: string, t: string, j: int)
    requires OccursAt(a, t, j)
    ensures OccursAt(a + b, t, j)
  {
    assert (a + b)[j..j + |t|] == a[j..j + |t|];
  }

  lemma PartStartStep(parts: seq<string>, sep: string, i: nat)
    requires 0 < i <= |parts|
    ensures PartStart(parts, sep, i) == |parts[0]| + |sep| + PartStart(parts[1..], sep, i - 1)
  {
    assert parts[..i][1..] == parts[1..][..i - 1];
  }

  lemma OccursAtShift(a: string, r: string, t: string, j: int)
    requires OccursAt(r, t, j)
    ensures OccursAt(a + r, t, |a| + j)
  {
    assert (a + r)[|a| + j..|a| + j + |t|] == r[j..j + |t|];
  }
}
