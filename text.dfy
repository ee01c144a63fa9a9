/** The JavaScript string operations the core relies on: `trim`, `split`,
    `toLowerCase`, `includes`, `startsWith`, `padStart`, `Number.toString`
    and `parseInt`, written out over `string` (a sequence of UTF-16 code
    units as far as this model is concerned). */
module Text {
  import opened Wrappers

  // ---------------------------------------------------------------------
  // Whitespace and trimming
  // ---------------------------------------------------------------------

  /** ECMAScript WhiteSpace and LineTerminator code points: what `trim`
      removes and what `parseInt` skips at the front. */
  predicate IsJsSpace(c: char) {
    var n := c as int;
    n == 0x09 || n == 0x0A || n == 0x0B || n == 0x0C || n == 0x0D || n == 0x20 ||
    n == 0xA0 || n == 0x1680 || (0x2000 <= n <= 0x200A) || n == 0x2028 ||
    n == 0x2029 || n == 0x202F || n == 0x205F || n == 0x3000 || n == 0xFEFF
  }

  /** `s.trimStart()`: the suffix left after dropping leading whitespace. */
  function TrimStart(s: string): (r: string)
    ensures |r| <= |s| && r == s[|s| - |r|..]
    ensures forall i :: 0 <= i < |s| - |r| ==> IsJsSpace(s[i])
    ensures |r| > 0 ==> !IsJsSpace(r[0])
  {
    if |s| > 0 && IsJsSpace(s[0]) then TrimStart(s[1..]) else s
  }

  /** `s.trimEnd()`: the prefix left after dropping trailing whitespace. */
  function TrimEnd(s: string): (r: string)
    ensures |r| <= |s| && r == s[..|r|]
    ensures forall i :: |r| <= i < |s| ==> IsJsSpace(s[i])
    ensures |r| > 0 ==> !IsJsSpace(r[|r| - 1])
  {
    if |s| > 0 && IsJsSpace(s[|s| - 1]) then TrimEnd(s[..|s| - 1]) else s
  }

  /** `s.trim()`: a contiguous piece of `s` that neither starts nor ends
      with whitespace, and everything cut away is whitespace. */
  function Trim(s: string): (r: string)
    ensures |r| == 0 || (!IsJsSpace(r[0]) && !IsJsSpace(r[|r| - 1]))
    ensures exists i :: OccursAt(s, r, i) && (forall k :: 0 <= k < i ==> IsJsSpace(s[k]))
                        && (forall k :: i + |r| <= k < |s| ==> IsJsSpace(s[k]))
  {
    TrimPieces(s);
    TrimEnd(TrimStart(s))
  }

  lemma TrimPieces(s: string)
    ensures var a := TrimStart(s); var r := TrimEnd(a); var i := |s| - |a|;
      OccursAt(s, r, i) && (forall k :: 0 <= k < i ==> IsJsSpace(s[k]))
      && (forall k :: i + |r| <= k < |s| ==> IsJsSpace(s[k]))
  {
    var a := TrimStart(s);
    var r := TrimEnd(a);
    var i := |s| - |a|;
    TrimEndPiece(s, a, r, i);
  }

  /** What `TrimEnd` leaves of the suffix `a = s[i..]`, seen in `s`. */
  lemma TrimEndPiece(s: string, a: string, r: string, i: int)
    requires 0 <= i <= |s| && a == s[i..]
    requires |r| <= |a| && r == a[..|r|]
    requires forall k :: |r| <= k < |a| ==> IsJsSpace(a[k])
    ensures OccursAt(s, r, i)
    ensures forall k :: i + |r| <= k < |s| ==> IsJsSpace(s[k])
  {
    assert s[i..i + |r|] == r;
    forall k | i + |r| <= k < |s| ensures IsJsSpace(s[k]) {
      assert s[k] == a[k - i];
    }
  }

  /** Trimming twice is trimming once. */
  lemma TrimIdempotent(s: string)
    ensures Trim(Trim(s)) == Trim(s)
  {
    var r := Trim(s);
    assert TrimStart(r) == r;
    assert TrimEnd(r) == r;
  }

  // ---------------------------------------------------------------------
  // Case mapping
  // ---------------------------------------------------------------------

  predicate IsUpperAscii(c: char) { 'A' <= c <= 'Z' }

  /** `toLowerCase` on one character (ASCII letters only). */
  function LowerChar(c: char): (r: char)
    ensures !IsUpperAscii(r)
    ensures IsUpperAscii(c) ==> r as int == c as int + 32
    ensures !IsUpperAscii(c) ==> r == c
  {
    if IsUpperAscii(c) then (c as int + 32) as char else c
  }

  /** `s.toLowerCase()`: the same length, each character lowered, and no
      upper-case letter left. */
  function ToLower(s: string): (r: string)
    ensures |r| == |s|
    ensures forall i :: 0 <= i < |s| ==> r[i] == LowerChar(s[i])
    ensures forall i :: 0 <= i < |r| ==> !IsUpperAscii(r[i])
  {
    seq(|s|, i requires 0 <= i < |s| => LowerChar(s[i]))
  }

  lemma ToLowerIdempotent(s: string)
    ensures ToLower(ToLower(s)) == ToLower(s)
  {
  }

  // ---------------------------------------------------------------------
  // Searching
  // ---------------------------------------------------------------------

  /** `sub` occurs in `s` starting at index `i`. */
  predicate OccursAt(s: string, sub: string, i: int) {
    0 <= i && i + |sub| <= |s| && s[i..i + |sub|] == sub
  }

  /** `s.startsWith(p)`. */
  predicate StartsWith(s: string, p: string) {
    |p| <= |s| && s[..|p|] == p
  }

  /** `s.includes(sub)`: `sub` occurs somewhere in `s`. */
  function Contains(s: string, sub: string): (r: bool)
    ensures r <==> exists i :: OccursAt(s, sub, i)
    decreases |s|
  {
    if StartsWith(s, sub) then
      assert OccursAt(s, sub, 0);
      true
    else if |s| == 0 then
      false
    else
      var r := Contains(s[1..], sub);
      assert r ==> exists i :: OccursAt(s, sub, i) by {
        if r {
          var i :| OccursAt(s[1..], sub, i);
          assert s[i + 1..i + 1 + |sub|] == s[1..][i..i + |sub|];
          assert OccursAt(s, sub, i + 1);
        }
      }
      assert (exists i :: OccursAt(s, sub, i)) ==> r by {
        if exists i :: OccursAt(s, sub, i) {
          var i :| OccursAt(s, sub, i);
          assert i != 0;
          assert s[1..][i - 1..i - 1 + |sub|] == s[i..i + |sub|];
          assert OccursAt(s[1..], sub, i - 1);
        }
      }
      r
  }

  /** The empty string occurs in every string. */
  lemma ContainsEmpty(s: string)
    ensures Contains(s, "")
  {
    assert OccursAt(s, "", 0);
  }

  /** `IndexOf`: the first position of `c` in `s`. */
  function IndexOf(s: string, c: char): (r: Option<nat>)
    ensures r.None? <==> c !in s
    ensures r.Some? ==> r.value < |s| && s[r.value] == c && c !in s[..r.value]
  {
    if |s| == 0 then None
    else if s[0] == c then Some(0)
    else match IndexOf(s[1..], c)
      case None => None
      case Some(k) => assert s[..k + 1] == [s[0]] + s[1..][..k]; Some(k + 1)
  }

  // ---------------------------------------------------------------------
  // Splitting and joining
  // ---------------------------------------------------------------------

  /** `s.split(sep)` for a one-character separator: never empty, and no
      piece holds the separator. */
  function Split(s: string, sep: char): (r: seq<string>)
    ensures |r| >= 1
    ensures forall k :: 0 <= k < |r| ==> sep !in r[k]
    decreases |s|
  {
    if s == [] then [""]
    else
      var rest := Split(s[1..], sep);
      if s[0] == sep then [""] + rest
      else [[s[0]] + rest[0]] + rest[1..]
  }

  /** `parts.join(sep)`. */
  function Join(parts: seq<string>, sep: string): string
  {
    if |parts| == 0 then ""
    else if |parts| == 1 then parts[0]
    else parts[0] + sep + Join(parts[1..], sep)
  }

  /** Joining the pieces of a split gives back the original text. */
  lemma {:induction false} JoinSplit(s: string, sep: char)
    ensures Join(Split(s, sep), [sep]) == s
    decreases |s|
  {
    if s != [] {
      var rest := Split(s[1..], sep);
      JoinSplit(s[1..], sep);
      assert s == [s[0]] + s[1..];
      if s[0] == sep {
        var r := [""] + rest;
        assert r[1..] == rest;
        assert Join(r, [sep]) == "" + [sep] + Join(rest, [sep]);
      } else {
        var r := [[s[0]] + rest[0]] + rest[1..];
        if |rest| == 1 {
          assert r == [[s[0]] + rest[0]];
        } else {
          assert r[1..] == rest[1..];
          assert Join(r, [sep]) == [s[0]] + rest[0] + [sep] + Join(rest[1..], [sep]);
          assert Join(rest, [sep]) == rest[0] + [sep] + Join(rest[1..], [sep]);
        }
      }
    }
  }

  /** Splitting text that starts with a separator-free piece `a`. */
  lemma {:induction false} SplitFreePrefix(a: string, b: string, sep: char)
    requires sep !in a
    ensures Split(a + b, sep) == [a + Split(b, sep)[0]] + Split(b, sep)[1..]
    decreases |a|
  {
    if a != [] {
      assert (a + b)[1..] == a[1..] + b;
      assert (a + b)[0] == a[0];
      SplitFreePrefix(a[1..], b, sep);
      var q := Split(b, sep);
      var r := Split(a[1..] + b, sep);
      assert a[0] != sep;
      assert Split(a + b, sep) == [[a[0]] + r[0]] + r[1..];
      assert r[0] == a[1..] + q[0] && r[1..] == q[1..];
      assert a == [a[0]] + a[1..];
      assert [a[0]] + (a[1..] + q[0]) == a + q[0];
    } else {
      assert a + b == b;
      var r := Split(b, sep);
      assert a + r[0] == r[0];
      assert r == [r[0]] + r[1..];
    }
  }

  /** Splitting a join of separator-free pieces gives back the pieces. */
  lemma {:induction false} SplitJoin(parts: seq<string>, sep: char)
    requires |parts| >= 1
    requires forall k :: 0 <= k < |parts| ==> sep !in parts[k]
    ensures Split(Join(parts, [sep]), sep) == parts
    decreases |parts|
  {
    if |parts| == 1 {
      SplitFreePrefix(parts[0], "", sep);
      assert Split("", sep) == [""];
      assert parts[0] + "" == parts[0];
    } else {
      var tail := Join(parts[1..], [sep]);
      SplitJoin(parts[1..], sep);
      SplitFreePrefix(parts[0], [sep] + tail, sep);
      assert ([sep] + tail)[0] == sep;
      assert Split([sep] + tail, sep) == [""] + parts[1..];
      assert parts[0] + "" == parts[0];
      assert Join(parts, [sep]) == parts[0] + [sep] + tail;
      assert parts[0] + [sep] + tail == parts[0] + ([sep] + tail);
      assert ([sep] + tail)[1..] == tail;
      assert parts == [parts[0]] + parts[1..];
    }
  }

  // ---------------------------------------------------------------------
  // Number to text
  // ---------------------------------------------------------------------

  predicate IsDecimalDigit(c: char) { '0' <= c <= '9' }

  function DigitChar(d: nat): (c: char)
    requires d < 10
    ensures IsDecimalDigit(c)
  {
    ('0' as int + d) as char
  }

  /** `n.toString()` for a non-negative integer: decimal digits, with a
      leading zero only for zero itself. */
  function NatToString(n: nat): (s: string)
    ensures |s| >= 1
    ensures forall i :: 0 <= i < |s| ==> IsDecimalDigit(s[i])
    ensures s[0] == '0' ==> n == 0
    ensures n < 10 <==> |s| == 1
    decreases n
  {
    if n < 10 then [DigitChar(n)] else NatToString(n / 10) + [DigitChar(n % 10)]
  }

  /** `i.toString()` for any integer. */
  function IntToString(i: int): (s: string)
    ensures i < 0 ==> s == "-" + NatToString(-i)
    ensures i >= 0 ==> s == NatToString(i)
  {
    if i < 0 then "-" + NatToString(-i) else NatToString(i)
  }

  /** `s.padStart(2, '0')`. */
  function PadStart2(s: string): (r: string)
    ensures |r| == if |s| >= 2 then |s| else 2
    ensures |s| >= 2 ==> r == s
    ensures |s| < 2 ==> r == seq(2 - |s|, _ => '0') + s
  {
    if |s| >= 2 then s else if |s| == 1 then "0" + s else "00"
  }

  // ---------------------------------------------------------------------
  // parseInt
  // ---------------------------------------------------------------------

  /** A digit in base 10 or 16. */
  predicate IsDigitIn(c: char, radix: nat) {
    IsDecimalDigit(c) || (radix == 16 && (('a' <= c <= 'f') || ('A' <= c <= 'F')))
  }

  function DigitValue(c: char): (v: nat)
    requires IsDigitIn(c, 16)
    ensures IsDecimalDigit(c) ==> v < 10
    ensures v < 16
  {
    if IsDecimalDigit(c) then c as int - '0' as int
    else if 'a' <= c <= 'f' then c as int - 'a' as int + 10
    else c as int - 'A' as int + 10
  }

  /** The longest prefix of `s` made of digits of the radix. */
  function DigitPrefix(s: string, radix: nat): (r: string)
    ensures |r| <= |s| && r == s[..|r|]
    ensures forall i :: 0 <= i < |r| ==> IsDigitIn(r[i], radix)
    ensures |r| < |s| ==> !IsDigitIn(s[|r|], radix)
  {
    if |s| > 0 && IsDigitIn(s[0], radix) then [s[0]] + DigitPrefix(s[1..], radix) else ""
  }

  /** The value of a digit string in the given radix. */
  function DigitsValue(ds: string, radix: nat): nat
    requires radix == 10 || radix == 16
    requires forall i :: 0 <= i < |ds| ==> IsDigitIn(ds[i], radix)
  {
    if ds == [] then 0
    else
      var last := ds[|ds| - 1];
      assert IsDigitIn(last, radix);
      DigitsValue(ds[..|ds| - 1], radix) * radix + DigitValue(last)
  }

  /** ECMAScript `parseInt(s)` with no radix: skip leading whitespace, take
      an optional sign, then read an unsigned numeral. `None` stands for
      `NaN`. */
  function ParseInt(s: string): Option<int>
  {
    var t := TrimStart(s);
    if |t| > 0 && t[0] == '-' then
      match ParseUnsigned(t[1..])
      case None => None
      case Some(v) => Some(-(v as int))
    else if |t| > 0 && t[0] == '+' then
      match ParseUnsigned(t[1..])
      case None => None
      case Some(v) => Some(v as int)
    else
      match ParseUnsigned(t)
      case None => None
      case Some(v) => Some(v as int)
  }

  /** The unsigned part of `parseInt`: base 16 after `0x`/`0X`, base 10
      otherwise, reading the longest digit prefix; no digit is `NaN`. */
  function ParseUnsigned(u: string): Option<nat>
  {
    var hex := |u| >= 2 && u[0] == '0' && (u[1] == 'x' || u[1] == 'X');
    var radix := if hex then 16 else 10;
    var ds := DigitPrefix(if hex then u[2..] else u, radix);
    if ds == [] then None else Some(DigitsValue(ds, radix))
  }

  /** `parseInt(v)` where `v` may be `undefined`, which `parseInt` reads as
      the text "undefined". */
  function ParseIntOf(v: Option<string>): Option<int>
  {
    match v
    case Some(s) => ParseInt(s)
    case None => ParseInt("undefined")
  }

  /** `parseInt(undefined)` is `NaN`. */
  lemma ParseIntUndefined()
    ensures ParseIntOf(None) == None
  {
    var u := "undefined";
    assert u[0] == 'u' && !IsJsSpace(u[0]) && !IsDigitIn(u[0], 10);
    assert TrimStart(u) == u;
    assert DigitPrefix(u, 10) == "";
  }

  /** `parseInt(x) || d`: the parsed value unless it is `NaN` or zero. */
  function IntOr(v: Option<int>, d: int): (r: int)
    ensures v.Some? && v.value != 0 ==> r == v.value
    ensures v.None? || v == Some(0) ==> r == d
  {
    if v.Some? && v.value != 0 then v.value else d
  }

  /** `message || fallback` for an optional message text. */
  function MessageOr(msg: Option<string>, fallback: string): (r: string)
    ensures msg.Some? && msg.value != "" ==> r == msg.value
    ensures msg.None? || msg == Some("") ==> r == fallback
  {
    if msg.Some? && msg.value != "" then msg.value else fallback
  }

  lemma {:induction false} DigitPrefixOfDigits(s: string, radix: nat)
    requires forall i :: 0 <= i < |s| ==> IsDigitIn(s[i], radix)
    ensures DigitPrefix(s, radix) == s
    decreases |s|
  {
    if |s| > 0 {
      DigitPrefixOfDigits(s[1..], radix);
      assert s == [s[0]] + s[1..];
    }
  }

  lemma {:induction false} DigitsValueOfNatToString(n: nat)
    ensures DigitsValue(NatToString(n), 10) == n
    decreases n
  {
    if n >= 10 {
      var s := NatToString(n);
      DigitsValueOfNatToString(n / 10);
      assert s[..|s| - 1] == NatToString(n / 10);
    }
  }

  /** An unsigned decimal numeral that does not start with `0x` reads as
      its decimal value. */
  lemma ParseUnsignedDecimal(d: string)
    requires |d| >= 1 && forall i :: 0 <= i < |d| ==> IsDecimalDigit(d[i])
    ensures ParseUnsigned(d) == Some(DigitsValue(d, 10))
  {
    DigitPrefixOfDigits(d, 10);
  }

  /** Text that starts with neither whitespace nor a sign is read as an
      unsigned numeral. */
  lemma ParseIntUnsigned(t: string)
    requires |t| >= 1 && IsDecimalDigit(t[0])
    ensures ParseInt(t) == match ParseUnsigned(t) case None => None case Some(v) => Some(v as int)
  {
    assert !IsJsSpace(t[0]) && t[0] != '-' && t[0] != '+';
    assert TrimStart(t) == t;
  }

  /** Text that starts with a sign: the sign applies to what follows. */
  lemma ParseIntSigned(c: char, d: string)
    requires c == '-' || c == '+'
    ensures ParseInt([c] + d) ==
      match ParseUnsigned(d)
      case None => None
      case Some(v) => Some(if c == '-' then -(v as int) else v as int)
  {
    var t := [c] + d;
    assert t[0] == c;
    assert !IsJsSpace(c);
    assert TrimStart(t) == t;
    assert t[1..] == d;
  }

  /** `parseInt(n.toString())` gives back `n`. */
  lemma ParseIntNatToString(n: nat)
    ensures ParseInt(NatToString(n)) == Some(n)
  {
    var d := NatToString(n);
    DigitsValueOfNatToString(n);
    ParseUnsignedDecimal(d);
    ParseIntUnsigned(d);
  }

  /** The text "45" reads back as 45. */
  lemma ParseIntFortyFive()
    ensures ParseInt("45") == Some(45)
  {
    NatToStringFortyFive();
    ParseIntNatToString(45);
  }

  lemma NatToStringFortyFive()
    ensures NatToString(45) == "45"
  {
    assert 45 / 10 == 4 && 45 % 10 == 5;
    assert NatToString(4) == ['4'];
    assert NatToString(45) == NatToString(4) + ['5'];
  }

  /** `parseInt(i.toString())` gives back `i`, negative or not. */
  lemma ParseIntIntToString(i: int)
    ensures ParseInt(IntToString(i)) == Some(i)
  {
    var t := IntToString(i);
    if i < 0 {
      var n: nat := -i;
      assert t == "-" + NatToString(n);
      ParseIntMinusNatToString(n);
    } else {
      assert t == NatToString(i);
      ParseIntNatToString(i);
    }
  }

  /** `parseInt('-' + n.toString())` gives back `-n`. */
  lemma ParseIntMinusNatToString(n: nat)
    ensures ParseInt("-" + NatToString(n)) == Some(-(n as int))
  {
    var d := NatToString(n);
    DigitsValueOfNatToString(n);
    ParseUnsignedDecimal(d);
    ParseIntNegated(d, n);
  }

  lemma ParseIntNegated(d: string, v: nat)
    requires ParseUnsigned(d) == Some(v)
    ensures ParseInt("-" + d) == Some(-(v as int))
  {
    ParseIntSigned('-', d);
    assert "-" + d == ['-'] + d;
  }

  /** `parseInt('+' + n.toString())` gives back `n`. */
  lemma ParseIntPlusNatToString(n: nat)
    ensures ParseInt("+" + NatToString(n)) == Some(n)
  {
    var d := NatToString(n);
    DigitsValueOfNatToString(n);
    ParseUnsignedDecimal(d);
    ParseIntSigned('+', d);
  }

  /** `parseInt` reads a zero-padded two-digit numeral correctly. */
  lemma ParseIntPadded(n: nat)
    ensures ParseInt(PadStart2(NatToString(n))) == Some(n)
  {
    if n < 10 {
      var p := PadStart2(NatToString(n));
      assert p == ['0', DigitChar(n)];
      assert p[..1] == ['0'];
      assert DigitsValue(p[..1], 10) == 0 by {
        assert p[..1][..0] == [];
      }
      assert DigitValue(p[1]) == n;
      assert DigitsValue(p, 10) == n;
      ParseUnsignedDecimal(p);
      ParseIntUnsigned(p);
    } else {
      ParseIntNatToString(n);
    }
  }

  lemma {:induction false} DigitPrefixThen(d: string, rest: string, radix: nat)
    requires forall i :: 0 <= i < |d| ==> IsDigitIn(d[i], radix)
    requires |rest| > 0 && !IsDigitIn(rest[0], radix)
    ensures DigitPrefix(d + rest, radix) == d
    decreases |d|
  {
    if |d| > 0 {
      DigitPrefixThen(d[1..], rest, radix);
      assert (d + rest)[1..] == d[1..] + rest;
      assert d == [d[0]] + d[1..];
    }
  }

  /** `parseInt` of a numeral followed by text that is not a digit (such as
      "5m ago") reads the numeral alone. */
  lemma ParseIntNatThen(n: nat, rest: string)
    requires |rest| > 0 && !IsDecimalDigit(rest[0]) && rest[0] != 'x' && rest[0] != 'X'
    ensures ParseInt(NatToString(n) + rest) == Some(n)
  {
    var d := NatToString(n);
    var u := d + rest;
    DigitPrefixThen(d, rest, 10);
    DigitsValueOfNatToString(n);
    assert u[0] == d[0];
    assert |u| >= 2 ==> u[1] == (if |d| >= 2 then d[1] else rest[0]);
    ParseIntUnsigned(u);
  }
}
