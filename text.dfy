/** The JavaScript string operations the core relies on, each with the
    behaviour of its ECMAScript counterpart: `indexOf`, `substring`,
    `split` on one character, `join`, `trim`, `toLowerCase` (ASCII letters),
    `startsWith`, replace-all of one character, and `encodeURIComponent` /
    `decodeURIComponent` (UTF-8, as section 19.2.6 of ECMA-262 describes). */
module Text {
  import opened Wrappers

  // ---------------------------------------------------------------------
  // Searching
  // ---------------------------------------------------------------------

  /** `pat` occurs in `s` starting at index `k`. */
  predicate OccursAt(s: string, pat: string, k: int) {
    0 <= k && k + |pat| <= |s| && s[k..k + |pat|] == pat
  }

  /** First index `>= from` at which `pat` occurs, or -1. */
  function IndexOfFrom(s: string, pat: string, from: nat): (r: int)
    ensures r == -1 || (from <= r && OccursAt(s, pat, r))
    ensures forall k :: from <= k && (r == -1 || k < r) ==> !OccursAt(s, pat, k)
    decreases |s| + 1 - from
  {
    if from + |pat| > |s| then -1
    else if s[from..from + |pat|] == pat then from
    else IndexOfFrom(s, pat, from + 1)
  }

  /** `pos` clamped into `0..len`, as ECMAScript clamps string positions. */
  function Clamp(pos: int, len: nat): (r: nat)
    ensures r <= len
    ensures 0 <= pos <= len ==> r == pos
  {
    if pos < 0 then 0 else if pos > len then len else pos
  }

  /** `s.indexOf(pat, position)`. */
  function IndexOf(s: string, pat: string, position: int): int
  {
    IndexOfFrom(s, pat, Clamp(position, |s|))
  }

  /** `s.includes(pat)`, i.e. `s.indexOf(pat) !== -1`. */
  predicate Contains(s: string, pat: string) {
    IndexOf(s, pat, 0) != -1
  }

  /** `s.startsWith(pat)`. */
  predicate StartsWith(s: string, pat: string) {
    |pat| <= |s| && s[..|pat|] == pat
  }

  /** `s.substring(start, end)`: both ends clamped, swapped when reversed. */
  function Substring(s: string, start: int, end: int): (r: string)
    ensures |r| <= |s|
    ensures 0 <= start <= end <= |s| ==> r == s[start..end]
  {
    var a := Clamp(start, |s|);
    var b := Clamp(end, |s|);
    if a <= b then s[a..b] else s[b..a]
  }

  // ---------------------------------------------------------------------
  // Case
  // ---------------------------------------------------------------------

  function LowerChar(c: char): char {
    if 'A' <= c <= 'Z' then (c as int + 32) as char else c
  }

  /** `s.toLowerCase()` on ASCII letters. */
  function Lower(s: string): (r: string)
    ensures |r| == |s|
    ensures forall i :: 0 <= i < |s| ==> r[i] == LowerChar(s[i])
  {
    seq(|s|, i requires 0 <= i < |s| => LowerChar(s[i]))
  }

  lemma LowerIdempotent(s: string)
    ensures Lower(Lower(s)) == Lower(s)
  {
  }

  /** A string without capitals is its own lower case. */
  lemma LowerFixed(s: string)
    requires forall i :: 0 <= i < |s| ==> !('A' <= s[i] <= 'Z')
    ensures Lower(s) == s
  {
  }

  // ---------------------------------------------------------------------
  // Splitting, joining, trimming, replacing
  // ---------------------------------------------------------------------

  /** `parts.join(sep)`. */
  function Join(parts: seq<string>, sep: string): string
  {
    if |parts| == 0 then ""
    else if |parts| == 1 then parts[0]
    else parts[0] + sep + Join(parts[1..], sep)
  }

  /** Joining one more part adds the separator and the part. */
  lemma {:induction false} JoinSnoc(parts: seq<string>, x: string, sep: string)
    ensures Join(parts + [x], sep) == if parts == [] then x else Join(parts, sep) + sep + x
    decreases |parts|
  {
    if |parts| > 1 {
      assert (parts + [x])[1..] == parts[1..] + [x];
      JoinSnoc(parts[1..], x, sep);
    } else if |parts| == 1 {
      assert (parts + [x])[1..] == [x];
    }
  }

  /** `s.split(sep)` for a one-character separator. */
  function Split(s: string, sep: char): (parts: seq<string>)
    ensures |parts| >= 1
    ensures forall i :: 0 <= i < |parts| ==> sep !in parts[i]
    decreases |s|
  {
    if sep !in s then [s]
    else
      var i := FirstIndex(s, sep);
      [s[..i]] + Split(s[i + 1..], sep)
  }

  /** Joining the parts with the separator gives the string back. */
  lemma {:induction false} SplitJoin(s: string, sep: char)
    ensures Join(Split(s, sep), [sep]) == s
    decreases |s|
  {
    if sep in s {
      var i := FirstIndex(s, sep);
      var rest := Split(s[i + 1..], sep);
      SplitJoin(s[i + 1..], sep);
      assert Split(s, sep) == [s[..i]] + rest;
      assert ([s[..i]] + rest)[1..] == rest;
      assert s == s[..i] + [sep] + s[i + 1..];
    }
  }

  /** Splitting parts joined with a separator none of them holds gives the
      parts back. */
  lemma {:induction false} JoinSplit(parts: seq<string>, sep: char)
    requires |parts| >= 1
    requires forall i :: 0 <= i < |parts| ==> sep !in parts[i]
    ensures Split(Join(parts, [sep]), sep) == parts
    decreases |parts|
  {
    if |parts| > 1 {
      var rest := Join(parts[1..], [sep]);
      var s := parts[0] + [sep] + rest;
      var k := |parts[0]|;
      assert s[..k] == parts[0];
      assert s[k + 1..] == rest;
      FirstIndexAt(s, sep, k);
      assert Split(s, sep) == [parts[0]] + Split(rest, sep);
      JoinSplit(parts[1..], sep);
      assert parts == [parts[0]] + parts[1..];
    }
  }

  /** The first occurrence is the one with no occurrence before it. */
  lemma FirstIndexAt(s: string, c: char, k: nat)
    requires k < |s| && s[k] == c && c !in s[..k]
    ensures FirstIndex(s, c) == k
  {
  }

  function FirstIndex(s: string, c: char): (i: nat)
    requires c in s
    ensures i < |s| && s[i] == c && c !in s[..i]
  {
    if s[0] == c then 0 else 1 + FirstIndex(s[1..], c)
  }

  /** The white space and line terminators that `String.prototype.trim`
      removes (sections 12.2 and 12.3 of ECMA-262). */
  predicate IsWhiteSpace(c: char) {
    c == '\t' || c == '\n' || c == '\U{000B}' || c == '\U{000C}' || c == '\r' ||
    c == ' ' || c == '\U{00A0}' || c == '\U{1680}' || ('\U{2000}' <= c <= '\U{200A}') ||
    c == '\U{2028}' || c == '\U{2029}' || c == '\U{202F}' || c == '\U{205F}' ||
    c == '\U{3000}' || c == '\U{FEFF}'
  }

  function TrimStart(s: string): (r: string)
    ensures |r| <= |s| && r == s[|s| - |r|..]
    ensures r == [] || !IsWhiteSpace(r[0])
    ensures forall i :: 0 <= i < |s| - |r| ==> IsWhiteSpace(s[i])
  {
    if s != [] && IsWhiteSpace(s[0]) then TrimStart(s[1..]) else s
  }

  function TrimEnd(s: string): (r: string)
    ensures |r| <= |s| && r == s[..|r|]
    ensures r == [] || !IsWhiteSpace(r[|r| - 1])
    ensures forall i :: |r| <= i < |s| ==> IsWhiteSpace(s[i])
  {
    if s != [] && IsWhiteSpace(s[|s| - 1]) then TrimEnd(s[..|s| - 1]) else s
  }

  /** `s.trim()`: the infix left once the white space at both ends is
      removed, and only that white space. */
  function Trim(s: string): (r: string)
    ensures r == [] || (!IsWhiteSpace(r[0]) && !IsWhiteSpace(r[|r| - 1]))
    ensures exists a, b :: (0 <= a <= b <= |s| && r == s[a..b] &&
                            (forall i :: 0 <= i < a ==> IsWhiteSpace(s[i])) &&
                            (forall i :: b <= i < |s| ==> IsWhiteSpace(s[i])))
  {
    var t := TrimStart(s);
    var r := TrimEnd(t);
    var a := |s| - |t|;
    assert r == s[a..a + |r|];
    forall i | a + |r| <= i < |s|
      ensures IsWhiteSpace(s[i])
    {
      assert s[i] == t[i - a];
    }
    r
  }

  /** `s.replace(/c/g, repl)`. */
  function ReplaceAll(s: string, c: char, repl: string): (r: string)
    ensures c !in repl ==> c !in r
    ensures c !in s ==> r == s
    ensures |s| == 1 ==> r == (if s[0] == c then repl else s)
  {
    if s == [] then ""
    else (if s[0] == c then repl else [s[0]]) + ReplaceAll(s[1..], c, repl)
  }

  /** The replacement works piece by piece: with the single-character case
      above, every `c` becomes `repl` and every other character stays, in
      order. */
  lemma {:induction false} ReplaceAllConcat(a: string, b: string, c: char, repl: string)
    ensures ReplaceAll(a + b, c, repl) == ReplaceAll(a, c, repl) + ReplaceAll(b, c, repl)
    decreases |a|
  {
    if a == [] {
      assert a + b == b;
    } else {
      var piece := if a[0] == c then repl else [a[0]];
      var x, y := ReplaceAll(a[1..], c, repl), ReplaceAll(b, c, repl);
      calc {
        ReplaceAll(a + b, c, repl);
        { assert (a + b)[0] == a[0] && (a + b)[1..] == a[1..] + b;
          ReplaceAllFirst(a + b, c, repl); }
        piece + ReplaceAll(a[1..] + b, c, repl);
        { ReplaceAllConcat(a[1..], b, c, repl); }
        piece + (x + y);
        (piece + x) + y;
        { ReplaceAllFirst(a, c, repl); }
        ReplaceAll(a, c, repl) + y;
      }
    }
  }

  /** One step of the replacement: the first character's piece, then the rest. */
  lemma ReplaceAllFirst(s: string, c: char, repl: string)
    requires s != []
    ensures ReplaceAll(s, c, repl) ==
            (if s[0] == c then repl else [s[0]]) + ReplaceAll(s[1..], c, repl)
  {
  }

  // ---------------------------------------------------------------------
  // encodeURIComponent / decodeURIComponent
  // ---------------------------------------------------------------------

  const UriMalformed: string := "URIError: URI malformed"

  /** The characters `encodeURIComponent` leaves as they are. */
  predicate IsUnreserved(c: char) {
    ('A' <= c <= 'Z') || ('a' <= c <= 'z') || ('0' <= c <= '9') ||
    c == '-' || c == '_' || c == '.' || c == '!' || c == '~' || c == '*' ||
    c == '\'' || c == '(' || c == ')'
  }

  /** The upper-case hexadecimal digits a percent escape is written with. */
  predicate IsHexDigit(c: char) {
    ('0' <= c <= '9') || ('A' <= c <= 'F')
  }

  function HexDigit(d: nat): (c: char)
    requires d < 16
    ensures IsHexDigit(c)
  {
    if d < 10 then ('0' as int + d) as char else ('A' as int + d - 10) as char
  }

  function HexValue(c: char): Option<nat>
  {
    if '0' <= c <= '9' then Some(c as int - '0' as int)
    else if 'A' <= c <= 'F' then Some(c as int - 'A' as int + 10)
    else if 'a' <= c <= 'f' then Some(c as int - 'a' as int + 10)
    else None
  }

  lemma HexRoundTrip(d: nat)
    requires d < 16
    ensures HexValue(HexDigit(d)) == Some(d)
  {
  }

  predicate IsByte(b: int) { 0 <= b < 256 }

  /** The UTF-8 encoding of one Unicode scalar value. */
  function Utf8(c: char): (bytes: seq<int>)
    ensures 1 <= |bytes| <= 4
    ensures forall i :: 0 <= i < |bytes| ==> IsByte(bytes[i])
  {
    var n := c as int;
    if n < 0x80 then [n]
    else if n < 0x800 then [0xC0 + n / 64, 0x80 + n % 64]
    else if n < 0x10000 then [0xE0 + n / 4096, 0x80 + (n / 64) % 64, 0x80 + n % 64]
    else [0xF0 + n / 262144, 0x80 + (n / 4096) % 64, 0x80 + (n / 64) % 64, 0x80 + n % 64]
  }

  function PercentByte(b: int): string
    requires IsByte(b)
  {
    ['%', HexDigit(b / 16), HexDigit(b % 16)]
  }

  function PercentBytes(bytes: seq<int>): (r: string)
    requires forall i :: 0 <= i < |bytes| ==> IsByte(bytes[i])
    ensures |r| == 3 * |bytes|
  {
    if bytes == [] then "" else PercentByte(bytes[0]) + PercentBytes(bytes[1..])
  }

  function EncodeChar(c: char): (r: string)
    ensures |r| >= 1
  {
    if IsUnreserved(c) then [c] else PercentBytes(Utf8(c))
  }

  /** `encodeURIComponent(s)`. */
  function PercentEncode(s: string): string
  {
    if s == [] then "" else EncodeChar(s[0]) + PercentEncode(s[1..])
  }

  /** The byte written as `%HH` at index `k` of `s`, if there is one. */
  function ByteAt(s: string, k: nat): Option<int>
  {
    if k + 3 <= |s| && s[k] == '%' && HexValue(s[k + 1]).Some? && HexValue(s[k + 2]).Some? then
      Some(16 * HexValue(s[k + 1]).value + HexValue(s[k + 2]).value)
    else None
  }

  /** Number of bytes of the UTF-8 sequence a leading byte announces; 0 when
      the byte cannot lead a sequence. */
  function LeadLength(b: int): nat {
    if 0xC0 <= b <= 0xDF then 2
    else if 0xE0 <= b <= 0xEF then 3
    else if 0xF0 <= b <= 0xF7 then 4
    else 0
  }

  /** The `n - 1` continuation bytes written after the leading `%HH` of `s`. */
  function ContinuationValue(s: string, n: nat, i: nat, acc: int): Option<int>
    requires 1 <= i <= n
    decreases n - i
  {
    if i == n then Some(acc)
    else match ByteAt(s, 3 * i)
      case Some(b) =>
        if 0x80 <= b <= 0xBF then ContinuationValue(s, n, i + 1, acc * 64 + (b - 0x80)) else None
      case None => None
  }

  /** The code point a decoded UTF-8 sequence of `n` bytes may carry. */
  predicate ValidScalar(v: int, n: nat) {
    (n == 2 && 0x80 <= v < 0x800) ||
    (n == 3 && 0x800 <= v < 0x10000 && !(0xD800 <= v <= 0xDFFF)) ||
    (n == 4 && 0x10000 <= v <= 0x10FFFF)
  }

  /** Decodes the first character of a non-empty `s`: the character itself,
      or the escape sequence starting with `%`, and how much of `s` it took. */
  function DecodeOne(s: string): (r: Result<(char, nat), string>)
    requires s != []
    ensures r.Ok? ==> 1 <= r.value.1 <= |s|
    ensures r.Err? ==> r.error == UriMalformed
  {
    if s[0] != '%' then Ok((s[0], 1))
    else match ByteAt(s, 0)
      case None => Err(UriMalformed)
      case Some(b0) =>
        if b0 < 0x80 then Ok((b0 as char, 3)) else DecodeSequence(s, b0)
  }

  /** The escapes of a multi-byte UTF-8 sequence whose leading byte is `b0`. */
  function DecodeSequence(s: string, b0: int): (r: Result<(char, nat), string>)
    ensures r.Ok? ==> 6 <= r.value.1 <= |s|
    ensures r.Err? ==> r.error == UriMalformed
  {
    var n := LeadLength(b0);
    if n == 0 || |s| < 3 * n then Err(UriMalformed)
    else
      var lead := if n == 2 then b0 - 0xC0 else if n == 3 then b0 - 0xE0 else b0 - 0xF0;
      match ContinuationValue(s, n, 1, lead)
      case None => Err(UriMalformed)
      case Some(v) =>
        if ValidScalar(v, n) then Ok((v as char, 3 * n)) else Err(UriMalformed)
  }

  /** `decodeURIComponent(s)`; a malformed escape rejects with a URIError. */
  function PercentDecode(s: string): (r: Result<string, string>)
    ensures r.Err? ==> r.error == UriMalformed
    decreases |s|
  {
    if s == [] then Ok("")
    else
      var first :- DecodeOne(s);
      var rest :- PercentDecode(s[first.1..]);
      Ok([first.0] + rest)
  }

  lemma PercentByteAt(s: string, k: nat, b: int)
    requires IsByte(b)
    requires k + 3 <= |s| && s[k..k + 3] == PercentByte(b)
    ensures ByteAt(s, k) == Some(b)
  {
    assert s[k] == '%' && s[k + 1] == HexDigit(b / 16) && s[k + 2] == HexDigit(b % 16);
    HexRoundTrip(b / 16);
    HexRoundTrip(b % 16);
  }

  /** Reading a byte three characters further into `x + y`, with `x` one
      escape long, is reading it in `y`. */
  lemma ByteAtShift(x: string, y: string, k: nat)
    requires |x| == 3
    ensures ByteAt(x + y, k + 3) == ByteAt(y, k)
  {
    if k + 3 <= |y| {
      assert (x + y)[k + 3] == y[k] && (x + y)[k + 4] == y[k + 1] && (x + y)[k + 5] == y[k + 2];
    }
  }

  /** Byte `i` of an escaped byte sequence reads back as that byte, whatever follows. */
  lemma {:induction false} PercentBytesAt(bytes: seq<int>, rest: string, i: nat)
    requires forall j :: 0 <= j < |bytes| ==> IsByte(bytes[j])
    requires i < |bytes|
    ensures ByteAt(PercentBytes(bytes) + rest, 3 * i) == Some(bytes[i])
    decreases i
  {
    var head, tail := PercentByte(bytes[0]), PercentBytes(bytes[1..]);
    assert PercentBytes(bytes) + rest == head + (tail + rest);
    if i == 0 {
      assert (head + (tail + rest))[0..3] == head;
      PercentByteAt(head + (tail + rest), 0, bytes[0]);
    } else {
      PercentBytesAt(bytes[1..], rest, i - 1);
      ByteAtShift(head, tail + rest, 3 * (i - 1));
    }
  }

  /** Six more bits: `(m / 64) * 64 + m % 64 == m`, with `m / 64` the next digit up. */
  lemma SplitBase64(m: nat)
    ensures (m / 64) * 64 + m % 64 == m
  {
  }

  /** Dividing by 64 twice is dividing by 4096. */
  lemma DivDiv64(m: nat)
    ensures (m / 64) / 64 == m / 4096
  {
    var q := (m / 64) / 64;
    assert 64 * q <= m / 64 < 64 * (q + 1);
    assert 4096 * q <= m < 4096 * (q + 1);
  }

  /** The base-64 digits of a code point above the lead bits. */
  lemma ThreeDigits(n: nat)
    ensures (n / 4096) * 64 + (n / 64) % 64 == n / 64
    ensures (n / 64) * 64 + n % 64 == n
  {
    SplitBase64(n / 64);
    DivDiv64(n);
  }

  lemma ThreeLead(n: nat)
    requires 0x800 <= n < 0x10000
    ensures LeadLength(0xE0 + n / 4096) == 3
  {
  }

  lemma FourDigits(n: nat)
    requires n < 0x110000
    ensures (n / 262144) * 64 + (n / 4096) % 64 == n / 4096
    ensures LeadLength(0xF0 + n / 262144) == 4
  {
    SplitBase64(n / 4096);
    DivDiv64(n / 64);
    DivDiv64(n);
    assert (n / 4096) / 64 == n / 262144;
  }

  /** One continuation byte read: six more bits of the code point. */
  lemma ContinueWith(s: string, n: nat, i: nat, acc: int, b: int, next: int)
    requires 1 <= i < n
    requires ByteAt(s, 3 * i) == Some(b) && 0x80 <= b <= 0xBF
    requires next == acc * 64 + (b - 0x80)
    ensures ContinuationValue(s, n, i, acc) == ContinuationValue(s, n, i + 1, next)
  {
  }

  /** An escape that leads an `n`-byte sequence whose continuation bytes
      carry the code point `v`. */
  lemma DecodeLead(s: string, b0: int, n: nat, lead: int, v: int)
    requires |s| >= 3 * n && ByteAt(s, 0) == Some(b0) && b0 >= 0x80
    requires 2 <= n <= 4 && LeadLength(b0) == n
    requires lead == if n == 2 then b0 - 0xC0 else if n == 3 then b0 - 0xE0 else b0 - 0xF0
    requires ContinuationValue(s, n, 1, lead) == Some(v)
    requires ValidScalar(v, n)
    ensures DecodeOne(s) == Ok((v as char, 3 * n))
  {
    assert DecodeSequence(s, b0) == Ok((v as char, 3 * n));
  }

  lemma DecodeTwoBytes(c: char, rest: string)
    requires 0x80 <= c as int < 0x800
    ensures DecodeOne(PercentBytes(Utf8(c)) + rest) == Ok((c, 6))
  {
    var n := c as int;
    var bytes := [0xC0 + n / 64, 0x80 + n % 64];
    assert Utf8(c) == bytes;
    var s := PercentBytes(bytes) + rest;
    PercentBytesAt(bytes, rest, 0);
    PercentBytesAt(bytes, rest, 1);
    SplitBase64(n);
    ContinueWith(s, 2, 1, n / 64, bytes[1], n);
    DecodeLead(s, bytes[0], 2, n / 64, n);
  }

  lemma DecodeThreeBytes(c: char, rest: string)
    requires 0x800 <= c as int < 0x10000
    ensures DecodeOne(PercentBytes(Utf8(c)) + rest) == Ok((c, 9))
  {
    var n := c as int;
    var bytes := [0xE0 + n / 4096, 0x80 + (n / 64) % 64, 0x80 + n % 64];
    assert Utf8(c) == bytes;
    var s := PercentBytes(bytes) + rest;
    assert |s| >= 9;
    PercentBytesAt(bytes, rest, 0);
    PercentBytesAt(bytes, rest, 1);
    PercentBytesAt(bytes, rest, 2);
    ThreeDigits(n);
    ThreeLead(n);
    ContinueWith(s, 3, 1, n / 4096, bytes[1], n / 64);
    ContinueWith(s, 3, 2, n / 64, bytes[2], n);
    DecodeLead(s, bytes[0], 3, n / 4096, n);
  }

  lemma DecodeFourBytes(c: char, rest: string)
    requires 0x10000 <= c as int
    ensures DecodeOne(PercentBytes(Utf8(c)) + rest) == Ok((c, 12))
  {
    var n := c as int;
    var bytes := [0xF0 + n / 262144, 0x80 + (n / 4096) % 64, 0x80 + (n / 64) % 64, 0x80 + n % 64];
    assert Utf8(c) == bytes;
    DecodeFourFrom(n, bytes, rest);
  }

  lemma DecodeFourFrom(n: int, bytes: seq<int>, rest: string)
    requires 0x10000 <= n < 0x110000
    requires bytes == [0xF0 + n / 262144, 0x80 + (n / 4096) % 64, 0x80 + (n / 64) % 64, 0x80 + n % 64]
    ensures DecodeOne(PercentBytes(bytes) + rest) == Ok((n as char, 12))
  {
    var s := PercentBytes(bytes) + rest;
    assert |s| >= 12;
    PercentBytesAt(bytes, rest, 0);
    PercentBytesAt(bytes, rest, 1);
    PercentBytesAt(bytes, rest, 2);
    PercentBytesAt(bytes, rest, 3);
    ThreeDigits(n);
    FourDigits(n);
    ContinueWith(s, 4, 1, n / 262144, bytes[1], n / 4096);
    ContinueWith(s, 4, 2, n / 4096, bytes[2], n / 64);
    ContinueWith(s, 4, 3, n / 64, bytes[3], n);
    DecodeLead(s, bytes[0], 4, n / 262144, n);
  }

  /** Decoding the encoding of one character gives that character back and
      consumes exactly its encoding. */
  lemma DecodeEncodeChar(c: char, rest: string)
    ensures DecodeOne(EncodeChar(c) + rest) == Ok((c, |EncodeChar(c)|))
  {
    var n := c as int;
    if !IsUnreserved(c) {
      if n < 0x80 {
        PercentBytesAt(Utf8(c), rest, 0);
      } else if n < 0x800 {
        DecodeTwoBytes(c, rest);
      } else if n < 0x10000 {
        DecodeThreeBytes(c, rest);
      } else {
        DecodeFourBytes(c, rest);
      }
    }
  }

  /** `decodeURIComponent(encodeURIComponent(s)) === s` for every string. */
  lemma {:induction false} DecodeEncode(s: string)
    ensures PercentDecode(PercentEncode(s)) == Ok(s)
  {
    if s != [] {
      var e := EncodeChar(s[0]);
      var rest := PercentEncode(s[1..]);
      assert PercentEncode(s) == e + rest;
      DecodeEncodeChar(s[0], rest);
      assert (e + rest)[|e|..] == rest;
      DecodeEncode(s[1..]);
      assert [s[0]] + s[1..] == s;
    }
  }

  /** A string without `%` decodes to itself. */
  lemma {:induction false} DecodePlain(s: string)
    requires '%' !in s
    ensures PercentDecode(s) == Ok(s)
  {
    if s != [] {
      assert '%' !in s[1..];
      DecodePlain(s[1..]);
      assert [s[0]] + s[1..] == s;
    }
  }

  /** `encodeURIComponent` writes only unreserved characters, `%` and
      upper-case hexadecimal digits; in particular no `/`. */
  lemma {:induction false} EncodedChars(s: string)
    ensures forall i :: 0 <= i < |PercentEncode(s)| ==>
      IsUnreserved(PercentEncode(s)[i]) || PercentEncode(s)[i] == '%' || IsHexDigit(PercentEncode(s)[i])
  {
    if s != [] {
      var e := EncodeChar(s[0]);
      if !IsUnreserved(s[0]) {
        PercentBytesChars(Utf8(s[0]));
      }
      EncodedChars(s[1..]);
      var rest := PercentEncode(s[1..]);
      assert PercentEncode(s) == e + rest;
      forall i | 0 <= i < |e + rest|
        ensures IsUnreserved((e + rest)[i]) || (e + rest)[i] == '%' || IsHexDigit((e + rest)[i])
      {
        if i >= |e| {
          assert (e + rest)[i] == rest[i - |e|];
        }
      }
    }
  }

  lemma {:induction false} PercentBytesChars(bytes: seq<int>)
    requires forall i :: 0 <= i < |bytes| ==> IsByte(bytes[i])
    ensures forall i :: 0 <= i < |PercentBytes(bytes)| ==>
      PercentBytes(bytes)[i] == '%' || IsHexDigit(PercentBytes(bytes)[i])
    decreases |bytes|
  {
    if bytes != [] {
      PercentBytesChars(bytes[1..]);
      var h := PercentByte(bytes[0]);
      var rest := PercentBytes(bytes[1..]);
      forall i | 0 <= i < |h + rest|
        ensures (h + rest)[i] == '%' || IsHexDigit((h + rest)[i])
      {
        if i >= 3 {
          assert (h + rest)[i] == rest[i - 3];
        }
      }
    }
  }

  /** A string of unreserved characters is its own encoding. */
  lemma {:induction false} EncodeUnreserved(s: string)
    requires forall i :: 0 <= i < |s| ==> IsUnreserved(s[i])
    ensures PercentEncode(s) == s
  {
    if s != [] {
      EncodeUnreserved(s[1..]);
    }
  }

  // ---------------------------------------------------------------------
  // Ordering
  // ---------------------------------------------------------------------

  /** `a < b` on strings: lexicographic by character code, a proper prefix
      first. */
  predicate StrLess(a: string, b: string)
    decreases |a|
  {
    if a == [] then b != []
    else if b == [] then false
    else if a[0] != b[0] then a[0] < b[0]
    else StrLess(a[1..], b[1..])
  }

  /** `a <= b` on strings. */
  predicate StrLessEq(a: string, b: string) {
    a == b || StrLess(a, b)
  }

  lemma {:induction false} StrLessIrreflexive(a: string)
    ensures !StrLess(a, a)
    decreases |a|
  {
    if a != [] {
      StrLessIrreflexive(a[1..]);
    }
  }

  lemma {:induction false} StrLessTransitive(a: string, b: string, c: string)
    requires StrLess(a, b) && StrLess(b, c)
    ensures StrLess(a, c)
    decreases |a|
  {
    if a != [] && a[0] == b[0] && b[0] == c[0] {
      StrLessTransitive(a[1..], b[1..], c[1..]);
    }
  }

  /** Two different strings are ordered one way or the other. */
  lemma {:induction false} StrLessTotal(a: string, b: string)
    requires a != b
    ensures StrLess(a, b) || StrLess(b, a)
    decreases |a|
  {
    if a != [] && b != [] && a[0] == b[0] {
      assert a == [a[0]] + a[1..] && b == [b[0]] + b[1..];
      StrLessTotal(a[1..], b[1..]);
    }
  }

  lemma StrLessAsymmetric(a: string, b: string)
    requires StrLess(a, b)
    ensures !StrLess(b, a)
  {
    if StrLess(b, a) {
      StrLessTransitive(a, b, a);
      StrLessIrreflexive(a);
    }
  }

  lemma StrLessEqTransitive(a: string, b: string, c: string)
    requires StrLessEq(a, b) && StrLessEq(b, c)
    ensures StrLessEq(a, c)
  {
    if a != b && b != c {
      StrLessTransitive(a, b, c);
    }
  }
}
