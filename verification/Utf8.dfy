/** UTF-8: two independent validators (app/ipc_request.cpp, libs/v6core/src/scripts.cpp), the encoder
    (libs/v6utils/src/str_utils.cpp) and the bounded error text, against sections 3 and 4 of RFC 3629. */
module Utf8 {
  import opened Bytes

  predicate Tail(b: byte) { 0x80 <= b <= 0xBF }

  /** The length of the UTF8-char of the grammar in section 4 of RFC 3629 that `s` begins with, or 0. */
  function CharLen(s: seq<byte>): (n: nat)
    ensures n <= 4 && n <= |s|
  {
    if |s| == 0 then 0
    else if s[0] <= 0x7F then 1
    else if |s| < 2 then 0
    else if 0xC2 <= s[0] <= 0xDF then (if Tail(s[1]) then 2 else 0)
    else if |s| < 3 then 0
    else if 0xE0 <= s[0] <= 0xEF then
      (if (if s[0] == 0xE0 then 0xA0 <= s[1] <= 0xBF else if s[0] == 0xED then 0x80 <= s[1] <= 0x9F else Tail(s[1])) && Tail(s[2])
       then 3 else 0)
    else if |s| < 4 then 0
    else if 0xF0 <= s[0] <= 0xF4 then
      (if (if s[0] == 0xF0 then 0x90 <= s[1] <= 0xBF else if s[0] == 0xF4 then 0x80 <= s[1] <= 0x8F else Tail(s[1]))
          && Tail(s[2]) && Tail(s[3])
       then 4 else 0)
    else 0
  }

  /** UTF8-octets: a sequence of characters of the grammar. */
  predicate Valid(s: seq<byte>)
  {
    s == [] || (CharLen(s) > 0 && Valid(s[CharLen(s)..]))
  }

  // ---- Decoding and encoding --------------------------------------------------

  type CodePoint = n: nat | n <= 0x10FFFF

  predicate Scalar(c: CodePoint) { !(0xD800 <= c <= 0xDFFF) }

  predicate Scalars(ws: seq<CodePoint>) { forall i :: 0 <= i < |ws| ==> Scalar(ws[i]) }

  function DecodeChar(s: seq<byte>): (c: CodePoint)
    requires CharLen(s) > 0
    ensures Scalar(c)
  {
    var n := CharLen(s);
    var a: int, b: int := s[0], if n >= 2 then s[1] - 0x80 else 0;
    var c: int, d: int := if n >= 3 then s[2] - 0x80 else 0, if n >= 4 then s[3] - 0x80 else 0;
    if n == 1 then a
    else if n == 2 then 64 * (a - 0xC0) + b
    else if n == 3 then 64 * (64 * (a - 0xE0) + b) + c
    else 64 * (64 * (64 * (a - 0xF0) + b) + c) + d
  }

  function Decode(s: seq<byte>): (ws: seq<CodePoint>)
    requires Valid(s)
  {
    if s == [] then [] else [DecodeChar(s)] + Decode(s[CharLen(s)..])
  }

  /** The code point without its low six bits, and those bits. */
  function High6(c: nat): (q: nat) { c / 64 }
  function Low6(c: nat): (r: nat) { c % 64 }

  lemma Split6(q: nat, r: nat)
    requires r < 64
    ensures High6(64 * q + r) == q && Low6(64 * q + r) == r
  {
  }

  lemma Join6(c: nat)
    ensures c == 64 * High6(c) + Low6(c) && Low6(c) < 64
  {
  }

  /** The octets of section 3 of RFC 3629. */
  function EncodeChar(c: CodePoint): (s: seq<byte>)
    ensures 1 <= |s| <= 4
  {
    var q1 := High6(c);
    var q2 := High6(q1);
    var q3 := High6(q2);
    Join6(c);
    Join6(q1);
    Join6(q2);
    if c < 0x80 then [c]
    else if c < 0x800 then [0xC0 + q1, 0x80 + Low6(c)]
    else if c < 0x10000 then [0xE0 + q2, 0x80 + Low6(q1), 0x80 + Low6(c)]
    else [0xF0 + q3, 0x80 + Low6(q2), 0x80 + Low6(q1), 0x80 + Low6(c)]
  }

  function Encode(ws: seq<CodePoint>): (s: seq<byte>)
  {
    if ws == [] then [] else EncodeChar(ws[0]) + Encode(ws[1..])
  }

  lemma EncodedChar(c: CodePoint, rest: seq<byte>)
    ensures var s := EncodeChar(c) + rest;
            && (CharLen(s) > 0 <==> Scalar(c))
            && (Scalar(c) ==> CharLen(s) == |EncodeChar(c)| && DecodeChar(s) == c)
  {
    hide High6, Low6;
    Join6(c);
    Join6(High6(c));
    Join6(High6(High6(c)));
  }

  /** The encoding of a sequence of code points is valid exactly when none is a surrogate, and then decodes back. */
  lemma {:induction false} EncodeRoundTrip(ws: seq<CodePoint>)
    ensures Valid(Encode(ws)) <==> Scalars(ws)
    ensures Scalars(ws) ==> Decode(Encode(ws)) == ws
  {
    hide CharLen, DecodeChar, EncodeChar, Scalars, Scalar;
    if ws == [] {
      NoScalars();
    } else {
      var s, rest := Encode(ws), Encode(ws[1..]);
      EncodedChar(ws[0], rest);
      EncodeRoundTrip(ws[1..]);
      assert Scalars(ws) <==> Scalar(ws[0]) && Scalars(ws[1..]) by { SplitScalars(ws); }
      if Scalar(ws[0]) { assert s[CharLen(s)..] == rest; }
    }
  }

  lemma SplitScalars(ws: seq<CodePoint>)
    requires ws != []
    ensures Scalars(ws) <==> Scalar(ws[0]) && Scalars(ws[1..])
  {
    assert ws == [ws[0]] + ws[1..];
    if Scalar(ws[0]) && Scalars(ws[1..]) {
      forall i | 0 <= i < |ws| ensures Scalar(ws[i]) { if i > 0 { assert ws[i] == ws[1..][i - 1]; } }
    }
  }

  lemma DecodedChar(s: seq<byte>)
    requires CharLen(s) > 0
    ensures EncodeChar(DecodeChar(s)) == s[..CharLen(s)]
  {
    hide High6, Low6;
    var n := CharLen(s);
    var a: int, b: int := s[0], if n >= 2 then s[1] - 0x80 else 0;
    var c: int, d: int := if n >= 3 then s[2] - 0x80 else 0, if n >= 4 then s[3] - 0x80 else 0;
    if n == 2 {
      Split6(a - 0xC0, b);
    } else if n == 3 {
      Split6(a - 0xE0, b);
      Split6(64 * (a - 0xE0) + b, c);
    } else if n == 4 {
      Split6(a - 0xF0, b);
      Split6(64 * (a - 0xF0) + b, c);
      Split6(64 * (64 * (a - 0xF0) + b) + c, d);
    }
  }

  /** And every valid string is the encoding of what it decodes to. */
  lemma {:induction false} DecodeRoundTrip(s: seq<byte>)
    requires Valid(s)
    ensures Scalars(Decode(s)) && Encode(Decode(s)) == s
  {
    hide CharLen, DecodeChar, EncodeChar, Scalars;
    if s == [] {
      assert Scalars([]) by { NoScalars(); }
    } else {
      var n := CharLen(s);
      var ws := Decode(s);
      DecodedChar(s);
      DecodeRoundTrip(s[n..]);
      assert s == s[..n] + s[n..];
      assert ws[0] == DecodeChar(s) && ws[1..] == Decode(s[n..]);
      SplitScalars(ws);
    }
  }

  lemma NoScalars()
    ensures Scalars([])
  {
  }

  method AppendChar(before: seq<byte>, cp: CodePoint) returns (result: seq<byte>)
    ensures result == before + EncodeChar(cp)
  {
    hide High6, Low6;
    var q1 := High6(cp);
    var q2 := High6(q1);
    var q3 := High6(q2);
    Join6(cp);
    Join6(q1);
    Join6(q2);
    if cp < 0x80 {
      result := before + [cp];
    } else if cp < 0x800 {
      result := before + [0xC0 + q1, 0x80 + Low6(cp)];
    } else if cp < 0x10000 {
      result := before + [0xE0 + q2, 0x80 + Low6(q1), 0x80 + Low6(cp)];
    } else {
      result := before + [0xF0 + q3, 0x80 + Low6(q2), 0x80 + Low6(q1), 0x80 + Low6(cp)];
    }
  }

  /** The encoder's loop. */
  method StrWToStr(ws: seq<CodePoint>) returns (result: seq<byte>)
    ensures result == Encode(ws)
  {
    hide EncodeChar;
    result := [];
    var i := 0;
    while i < |ws|
      invariant 0 <= i <= |ws|
      invariant result + Encode(ws[i..]) == Encode(ws)
    {
      ghost var before := result;
      result := AppendChar(result, ws[i]);
      assert ws[i..][0] == ws[i] && ws[i..][1..] == ws[i + 1..];
      assert before + (EncodeChar(ws[i]) + Encode(ws[i + 1..])) == result + Encode(ws[i + 1..]);
      i := i + 1;
    }
    assert result + [] == result;
  }

  // ---- The validators ---------------------------------------------------------

  /** Six more bits per continuation byte. */
  function Folded(lead: nat, s: seq<byte>): (c: nat)
  {
    if s == [] then lead else Folded(lead, s[..|s| - 1]) * 64 + s[|s| - 1] % 64
  }

  predicate Tails(s: seq<byte>) { forall i :: 0 <= i < |s| ==> Tail(s[i]) }

  lemma FoldedUpTo3(lead: nat, s: seq<byte>)
    ensures |s| == 1 ==> Folded(lead, s) == lead * 64 + s[0] % 64
    ensures |s| == 2 ==> Folded(lead, s) == (lead * 64 + s[0] % 64) * 64 + s[1] % 64
    ensures |s| == 3 ==> Folded(lead, s) == ((lead * 64 + s[0] % 64) * 64 + s[1] % 64) * 64 + s[2] % 64
  {
    if 1 <= |s| <= 3 {
      assert Folded(lead, s[..|s| - 1][..0]) == lead || |s| == 1;
      if |s| >= 2 { FoldedUpTo3(lead, s[..|s| - 1]); }
    }
  }

  lemma FoldOne(lead: nat, s: seq<byte>, next: byte)
    requires Tails(s) && next / 64 == 2
    ensures Tails(s + [next]) && Folded(lead, s + [next]) == Folded(lead, s) * 64 + next % 64
  {
    assert Tail(next);
    assert (s + [next])[..|s + [next]| - 1] == s;
  }

  /** Reads `count` continuation bytes after `index`; both validators share this loop. */
  method FoldTails(value: seq<byte>, index: nat, count: nat, lead: nat) returns (ok: bool, codePoint: nat)
    requires index + count < |value|
    ensures ok <==> Tails(value[index + 1..index + 1 + count])
    ensures ok ==> codePoint == Folded(lead, value[index + 1..index + 1 + count])
  {
    hide Folded;
    codePoint := lead;
    NothingFolded(lead, value[index + 1..index + 1]);
    var offset := 1;
    while offset <= count
      invariant 1 <= offset <= count + 1
      invariant Tails(value[index + 1..index + offset])
      invariant codePoint == Folded(lead, value[index + 1..index + offset])
    {
      var next := value[index + offset];
      if next / 64 != 2 {
        assert value[index + 1..index + 1 + count][offset - 1] == next && !Tail(next);
        return false, codePoint;
      }
      FoldOne(lead, value[index + 1..index + offset], next);
      assert value[index + 1..index + offset + 1] == value[index + 1..index + offset] + [next];
      codePoint := codePoint * 64 + next % 64;
      offset := offset + 1;
    }
    ok := true;
  }

  /** Tests after the loop in ipc_request.cpp, for a lead byte in its ranges. */
  predicate IpcAccepts(first: byte, count: nat, codePoint: nat)
  {
    && (count == 1 ==> 0xC2 <= first <= 0xDF) && (count == 2 ==> 0xE0 <= first <= 0xEF) && (count == 3 ==> 0xF0 <= first <= 0xF4)
    && !((count == 2 && codePoint < 0x800) || (count == 3 && codePoint < 0x10000)
         || 0xD800 <= codePoint <= 0xDFFF || codePoint > 0x10FFFF)
  }

  /** Tests after the loop in scripts.cpp, for a lead byte with its masks. */
  predicate ScriptAccepts(first: byte, length: nat, codePoint: nat)
  {
    && (length == 2 ==> first / 32 == 6) && (length == 3 ==> first / 16 == 14) && (length == 4 ==> first / 8 == 30)
    && !((length == 2 && codePoint < 0x80) || (length == 3 && codePoint < 0x800) || (length == 4 && codePoint < 0x10000)
         || codePoint > 0x10FFFF || 0xD800 <= codePoint <= 0xDFFF)
  }

  function LeadBits(first: byte, count: nat): (r: nat)
  {
    if count == 1 then first % 32 else if count == 2 then first % 16 else first % 8
  }

  predicate Agrees(s: seq<byte>, count: nat, codePoint: nat)
    requires |s| > 0
  {
    && (IpcAccepts(s[0], count, codePoint) <==> CharLen(s) == count + 1)
    && (ScriptAccepts(s[0], count + 1, codePoint) <==> CharLen(s) == count + 1)
  }

  lemma NothingFolded(lead: nat, s: seq<byte>)
    requires s == []
    ensures Folded(lead, s) == lead
  {
  }

  lemma Accepted2(s: seq<byte>, t: byte)
    requires |s| > 1 && t == s[1] && Tail(t)
    ensures Agrees(s, 1, s[0] % 32 * 64 + t % 64)
  {
  }

  lemma Accepted3(s: seq<byte>, t: byte, u: byte)
    requires |s| > 2 && t == s[1] && u == s[2] && Tail(t) && Tail(u)
    ensures Agrees(s, 2, (s[0] % 16 * 64 + t % 64) * 64 + u % 64)
  {
    assert t % 64 == t - 0x80 && u % 64 == u - 0x80;
  }

  lemma Accepted4(s: seq<byte>, t: byte, u: byte, v: byte)
    requires |s| > 3 && t == s[1] && u == s[2] && v == s[3] && Tail(t) && Tail(u) && Tail(v)
    ensures Agrees(s, 3, ((s[0] % 8 * 64 + t % 64) * 64 + u % 64) * 64 + v % 64)
  {
    assert t % 64 == t - 0x80 && u % 64 == u - 0x80 && v % 64 == v - 0x80;
  }

  /** The code-point tests of each validator say the same as the byte ranges of the grammar. */
  lemma CharAccepted(s: seq<byte>, count: nat)
    requires 1 <= count <= 3 && |s| > count && Tails(s[1..count + 1])
    ensures Agrees(s, count, Folded(LeadBits(s[0], count), s[1..count + 1]))
  {
    hide Agrees;
    var t := s[1..count + 1];
    FoldedUpTo3(LeadBits(s[0], count), t);
    hide Folded;
    assert t[0] == s[1];
    if count == 1 { Accepted2(s, t[0]); }
    else if count == 2 { assert t[1] == s[2]; Accepted3(s, t[0], t[1]); }
    else { assert t[1] == s[2] && t[2] == s[3]; Accepted4(s, t[0], t[1], t[2]); }
  }

  lemma NoTails(s: seq<byte>, count: nat)
    requires 1 <= count <= 3 && |s| > count && !Tails(s[1..count + 1])
    ensures CharLen(s) != count + 1
  {
    if CharLen(s) == count + 1 {
      var t := s[1..count + 1];
      forall i | 0 <= i < |t| ensures Tail(t[i]) { assert t[i] == s[i + 1]; }
    }
  }

  lemma LeadDecides(s: seq<byte>)
    requires |s| > 0
    ensures var n := CharLen(s);
            && (n == 1 <==> s[0] <= 0x7F) && (n == 2 ==> 0xC2 <= s[0] <= 0xDF)
            && (n == 3 ==> 0xE0 <= s[0] <= 0xEF) && (n == 4 ==> 0xF0 <= s[0] <= 0xF4)
  {
  }

  lemma Skip(value: seq<byte>, index: nat, n: nat)
    requires index < |value| && CharLen(value[index..]) == n > 0
    ensures index + n <= |value| && (Valid(value[index..]) <==> Valid(value[index + n..]))
  {
    assert value[index..][n..] == value[index + n..];
  }

  lemma SliceFrom(value: seq<byte>, index: nat, n: nat)
    requires 1 <= n && index + n <= |value|
    ensures value[index..][1..n] == value[index + 1..index + n]
  {
  }

  /** The validator of app/ipc_request.cpp accepts exactly the strings of RFC 3629. */
  method IpcIsValidUtf8(value: seq<byte>) returns (r: bool)
    ensures r <==> Valid(value)
  {
    hide CharLen, Folded;
    var index := 0;
    assert value[0..] == value;
    while index < |value|
      invariant 0 <= index <= |value|
      invariant Valid(value) <==> Valid(value[index..])
    {
      ghost var rest := value[index..];
      LeadDecides(rest);
      var first := value[index];
      if first <= 0x7F {
        Skip(value, index, 1);
        index := index + 1;
        continue;
      }
      var count, lead := 0, 0;
      if 0xC2 <= first <= 0xDF { count, lead := 1, first % 32; }
      else if 0xE0 <= first <= 0xEF { count, lead := 2, first % 16; }
      else if 0xF0 <= first <= 0xF4 { count, lead := 3, first % 8; }
      else { return false; }
      if index + count >= |value| { return false; }
      var ok, codePoint := FoldTails(value, index, count, lead);
      SliceFrom(value, index, count + 1);
      if !ok { NoTails(rest, count); return false; }
      CharAccepted(rest, count);
      if (count == 2 && codePoint < 0x800) || (count == 3 && codePoint < 0x10000)
         || 0xD800 <= codePoint <= 0xDFFF || codePoint > 0x10FFFF { return false; }
      Skip(value, index, count + 1);
      index := index + count + 1;
    }
    r := true;
  }

  /** The validator of libs/v6core/src/scripts.cpp accepts exactly the same strings. */
  method ScriptIsValidUtf8(value: seq<byte>) returns (r: bool)
    ensures r <==> Valid(value)
  {
    hide CharLen, Folded;
    var index := 0;
    assert value[0..] == value;
    while index < |value|
      invariant 0 <= index <= |value|
      invariant Valid(value) <==> Valid(value[index..])
    {
      ghost var rest := value[index..];
      LeadDecides(rest);
      var first := value[index];
      var length, lead := 0, 0;
      if first <= 0x7F { length, lead := 1, first; }
      else if first / 32 == 6 { length, lead := 2, first % 32; }
      else if first / 16 == 14 { length, lead := 3, first % 16; }
      else if first / 8 == 30 { length, lead := 4, first % 8; }
      else { return false; }
      if index + length > |value| { return false; }
      var ok, codePoint := FoldTails(value, index, length - 1, lead);
      SliceFrom(value, index, length);
      if !ok { NoTails(rest, length - 1); return false; }
      if length > 1 { CharAccepted(rest, length - 1); } else { NothingFolded(lead, value[index + 1..index + 1]); }
      if (length == 2 && codePoint < 0x80) || (length == 3 && codePoint < 0x800) || (length == 4 && codePoint < 0x10000)
         || codePoint > 0x10FFFF || 0xD800 <= codePoint <= 0xDFFF { return false; }
      Skip(value, index, length);
      index := index + length;
    }
    r := true;
  }

  // ---- Cutting a text ---------------------------------------------------------

  const MAX_ERROR_BYTES := 4096

  /** A valid string has a valid prefix at most three bytes below any length. */
  lemma {:induction false} CutNear(s: seq<byte>, n: nat) returns (m: nat)
    requires Valid(s) && n <= |s|
    ensures m <= n <= m + 3 && Valid(s[..m])
  {
    hide CharLen;
    var k := CharLen(s);
    if n == 0 || n < k {
      m := 0;
    } else {
      var head, rest := s[..k], s[k..];
      m := CutNear(rest, n - k);
      HeadChar(s);
      ValidConcat(head, rest[..m]);
      assert head + rest[..m] == s[..k + m];
      m := k + m;
    }
  }

  lemma HeadChar(s: seq<byte>)
    requires CharLen(s) > 0
    ensures CharLen(s[..CharLen(s)]) == CharLen(s)
  {
  }

  lemma CharLenPrefix(a: seq<byte>, b: seq<byte>)
    requires CharLen(a) == |a| > 0
    ensures CharLen(a + b) == |a|
  {
  }

  lemma ValidConcat(a: seq<byte>, b: seq<byte>)
    requires a != [] && CharLen(a) == |a| && Valid(b)
    ensures Valid(a + b)
  {
    CharLenPrefix(a, b);
    hide CharLen;
    assert (a + b)[|a|..] == b;
  }

  /** The longest valid prefix of at most 4096 bytes; for an over-long valid text it loses at most three of them. */
  method BoundedError(error: seq<byte>) returns (r: seq<byte>)
    ensures |error| <= 4096 ==> r == error
    ensures |error| > 4096 ==> r <= error && Valid(r) && |r| <= 4096
    ensures |error| > 4096 ==> forall m :: |r| < m <= 4096 ==> !Valid(error[..m])
    ensures |error| > 4096 && Valid(error) ==> 4093 <= |r|
  {
    if |error| <= MAX_ERROR_BYTES { return error; }
    r := error[..MAX_ERROR_BYTES];
    while r != []
      invariant |r| <= MAX_ERROR_BYTES && r == error[..|r|]
      invariant forall m :: |r| < m <= MAX_ERROR_BYTES ==> !Valid(error[..m])
    {
      var ok := ScriptIsValidUtf8(r);
      if ok { break; }
      r := r[..|r| - 1];
    }
    if Valid(error) {
      var m := CutNear(error, MAX_ERROR_BYTES);
    }
  }
}
