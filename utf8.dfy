/**
 * `String::from_utf8_lossy`, which the proof core applies to the callback's
 * error-message buffer before trimming its trailing NULs.
 *
 * Decoding walks the bytes as Rust's `Utf8Chunks` does: a well-formed
 * sequence of one to four bytes becomes its scalar value, and each maximal
 * prefix of an ill-formed sequence (a stray continuation byte, an over-long or
 * surrogate lead, or a sequence cut short by a bad byte or by the end of the
 * input) becomes one U+FFFD, decoding resuming at the byte that broke it.
 */
module Utf8 {

  import opened Wrappers

  const REPLACEMENT: char := '\U{FFFD}'

  /** The byte at `i`, or 0 past the end (0 is never a continuation byte). */
  function At(b: seq<byte>, i: nat): byte
  {
    if i < |b| then b[i] else 0
  }

  predicate IsContinuation(x: byte)
  {
    0x80 <= x <= 0xBF
  }

  /**
   * Decodes the character that starts `b`: how many bytes it takes and the
   * character they stand for.
   */
  function Step(b: seq<byte>): (r: (nat, char))
    requires |b| > 0
    ensures 1 <= r.0 <= |b|
    ensures forall j :: 1 <= j < r.0 ==> IsContinuation(b[j])
    ensures r.1 == NUL <==> b[0] == 0
    ensures r.1 == NUL ==> r.0 == 1
  {
    var b0 := b[0];
    if b0 < 0x80 then
      (1, b0 as char)
    else if 0xC2 <= b0 <= 0xDF then
      if IsContinuation(At(b, 1)) then (2, ((b0 - 0xC0) * 0x40 + (At(b, 1) - 0x80)) as char)
      else (1, REPLACEMENT)
    else if 0xE0 <= b0 <= 0xEF then
      var lo := if b0 == 0xE0 then 0xA0 else 0x80;
      var hi := if b0 == 0xED then 0x9F else 0xBF;
      if !(lo <= At(b, 1) <= hi) then (1, REPLACEMENT)
      else if !IsContinuation(At(b, 2)) then (2, REPLACEMENT)
      else (3, ((b0 - 0xE0) * 0x1000 + (At(b, 1) - 0x80) * 0x40 + (At(b, 2) - 0x80)) as char)
    else if 0xF0 <= b0 <= 0xF4 then
      var lo := if b0 == 0xF0 then 0x90 else 0x80;
      var hi := if b0 == 0xF4 then 0x8F else 0xBF;
      if !(lo <= At(b, 1) <= hi) then (1, REPLACEMENT)
      else if !IsContinuation(At(b, 2)) then (2, REPLACEMENT)
      else if !IsContinuation(At(b, 3)) then (3, REPLACEMENT)
      else (4, ((b0 - 0xF0) * 0x40000 + (At(b, 1) - 0x80) * 0x1000
                + (At(b, 2) - 0x80) * 0x40 + (At(b, 3) - 0x80)) as char)
    else
      (1, REPLACEMENT)
  }

  /** `String::from_utf8_lossy(b)`. */
  function FromUtf8Lossy(b: seq<byte>): string
    decreases |b|
  {
    if |b| == 0 then []
    else
      var (n, c) := Step(b);
      [c] + FromUtf8Lossy(b[n..])
  }

  /** Appending a zero byte appends exactly one NUL: a zero byte also ends any sequence it interrupts. */
  lemma {:induction false} AppendZero(b: seq<byte>)
    ensures FromUtf8Lossy(b + [0]) == FromUtf8Lossy(b) + [NUL]
    decreases |b|
  {
    var b' := b + [0];
    if |b| == 0 {
      assert b'[1..] == [];
    } else {
      assert forall i: nat :: At(b', i) == At(b, i);
      assert Step(b') == Step(b);
      var n := Step(b).0;
      assert b'[n..] == b[n..] + [0];
      AppendZero(b[n..]);
    }
  }

  /** Bytes that do not end in zero decode to text that does not end in NUL. */
  lemma {:induction false} NoTrailingNul(b: seq<byte>)
    requires |b| > 0 && b[|b| - 1] != 0
    ensures var d := FromUtf8Lossy(b); |d| > 0 && d[|d| - 1] != NUL
    decreases |b|
  {
    var n := Step(b).0;
    if n < |b| {
      NoTrailingNul(b[n..]);
    } else {
      assert b[n..] == [];
    }
  }

  /** The decoded text contains a NUL exactly when the bytes contain a zero byte: interior NULs survive decoding. */
  lemma {:induction false} NulIffZero(b: seq<byte>)
    ensures NUL in FromUtf8Lossy(b) <==> 0 in b
    decreases |b|
  {
    if |b| > 0 {
      var n := Step(b).0;
      NulIffZero(b[n..]);
      assert b == b[..n] + b[n..];
      assert 0 in b[..n] <==> b[0] == 0;
    }
  }

  /**
   * Trimming trailing NULs after decoding is decoding the buffer without its
   * trailing zero bytes.
   */
  lemma {:induction false} TrimAfterDecode(b: seq<byte>)
    ensures TrimEnd(FromUtf8Lossy(b), NUL) == FromUtf8Lossy(TrimEnd(b, 0))
    decreases |b|
  {
    if |b| > 0 && b[|b| - 1] == 0 {
      var p := b[..|b| - 1];
      assert b == p + [0];
      AppendZero(p);
      var d := FromUtf8Lossy(p);
      assert (d + [NUL])[..|d|] == d;
      TrimAfterDecode(p);
    } else if |b| > 0 {
      NoTrailingNul(b);
    }
  }

  /** The UTF-8 encoding of one character (`char::encode_utf8`). */
  function EncodeChar(c: char): (r: seq<byte>)
    ensures 1 <= |r| <= 4
  {
    var cp := c as int;
    if cp < 0x80 then [cp]
    else if cp < 0x800 then [0xC0 + cp / 0x40, 0x80 + cp % 0x40]
    else if cp < 0x10000 then [0xE0 + cp / 0x1000, 0x80 + (cp / 0x40) % 0x40, 0x80 + cp % 0x40]
    else [0xF0 + cp / 0x40000, 0x80 + (cp / 0x1000) % 0x40, 0x80 + (cp / 0x40) % 0x40, 0x80 + cp % 0x40]
  }

  /** The UTF-8 encoding of a string (`String::into_bytes`). */
  function ToUtf8(s: string): seq<byte>
  {
    if |s| == 0 then [] else EncodeChar(s[0]) + ToUtf8(s[1..])
  }

  /** Div/mod facts for splitting a code point into 6-bit groups. */
  lemma SixBitGroups(cp: nat)
    ensures cp == (cp / 0x40) * 0x40 + cp % 0x40
    ensures cp / 0x40 == (cp / 0x1000) * 0x40 + (cp / 0x40) % 0x40
    ensures cp / 0x1000 == (cp / 0x40000) * 0x40 + (cp / 0x1000) % 0x40
  {
  }

  lemma StepEncodeTwo(c: char, rest: seq<byte>)
    requires 0x80 <= c as int < 0x800
    ensures Step(EncodeChar(c) + rest) == (2, c)
  {
    var cp := c as int;
    var b := EncodeChar(c) + rest;
    SixBitGroups(cp);
    assert b[0] == 0xC0 + cp / 0x40 && At(b, 1) == 0x80 + cp % 0x40;
  }

  lemma StepEncodeThree(c: char, rest: seq<byte>)
    requires 0x800 <= c as int < 0x10000
    ensures Step(EncodeChar(c) + rest) == (3, c)
  {
    var cp := c as int;
    var b := EncodeChar(c) + rest;
    SixBitGroups(cp);
    assert cp / 0x1000 < 0x10;
    assert b[0] == 0xE0 + cp / 0x1000;
    assert At(b, 1) == 0x80 + (cp / 0x40) % 0x40;
    assert At(b, 2) == 0x80 + cp % 0x40;
  }

  lemma StepEncodeFour(c: char, rest: seq<byte>)
    requires 0x10000 <= c as int
    ensures Step(EncodeChar(c) + rest) == (4, c)
  {
    var cp := c as int;
    var b := EncodeChar(c) + rest;
    SixBitGroups(cp);
    assert cp / 0x40000 <= 4;
    assert b[0] == 0xF0 + cp / 0x40000;
    assert At(b, 1) == 0x80 + (cp / 0x1000) % 0x40;
    assert At(b, 2) == 0x80 + (cp / 0x40) % 0x40;
    assert At(b, 3) == 0x80 + cp % 0x40;
  }

  /** Decoding the encoding of `c` followed by anything reads back `c` and exactly its bytes. */
  lemma StepEncodeChar(c: char, rest: seq<byte>)
    ensures Step(EncodeChar(c) + rest) == (|EncodeChar(c)|, c)
  {
    var cp := c as int;
    if cp < 0x80 {
    } else if cp < 0x800 {
      StepEncodeTwo(c, rest);
    } else if cp < 0x10000 {
      StepEncodeThree(c, rest);
    } else {
      StepEncodeFour(c, rest);
    }
  }

  /** Well-formed UTF-8 decodes without loss: `from_utf8_lossy` inverts the encoder. */
  lemma {:induction false} LossyDecodesUtf8(s: string)
    ensures FromUtf8Lossy(ToUtf8(s)) == s
    decreases |s|
  {
    if |s| > 0 {
      var e := EncodeChar(s[0]);
      var b := ToUtf8(s);
      assert b == e + ToUtf8(s[1..]);
      StepEncodeChar(s[0], ToUtf8(s[1..]));
      assert b[|e|..] == ToUtf8(s[1..]);
      LossyDecodesUtf8(s[1..]);
    }
  }

  /** Decoding never yields more characters than there are bytes. */
  lemma {:induction false} LossyLength(b: seq<byte>)
    ensures |FromUtf8Lossy(b)| <= |b|
    decreases |b|
  {
    if |b| > 0 {
      LossyLength(b[Step(b).0..]);
    }
  }

  /** A NUL-free string encodes to bytes with no zero byte. */
  lemma {:induction false} EncodingHasNoZero(s: string)
    requires NUL !in s
    ensures 0 !in ToUtf8(s)
    decreases |s|
  {
    if |s| > 0 {
      assert s[0] != NUL && NUL !in s[1..];
      EncodingHasNoZero(s[1..]);
    }
  }
}
