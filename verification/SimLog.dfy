/** Masking wall-clock times in a log line, on the line's UTF-8 bytes. */
module SimLogs {
  import opened ByteStrings

  const DIGIT_0: bv8 := 0x30
  const DIGIT_9: bv8 := 0x39
  const PLUS: bv8 := 0x2B
  const DASH: bv8 := 0x2D
  const DOT: bv8 := 0x2E
  const COLON: bv8 := 0x3A
  const LESS: bv8 := 0x3C
  const LETTER_S: bv8 := 0x53
  const LETTER_T: bv8 := 0x54
  const LETTER_Z: bv8 := 0x5A

  /** The pattern `99:99:99.999999`; a 9 stands for a digit. */
  function Simple(): Bytes {
    [DIGIT_9, DIGIT_9, COLON, DIGIT_9, DIGIT_9, COLON, DIGIT_9, DIGIT_9, DOT,
     DIGIT_9, DIGIT_9, DIGIT_9, DIGIT_9, DIGIT_9, DIGIT_9]
  }

  /** The pattern `9999-99-99T99:99:99.999999ZS9999`; an S stands for a sign. */
  function Full(): Bytes {
    [DIGIT_9, DIGIT_9, DIGIT_9, DIGIT_9, DASH, DIGIT_9, DIGIT_9, DASH, DIGIT_9, DIGIT_9, LETTER_T]
    + Simple() + [LETTER_Z, LETTER_S, DIGIT_9, DIGIT_9, DIGIT_9, DIGIT_9]
  }

  /** The text `<wall-clock>`. */
  function MaskText(): Bytes {
    [LESS, 0x77, 0x61, 0x6C, 0x6C, DASH, 0x63, 0x6C, 0x6F, 0x63, 0x6B, 0x3E]
  }

  predicate IsDigit(b: bv8) {
    DIGIT_0 <= b <= DIGIT_9
  }

  predicate Fits(p: bv8, b: bv8) {
    if p == DIGIT_9 then IsDigit(b)
    else if p == LETTER_S then b == PLUS || b == DASH
    else p == b
  }

  predicate MatchesAt(bytes: Bytes, at: nat, pattern: Bytes) {
    && at + |pattern| <= |bytes|
    && forall i :: 0 <= i < |pattern| ==> Fits(pattern[i], bytes[at + i])
  }

  /** The length of the time rendered at this position, the full format tried first; 0 for none. */
  function TimeAt(bytes: Bytes, at: nat): nat {
    if MatchesAt(bytes, at, Full()) then |Full()|
    else if MatchesAt(bytes, at, Simple()) then |Simple()|
    else 0
  }

  /** The line with every time, found from left to right, replaced. */
  function Masked(bytes: Bytes): Bytes {
    if bytes == [] then []
    else
      var n := TimeAt(bytes, 0);
      if n > 0 then MaskText() + Masked(bytes[n..]) else [bytes[0]] + Masked(bytes[1..])
  }

  // UTF-8, as section 4 of RFC 3629 defines it.

  predicate Tail(b: bv8) {
    0x80 <= b <= 0xBF
  }

  predicate Second(lead: bv8, b: bv8) {
    if lead == 0xE0 then 0xA0 <= b <= 0xBF
    else if lead == 0xED then 0x80 <= b <= 0x9F
    else if lead == 0xF0 then 0x90 <= b <= 0xBF
    else if lead == 0xF4 then 0x80 <= b <= 0x8F
    else Tail(b)
  }

  /** How many bytes a character with this first byte has; 0 for a byte that starts none. */
  function CharLen(lead: bv8): nat {
    if lead <= 0x7F then 1
    else if 0xC2 <= lead <= 0xDF then 2
    else if 0xE0 <= lead <= 0xEF then 3
    else if 0xF0 <= lead <= 0xF4 then 4
    else 0
  }

  predicate IsChar(c: Bytes) {
    && c != [] && |c| == CharLen(c[0])
    && (|c| >= 2 ==> Second(c[0], c[1]))
    && forall i :: 2 <= i < |c| ==> Tail(c[i])
  }

  predicate Utf8(bytes: Bytes) {
    bytes == [] ||
    var n := CharLen(bytes[0]);
    0 < n <= |bytes| && IsChar(bytes[..n]) && Utf8(bytes[n..])
  }

  /** Where a string may be sliced: a slice at any other index panics. */
  predicate IsBoundary(bytes: Bytes, i: nat) {
    i <= |bytes| && (i == 0 || i == |bytes| || !Tail(bytes[i]))
  }

  function Slice(bytes: Bytes, from: nat, to: nat): Bytes
    requires from <= to && IsBoundary(bytes, from) && IsBoundary(bytes, to)
  {
    bytes[from..to]
  }

  method MaskWallClock(line: Bytes) returns (masked: Bytes)
    requires Utf8(line)
    ensures masked == Masked(line)
  {
    hide TimeAt, Masked, Utf8, MaskText, Full, Simple, IsBoundary;
    EndsAreBoundaries(line);
    masked := [];
    var copiedTo := 0;
    var at := 0;
    assert line[0..] == line && line[0..0] == [] && [] + Masked(line) == Masked(line);
    while at < |line|
      invariant 0 <= copiedTo <= at <= |line| && IsBoundary(line, copiedTo)
      invariant masked + line[copiedTo..at] + Masked(line[at..]) == Masked(line)
    {
      MaskedFrom(line, at);
      var n := TimeAt(line, at);
      ghost var rest := Masked(line[at + if n == 0 then 1 else n..]);
      if n == 0 {
        Regroup(masked, line[copiedTo..at], [line[at]], rest);
        assert line[copiedTo..at] + [line[at]] == line[copiedTo..at + 1];
        at := at + 1;
      } else {
        TimeHasBoundaries(line, at);
        Regroup(masked, line[copiedTo..at], MaskText(), rest);
        masked := masked + Slice(line, copiedTo, at) + MaskText();
        at := at + n;
        copiedTo := at;
        assert masked + line[at..at] == masked;
      }
    }
    assert line[at..] == [] && line[copiedTo..] == line[copiedTo..at];
    MaskedNone();
    masked := masked + Slice(line, copiedTo, |line|);
    assert masked + [] == masked;
  }

  lemma EndsAreBoundaries(line: Bytes)
    ensures IsBoundary(line, 0) && IsBoundary(line, |line|)
  {
  }

  lemma TimeHasBoundaries(line: Bytes, at: nat)
    requires Utf8(line) && TimeAt(line, at) > 0
    ensures IsBoundary(line, at) && IsBoundary(line, at + TimeAt(line, at))
  {
    hide TimeAt, Utf8;
    TimeIsAscii(line, at);
    TimeShifts(line, at);
    var last := at + TimeAt(line, at) - 1;
    assert line[last] <= 0x7F;
    AsciiEnds(line, last);
  }

  lemma TimeIsAscii(bytes: Bytes, at: nat)
    ensures var n := TimeAt(bytes, at);
            forall i :: at <= i < at + n ==> i < |bytes| && bytes[i] <= 0x7F
    ensures TimeAt(bytes, at) > 0 ==> at < |bytes| && IsDigit(bytes[at])
  {
    hide MaskText, Full, Simple;
    PatternShapes();
    PatternIsAscii(bytes, at, Full());
    PatternIsAscii(bytes, at, Simple());
    if MatchesAt(bytes, at, Full()) {
      assert Fits(Full()[0], bytes[at + 0]);
    } else if MatchesAt(bytes, at, Simple()) {
      assert Fits(Simple()[0], bytes[at + 0]);
    }
  }

  lemma PatternIsAscii(bytes: Bytes, at: nat, pattern: Bytes)
    requires forall i :: 0 <= i < |pattern| ==> PatternByte(pattern[i])
    ensures MatchesAt(bytes, at, pattern) ==> forall i :: at <= i < at + |pattern| ==> bytes[i] <= 0x7F
  {
    if MatchesAt(bytes, at, pattern) {
      forall i | at <= i < at + |pattern|
        ensures bytes[i] <= 0x7F
      {
        assert Fits(pattern[i - at], bytes[at + (i - at)]);
      }
    }
  }

  /** A character ends after an ASCII byte. */
  lemma {:induction false} AsciiEnds(bytes: Bytes, i: nat)
    requires Utf8(bytes) && i < |bytes| && bytes[i] <= 0x7F
    ensures IsBoundary(bytes, i + 1)
    decreases |bytes|
  {
    var n := CharLen(bytes[0]);
    var head := bytes[..n];
    assert forall k :: 1 <= k < n ==> head[k] == bytes[k] && Tail(head[k]);
    if i > 0 {
      assert n <= i;
      AsciiEnds(bytes[n..], i - n);
    } else {
      assert bytes[1..] == [] || CharLen(bytes[1..][0]) > 0;
    }
  }

  lemma Regroup(a: Bytes, b: Bytes, c: Bytes, d: Bytes)
    ensures a + b + (c + d) == a + (b + c) + d == (a + b + c) + d
  {
  }

  lemma MaskShape()
    ensures |MaskText()| > 0 && MaskText()[0] == LESS
    ensures forall i :: 0 <= i < |MaskText()| ==> MaskText()[i] <= 0x7F && !IsDigit(MaskText()[i])
  {
  }

  lemma PatternShapes()
    ensures |Full()| > 0 && |Simple()| > 0 && Full()[0] == Simple()[0] == DIGIT_9
    ensures forall i :: 0 <= i < |Full()| ==> PatternByte(Full()[i])
    ensures forall i :: 0 <= i < |Simple()| ==> PatternByte(Simple()[i])
  {
  }

  predicate PatternByte(p: bv8) {
    p <= 0x7F && p != LESS && (IsDigit(p) ==> p == DIGIT_9)
  }

  lemma MaskedStep(bytes: Bytes)
    requires bytes != []
    ensures var n := TimeAt(bytes, 0);
            n <= |bytes| && Masked(bytes) == if n > 0 then MaskText() + Masked(bytes[n..])
              else [bytes[0]] + Masked(bytes[1..])
  {
    hide MatchesAt, MaskText, Full, Simple;
    TimeShifts(bytes, 0);
  }

  lemma MaskedNone()
    ensures Masked([]) == []
  {
  }

  lemma TimeShifts(bytes: Bytes, at: nat)
    requires at <= |bytes|
    ensures TimeAt(bytes[at..], 0) == TimeAt(bytes, at)
    ensures at + TimeAt(bytes, at) <= |bytes|
  {
    hide MatchesAt, Full, Simple;
    if MatchesAt(bytes, at, Full()) {
      MatchFits(bytes, at, Full());
    } else if MatchesAt(bytes, at, Simple()) {
      MatchFits(bytes, at, Simple());
    }
    MatchShifts(bytes, at, Full());
    MatchShifts(bytes, at, Simple());
  }

  lemma MatchFits(bytes: Bytes, at: nat, pattern: Bytes)
    requires MatchesAt(bytes, at, pattern)
    ensures at + |pattern| <= |bytes|
  {
  }

  lemma MatchShifts(bytes: Bytes, at: nat, pattern: Bytes)
    requires at <= |bytes|
    ensures MatchesAt(bytes[at..], 0, pattern) <==> MatchesAt(bytes, at, pattern)
  {
    var rest := bytes[at..];
    assert forall i :: 0 <= i < |rest| ==> rest[i] == bytes[at + i];
    if MatchesAt(bytes, at, pattern) {
      assert forall i :: 0 <= i < |pattern| ==> Fits(pattern[i], bytes[at + i]) && rest[0 + i] == bytes[at + i];
    }
  }

  lemma MaskedFrom(line: Bytes, at: nat)
    requires at < |line|
    ensures var n := TimeAt(line, at);
            at + n <= |line|
            && Masked(line[at..]) == if n > 0 then MaskText() + Masked(line[at + n..])
                 else [line[at]] + Masked(line[at + 1..])
  {
    hide TimeAt, MaskText;
    TimeShifts(line, at);
    MaskedStep(line[at..]);
    var rest := line[at..];
    var n := TimeAt(line, at);
    assert rest[0] == line[at];
    assert rest[n..] == line[at + n..] && rest[1..] == line[at + 1..];
  }

  /** The leftmost time is replaced, a full rendering as a whole; what follows it is masked on its own. */
  lemma {:induction false} LeftmostTimeMasked(bytes: Bytes, at: nat, pattern: Bytes)
    requires pattern == Full() || (pattern == Simple() && !MatchesAt(bytes, at, Full()))
    requires MatchesAt(bytes, at, pattern)
    requires forall i :: 0 <= i < at ==> !MatchesAt(bytes, i, Full()) && !MatchesAt(bytes, i, Simple())
    ensures Masked(bytes) == bytes[..at] + MaskText() + Masked(bytes[at + |pattern|..])
  {
    hide Masked, MatchesAt, MaskText, Full, Simple;
    PatternShapes();
    MatchFits(bytes, at, pattern);
    assert forall i :: 0 <= i < at ==> TimeAt(bytes, i) == 0;
    assert TimeAt(bytes, at) == |pattern| > 0;
    MaskedFrom(bytes, at);
    CopiedUpTo(bytes, at);
    assert bytes[..at] + (MaskText() + Masked(bytes[at + |pattern|..])) ==
      bytes[..at] + MaskText() + Masked(bytes[at + |pattern|..]);
  }

  lemma {:induction false} CopiedUpTo(bytes: Bytes, at: nat)
    requires at <= |bytes| && forall i :: 0 <= i < at ==> TimeAt(bytes, i) == 0
    ensures Masked(bytes) == bytes[..at] + Masked(bytes[at..])
  {
    hide TimeAt, Masked, MaskText, Full, Simple;
    if at == 0 {
      assert bytes[0..] == bytes;
    } else {
      CopiedUpTo(bytes, at - 1);
      MaskedFrom(bytes, at - 1);
      assert bytes[..at - 1] + ([bytes[at - 1]] + Masked(bytes[at..])) == bytes[..at] + Masked(bytes[at..]);
    }
  }

  // Masking twice is masking once.

  predicate HasTime(bytes: Bytes) {
    exists i :: 0 <= i < |bytes| && TimeAt(bytes, i) > 0
  }

  /** As far as the masked line shows no mask, it shows the line. */
  lemma {:induction false} UnmaskedPrefix(bytes: Bytes, k: nat)
    requires k <= |Masked(bytes)| && LESS !in Masked(bytes)[..k]
    ensures k <= |bytes| && bytes[..k] == Masked(bytes)[..k]
  {
    hide TimeAt, Masked, MaskText, Full, Simple;
    if k > 0 {
      var out := Masked(bytes);
      assert out[..k][0] == out[0];
      MaskedNone();
      MaskedStep(bytes);
      MaskShape();
      assert TimeAt(bytes, 0) == 0;
      var rest := Masked(bytes[1..]);
      assert out[..k] == [bytes[0]] + rest[..k - 1];
      assert forall b :: b in rest[..k - 1] ==> b in out[..k];
      UnmaskedPrefix(bytes[1..], k - 1);
      assert bytes[..k] == [bytes[0]] + bytes[1..][..k - 1];
    }
  }

  lemma PatternExcludesMask(bytes: Bytes, pattern: Bytes)
    requires forall i :: 0 <= i < |pattern| ==> PatternByte(pattern[i])
    requires MatchesAt(bytes, 0, pattern)
    ensures LESS !in bytes[..|pattern|]
  {
    forall i | 0 <= i < |pattern|
      ensures bytes[i] != LESS
    {
      assert Fits(pattern[i], bytes[0 + i]);
    }
  }

  /** A time at the start of the masked line stood at the start of the line. */
  lemma MatchWasThere(bytes: Bytes, pattern: Bytes)
    requires forall i :: 0 <= i < |pattern| ==> PatternByte(pattern[i])
    requires MatchesAt(Masked(bytes), 0, pattern)
    ensures MatchesAt(bytes, 0, pattern)
  {
    var out := Masked(bytes);
    PatternExcludesMask(out, pattern);
    UnmaskedPrefix(bytes, |pattern|);
    forall i | 0 <= i < |pattern|
      ensures Fits(pattern[i], bytes[0 + i])
    {
      assert bytes[i] == bytes[..|pattern|][i] == out[..|pattern|][i] == out[0 + i];
    }
  }

  lemma TimeWasThere(bytes: Bytes)
    requires TimeAt(bytes, 0) == 0
    ensures TimeAt(Masked(bytes), 0) == 0
  {
    hide Masked, MaskText, Full, Simple;
    PatternShapes();
    if MatchesAt(Masked(bytes), 0, Full()) {
      MatchWasThere(bytes, Full());
    } else if MatchesAt(Masked(bytes), 0, Simple()) {
      MatchWasThere(bytes, Simple());
    }
  }

  lemma NoTimeInMask(rest: Bytes, i: nat)
    requires i < |MaskText()|
    ensures TimeAt(MaskText() + rest, i) == 0
  {
    hide TimeAt, MatchesAt, MaskText, Full, Simple;
    TimeIsAscii(MaskText() + rest, i);
    MaskShape();
    assert (MaskText() + rest)[i] == MaskText()[i];
  }

  lemma {:induction false} NothingLeft(bytes: Bytes, i: nat)
    requires i < |Masked(bytes)|
    ensures TimeAt(Masked(bytes), i) == 0
  {
    hide TimeAt, Masked, MatchesAt, MaskText, Full, Simple;
    MaskedNone();
    var out := Masked(bytes);
    MaskedStep(bytes);
    var n := TimeAt(bytes, 0);
    if n > 0 {
      var rest := Masked(bytes[n..]);
      if i < |MaskText()| {
        NoTimeInMask(rest, i);
      } else {
        NothingLeft(bytes[n..], i - |MaskText()|);
        assert out[|MaskText()|..] == rest;
        ShiftTwice(out, |MaskText()|, i - |MaskText()|);
      }
    } else if i == 0 {
      TimeWasThere(bytes);
    } else {
      NothingLeft(bytes[1..], i - 1);
      assert out[1..] == Masked(bytes[1..]);
      ShiftTwice(out, 1, i - 1);
    }
  }

  lemma ShiftTwice(bytes: Bytes, a: nat, b: nat)
    requires a + b <= |bytes|
    ensures TimeAt(bytes[a..], b) == TimeAt(bytes, a + b)
  {
    TimeShifts(bytes, a + b);
    TimeShifts(bytes[a..], b);
    assert bytes[a..][b..] == bytes[a + b..];
  }

  lemma {:induction false} WithoutTimesUnchanged(bytes: Bytes)
    requires forall i :: 0 <= i < |bytes| ==> TimeAt(bytes, i) == 0
    ensures Masked(bytes) == bytes
  {
    hide Masked, TimeAt, MaskText, Full, Simple;
    MaskedNone();
    if bytes != [] {
      MaskedStep(bytes);
      assert TimeAt(bytes, 0) == 0;
      forall i | 0 <= i < |bytes[1..]|
        ensures TimeAt(bytes[1..], i) == 0
      {
        ShiftTwice(bytes, 1, i);
      }
      WithoutTimesUnchanged(bytes[1..]);
    }
  }

  /**
    * A masked line shows no time at any position, so masking it again changes nothing; a line changes exactly when it
    * shows one.
    */
  lemma MaskingIsFinal(bytes: Bytes)
    ensures !HasTime(Masked(bytes))
    ensures Masked(Masked(bytes)) == Masked(bytes)
    ensures Masked(bytes) == bytes <==> !HasTime(bytes)
  {
    hide TimeAt, MaskText, Full, Simple;
    forall i | 0 <= i < |Masked(bytes)|
      ensures TimeAt(Masked(bytes), i) == 0
    {
      NothingLeft(bytes, i);
    }
    WithoutTimesUnchanged(Masked(bytes));
    if !HasTime(bytes) {
      WithoutTimesUnchanged(bytes);
    }
  }

  // Masking respects characters.

  lemma AsciiPrefix(bytes: Bytes, n: nat)
    requires Utf8(bytes) && n <= |bytes| && forall i :: 0 <= i < n ==> bytes[i] <= 0x7F
    ensures Utf8(bytes[n..])
  {
    if n > 0 {
      assert bytes[1..][n - 1..] == bytes[n..];
      AsciiPrefix(bytes[1..], n - 1);
    }
  }

  lemma AsciiPrepended(ascii: Bytes, rest: Bytes)
    requires Utf8(rest) && forall i :: 0 <= i < |ascii| ==> ascii[i] <= 0x7F
    ensures Utf8(ascii + rest)
  {
    if ascii == [] {
      assert ascii + rest == rest;
    } else {
      AsciiPrepended(ascii[1..], rest);
      assert (ascii + rest)[1..] == ascii[1..] + rest;
    }
  }

  lemma CharPrepended(c: Bytes, rest: Bytes)
    requires IsChar(c) && Utf8(rest)
    ensures Utf8(c + rest)
  {
    assert (c + rest)[..|c|] == c && (c + rest)[|c|..] == rest;
  }

  /** Bytes that are not digits are copied. */
  lemma {:induction false} NonDigitsCopied(bytes: Bytes, n: nat)
    requires n <= |bytes| && forall i :: 0 <= i < n ==> !IsDigit(bytes[i])
    ensures Masked(bytes) == bytes[..n] + Masked(bytes[n..])
  {
    hide TimeAt, Masked, MaskText, Full, Simple;
    if n > 0 {
      TimeIsAscii(bytes, 0);
      MaskedStep(bytes);
      NonDigitsCopied(bytes[1..], n - 1);
      assert bytes[1..][n - 1..] == bytes[n..];
      assert bytes[..n] == [bytes[0]] + bytes[1..][..n - 1];
    } else {
      assert bytes[0..] == bytes;
    }
  }

  /** The masked line is valid UTF-8 again. */
  lemma {:induction false} MaskedIsUtf8(bytes: Bytes)
    requires Utf8(bytes)
    ensures Utf8(Masked(bytes))
    decreases |bytes|
  {
    hide TimeAt, Masked, MaskText, Full, Simple;
    MaskedNone();
    if bytes != [] {
      TimeIsAscii(bytes, 0);
      MaskedStep(bytes);
      var n := TimeAt(bytes, 0);
      if n > 0 {
        AsciiPrefix(bytes, n);
        MaskedIsUtf8(bytes[n..]);
        MaskShape();
        AsciiPrepended(MaskText(), Masked(bytes[n..]));
      } else {
        var k := CharLen(bytes[0]);
        MaskedIsUtf8(bytes[k..]);
        CharPrepended(bytes[..k], Masked(bytes[k..]));
        if k > 1 {
          LongCharHasNoDigit(bytes[..k]);
          assert forall i :: 0 <= i < k ==> bytes[i] == bytes[..k][i];
          NonDigitsCopied(bytes, k);
        } else {
          assert bytes[..1] == [bytes[0]];
        }
      }
    }
  }

  lemma LongCharHasNoDigit(c: Bytes)
    requires IsChar(c) && |c| > 1
    ensures forall i :: 0 <= i < |c| ==> !IsDigit(c[i])
  {
  }

  // Lines that differ in their times only.

  /** Line `b` is line `a` with each of its times replaced by a time of the same format. */
  predicate SameButTimes(a: Bytes, b: Bytes)
    decreases |a|
  {
    && |a| == |b|
    && (a != [] ==>
          if MatchesAt(a, 0, Full()) then
            MatchesAt(b, 0, Full()) && SameButTimes(a[|Full()|..], b[|Full()|..])
          else if MatchesAt(a, 0, Simple()) then
            MatchesAt(b, 0, Simple()) && SameButTimes(a[|Simple()|..], b[|Simple()|..])
          else
            a[0] == b[0] && SameButTimes(a[1..], b[1..]))
  }

  const SIGN_AT: nat := 27

  predicate BothSigns(x: bv8, y: bv8) {
    (x == PLUS || x == DASH) && (y == PLUS || y == DASH)
  }

  /** The bytes are alike for every pattern, or they are signs and stand where the first time may have its sign. */
  predicate Alike(a: Bytes, b: Bytes, i: nat)
    requires i < |a| == |b|
  {
    a[i] == b[i] || (IsDigit(a[i]) && IsDigit(b[i])) || (i >= SIGN_AT && BothSigns(a[i], b[i]))
  }

  lemma MatchesAlike(a: Bytes, b: Bytes, pattern: Bytes, i: nat)
    requires i < |pattern| <= |a| == |b| && MatchesAt(a, 0, pattern) && MatchesAt(b, 0, pattern)
    requires PatternByte(pattern[i]) && (pattern[i] == LETTER_S ==> i >= SIGN_AT)
    ensures Alike(a, b, i)
  {
    assert Fits(pattern[i], a[0 + i]) && Fits(pattern[i], b[0 + i]);
  }

  lemma SignPlace()
    ensures forall i :: 0 <= i < |Full()| ==> (Full()[i] == LETTER_S <==> i == SIGN_AT)
    ensures forall i :: SIGN_AT < i < |Full()| ==> Full()[i] == DIGIT_9
    ensures LETTER_S !in Simple() && |Simple()| < SIGN_AT < |Full()|
  {
  }

  /** What follows the time or the byte at the front. */
  lemma SameRest(a: Bytes, b: Bytes)
    requires SameButTimes(a, b) && a != []
    ensures var n := TimeAt(a, 0);
            var k := if n > 0 then n else 1;
            k <= |a| && SameButTimes(a[k..], b[k..]) && (n == 0 ==> a[0] == b[0])
  {
  }

  lemma {:induction false} TimesAlike(a: Bytes, b: Bytes, i: nat)
    requires SameButTimes(a, b) && i < |a|
    ensures Alike(a, b, i)
    decreases |a|
  {
    hide MatchesAt, Full, Simple, MaskText;
    SignPlace();
    PatternShapes();
    SameRest(a, b);
    var n := TimeAt(a, 0);
    var k := if n > 0 then n else 1;
    if i >= k {
      TimesAlike(a[k..], b[k..], i - k);
    } else if n == |Full()| {
      MatchesAlike(a, b, Full(), i);
    } else if n == |Simple()| {
      MatchesAlike(a, b, Simple(), i);
    }
  }

  /** A time in `b` alone would need a sign byte among the digits after its own sign. */
  lemma NoNewTime(a: Bytes, b: Bytes, pattern: Bytes)
    requires SameButTimes(a, b) && (pattern == Full() || pattern == Simple())
    ensures MatchesAt(b, 0, pattern) ==> MatchesAt(a, 0, pattern)
  {
    hide Alike;
    if MatchesAt(b, 0, pattern) {
      forall i | 0 <= i < |pattern|
        ensures Fits(pattern[i], a[0 + i])
      {
        TimesAlike(a, b, i);
        assert Fits(pattern[i], b[0 + i]);
        FitsAlike(a, b, pattern, i);
      }
    }
  }

  lemma FitsAlike(a: Bytes, b: Bytes, pattern: Bytes, i: nat)
    requires i < |pattern| <= |a| == |b| && Alike(a, b, i) && Fits(pattern[i], b[i])
    requires pattern == Full() || pattern == Simple()
    ensures Fits(pattern[i], a[i])
  {
    hide Full, Simple;
    SignPlace();
    PatternShapes();
  }

  lemma SameTimeAt(a: Bytes, b: Bytes)
    requires SameButTimes(a, b) && a != []
    ensures TimeAt(a, 0) == TimeAt(b, 0)
  {
    hide MatchesAt, Full, Simple;
    NoNewTime(a, b, Full());
    NoNewTime(a, b, Simple());
  }

  /** Two runs whose lines differ only in their times write the same log. */
  lemma {:induction false} MaskedTimesDoNotShow(a: Bytes, b: Bytes)
    requires SameButTimes(a, b)
    ensures Masked(a) == Masked(b)
    decreases |a|
  {
    hide Masked, MaskText, TimeAt;
    if a == [] {
      assert b == [];
    } else {
      SameTimeAt(a, b);
      SameRest(a, b);
      MaskedStep(a);
      MaskedStep(b);
      var n := TimeAt(a, 0);
      var k := if n > 0 then n else 1;
      MaskedTimesDoNotShow(a[k..], b[k..]);
    }
  }
}
