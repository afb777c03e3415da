/** Scoreboard clock text, mm:ss or mm:ss.mmm, to milliseconds of match time and back. */
module ClockText {
  import opened Common

  predicate Ten(n: int, zero: int) {
    zero <= n < zero + 10
  }

  /** The digit zero of the ten characters that n is one of: the decimal digits of Unicode 14, which int() reads. */
  function ZeroOf(n: int): int {
    if Ten(n, 0x30) then 0x30 else if Ten(n, 0x660) then 0x660 else if Ten(n, 0x6f0) then 0x6f0
    else if Ten(n, 0x7c0) then 0x7c0 else if Ten(n, 0x966) then 0x966 else if Ten(n, 0x9e6) then 0x9e6
    else if Ten(n, 0xa66) then 0xa66 else if Ten(n, 0xae6) then 0xae6 else if Ten(n, 0xb66) then 0xb66
    else if Ten(n, 0xbe6) then 0xbe6 else if Ten(n, 0xc66) then 0xc66 else if Ten(n, 0xce6) then 0xce6
    else if Ten(n, 0xd66) then 0xd66 else if Ten(n, 0xde6) then 0xde6 else if Ten(n, 0xe50) then 0xe50
    else if Ten(n, 0xed0) then 0xed0 else if Ten(n, 0xf20) then 0xf20 else if Ten(n, 0x1040) then 0x1040
    else if Ten(n, 0x1090) then 0x1090 else if Ten(n, 0x17e0) then 0x17e0 else if Ten(n, 0x1810) then 0x1810
    else if Ten(n, 0x1946) then 0x1946 else if Ten(n, 0x19d0) then 0x19d0 else if Ten(n, 0x1a80) then 0x1a80
    else if Ten(n, 0x1a90) then 0x1a90 else if Ten(n, 0x1b50) then 0x1b50 else if Ten(n, 0x1bb0) then 0x1bb0
    else if Ten(n, 0x1c40) then 0x1c40 else if Ten(n, 0x1c50) then 0x1c50 else if Ten(n, 0xa620) then 0xa620
    else if Ten(n, 0xa8d0) then 0xa8d0 else if Ten(n, 0xa900) then 0xa900 else if Ten(n, 0xa9d0) then 0xa9d0
    else if Ten(n, 0xa9f0) then 0xa9f0 else if Ten(n, 0xaa50) then 0xaa50 else if Ten(n, 0xabf0) then 0xabf0
    else if Ten(n, 0xff10) then 0xff10 else if Ten(n, 0x104a0) then 0x104a0 else if Ten(n, 0x10d30) then 0x10d30
    else if Ten(n, 0x11066) then 0x11066 else if Ten(n, 0x110f0) then 0x110f0 else if Ten(n, 0x11136) then 0x11136
    else if Ten(n, 0x111d0) then 0x111d0 else if Ten(n, 0x112f0) then 0x112f0 else if Ten(n, 0x11450) then 0x11450
    else if Ten(n, 0x114d0) then 0x114d0 else if Ten(n, 0x11650) then 0x11650 else if Ten(n, 0x116c0) then 0x116c0
    else if Ten(n, 0x11730) then 0x11730 else if Ten(n, 0x118e0) then 0x118e0 else if Ten(n, 0x11950) then 0x11950
    else if Ten(n, 0x11c50) then 0x11c50 else if Ten(n, 0x11d50) then 0x11d50 else if Ten(n, 0x11da0) then 0x11da0
    else if Ten(n, 0x16a60) then 0x16a60 else if Ten(n, 0x16ac0) then 0x16ac0 else if Ten(n, 0x16b50) then 0x16b50
    else if Ten(n, 0x1d7ce) then 0x1d7ce else if Ten(n, 0x1d7d8) then 0x1d7d8 else if Ten(n, 0x1d7e2) then 0x1d7e2
    else if Ten(n, 0x1d7ec) then 0x1d7ec else if Ten(n, 0x1d7f6) then 0x1d7f6 else if Ten(n, 0x1e140) then 0x1e140
    else if Ten(n, 0x1e2f0) then 0x1e2f0 else if Ten(n, 0x1e950) then 0x1e950 else if Ten(n, 0x1fbf0) then 0x1fbf0
    else -1
  }

  predicate IsDigit(c: char) {
    ZeroOf(c as int) >= 0
  }

  predicate AllDigits(s: string) {
    forall i :: 0 <= i < |s| ==> IsDigit(s[i])
  }

  function DigitValue(c: char): nat
    requires IsDigit(c)
  {
    c as int - ZeroOf(c as int)
  }

  /** No digit is white space or one of the marks of a clock text. */
  lemma DigitIsPlain(c: char)
    requires IsDigit(c)
    ensures !IsSpace(c) && c != '.' && c != ':'
  {}

  /** The digit that is printed: one of '0' to '9'. */
  function Digit(n: nat): (c: char)
    requires n < 10
    ensures IsDigit(c) && DigitValue(c) == n
  {
    (n + '0' as int) as char
  }

  /** int() of a run of digits. */
  function Value(s: string): nat
    requires AllDigits(s)
  {
    if s == "" then 0 else 10 * Value(s[..|s| - 1]) + DigitValue(s[|s| - 1])
  }

  /** str() of a natural number. */
  function Decimal(n: nat): (s: string)
    ensures AllDigits(s) && s != ""
  {
    if n < 10 then [Digit(n)] else Decimal(n / 10) + [Digit(n % 10)]
  }

  function TwoDigits(n: nat): string
    requires n < 100
  {
    [Digit(n / 10), Digit(n % 10)]
  }

  function ThreeDigits(n: nat): string
    requires n < 1000
  {
    [Digit(n / 100), Digit(n / 10 % 10), Digit(n % 10)]
  }

  function Strip(s: string): string {
    if s != "" && IsSpace(s[0]) then Strip(s[1..])
    else if s != "" && IsSpace(s[|s| - 1]) then Strip(s[..|s| - 1])
    else s
  }

  /** text is raw with white space around it. */
  ghost predicate Around(before: string, raw: string, behind: string, text: string) {
    text == before + raw + behind && AllSpace(before) && AllSpace(behind)
  }

  lemma AroundFront(before: string, raw: string, behind: string, text: string)
    requires text != "" && IsSpace(text[0]) && Around(before, raw, behind, text[1..])
    ensures Around([text[0]] + before, raw, behind, text)
  {
    hide IsSpace;
    assert text == [text[0]] + text[1..];
  }

  lemma AroundBack(before: string, raw: string, behind: string, text: string)
    requires text != "" && IsSpace(text[|text| - 1]) && Around(before, raw, behind, text[..|text| - 1])
    ensures Around(before, raw, behind + [text[|text| - 1]], text)
  {
    hide IsSpace;
    assert text == text[..|text| - 1] + [text[|text| - 1]];
  }

  /** Stripping takes white space from both ends. */
  lemma {:induction false} StripTakes(text: string) returns (before: string, behind: string)
    ensures Around(before, Strip(text), behind, text)
  {
    hide IsSpace, Around;
    if text != "" && IsSpace(text[0]) {
      before, behind := StripTakes(text[1..]);
      AroundFront(before, Strip(text[1..]), behind, text);
      before := [text[0]] + before;
    } else if text != "" && IsSpace(text[|text| - 1]) {
      before, behind := StripTakes(text[..|text| - 1]);
      AroundBack(before, Strip(text[..|text| - 1]), behind, text);
      behind := behind + [text[|text| - 1]];
    } else {
      before, behind := "", "";
      AroundNone(text);
    }
  }

  lemma AroundNone(text: string)
    ensures Around("", text, "", text)
  {}

  /** All the white space: a text whose ends are not white space is what is left of it. */
  lemma {:induction false} StripLeaves(before: string, raw: string, behind: string)
    requires AllSpace(before) && AllSpace(behind) && raw != "" && !IsSpace(raw[0]) && !IsSpace(raw[|raw| - 1])
    ensures Strip(before + raw + behind) == raw
    decreases |before| + |behind|
  {
    hide IsSpace;
    var text := before + raw + behind;
    if before != "" {
      assert text[0] == before[0] && text[1..] == before[1..] + raw + behind;
      StripLeaves(before[1..], raw, behind);
    } else if behind != "" {
      assert text[0] == raw[0] && text[|text| - 1] == behind[|behind| - 1];
      assert text[..|text| - 1] == before + raw + behind[..|behind| - 1];
      StripLeaves(before, raw, behind[..|behind| - 1]);
    } else {
      assert text == raw;
    }
  }

  /** The first index of c, or the length of s. */
  function Find(s: string, c: char): (i: nat)
    ensures i <= |s| && (i < |s| ==> s[i] == c) && forall j :: 0 <= j < i ==> s[j] != c
  {
    if s == "" || s[0] == c then 0 else 1 + Find(s[1..], c)
  }

  /** Digits of a decimal fraction, as thousandths. */
  function Thousandths(frac: string): nat
    requires AllDigits(frac) && |frac| <= 3
  {
    Value(frac) * (if |frac| == 3 then 1 else if |frac| == 2 then 10 else if |frac| == 1 then 100 else 0)
  }

  function SecondsValue(seconds: string, frac: string): Option<nat> {
    if !(1 <= |seconds| <= 2) || !AllDigits(seconds) || !(1 <= |frac| <= 3) || !AllDigits(frac) || Value(seconds) > 59
    then None
    else Some(Value(seconds) * 1000 + Thousandths(frac))
  }

  /** The part after the colon: seconds, perhaps with a fraction, in milliseconds. */
  function ParseSeconds(rest: string): Option<nat> {
    var dot := Find(rest, '.');
    SecondsValue(rest[..dot], if dot == |rest| then "0" else rest[dot + 1..])
  }

  function ParseStripped(raw: string): Option<nat> {
    var colon := Find(raw, ':');
    if colon == |raw| || colon == 0 || !AllDigits(raw[..colon]) then None
    else
      var rest := ParseSeconds(raw[colon + 1..]);
      if rest.None? then None else Some(Value(raw[..colon]) * 60000 + rest.value)
  }

  /** None stands for the ValueError. */
  function Parse(text: string): Option<nat> {
    ParseStripped(Strip(text))
  }

  function Format(ms: int): string {
    var at := Max(0, ms);
    var text := Decimal(at / 60000) + ":" + TwoDigits(at % 60000 / 1000);
    if at % 1000 != 0 then text + "." + ThreeDigits(at % 1000) else text
  }

  lemma {:induction false} ValueDecimal(n: nat)
    ensures Value(Decimal(n)) == n
  {
    if n >= 10 {
      ValueDecimal(n / 10);
      assert Decimal(n)[..|Decimal(n)| - 1] == Decimal(n / 10);
    }
  }

  lemma ValueTwo(n: nat)
    requires n < 100
    ensures |TwoDigits(n)| == 2 && AllDigits(TwoDigits(n)) && Value(TwoDigits(n)) == n
  {
    var s := TwoDigits(n);
    assert s[..1] == [Digit(n / 10)] && s[..1][..0] == "";
    assert Value(s[..1]) == n / 10;
  }

  lemma ValueThree(n: nat)
    requires n < 1000
    ensures AllDigits(ThreeDigits(n)) && Value(ThreeDigits(n)) == n
  {
    var s := ThreeDigits(n);
    ValueTwo(n / 10);
    assert s[..2] == TwoDigits(n / 10);
  }

  lemma FindAfter(a: string, c: char, b: string)
    requires forall i :: 0 <= i < |a| ==> a[i] != c
    ensures Find(a + [c] + b, c) == |a|
  {
    var s := a + [c] + b;
    assert s[|a|] == c;
    assert forall i :: 0 <= i < |a| ==> s[i] == a[i];
  }

  /** A text whose ends are not white space is stripped of nothing. */
  lemma StripNone(s: string)
    requires s != "" && !IsSpace(s[0]) && !IsSpace(s[|s| - 1])
    ensures Strip(s) == s
  {}

  function WithFrac(seconds: string, frac: string): string {
    seconds + if frac == "" then "" else "." + frac
  }

  /** A run of digits has neither mark in it. */
  lemma DigitsOnly(s: string)
    requires AllDigits(s)
    ensures forall i :: 0 <= i < |s| ==> s[i] != '.' && s[i] != ':'
  {
    forall i | 0 <= i < |s| ensures s[i] != '.' && s[i] != ':' {
      DigitIsPlain(s[i]);
    }
  }

  lemma SecondsAlone(seconds: string)
    requires AllDigits(seconds) && 1 <= |seconds| <= 2 && Value(seconds) <= 59
    ensures ParseSeconds(seconds) == Some(Value(seconds) * 1000 + Thousandths(""))
  {
    hide Value, AllDigits, Thousandths, IsDigit, Find;
    DigitsOnly(seconds);
    assert Find(seconds, '.') == |seconds|;
    ZeroDigit();
    assert seconds[..|seconds|] == seconds;
  }

  lemma ZeroDigit()
    ensures AllDigits("0") && Thousandths("0") == Thousandths("") == 0
  {
    assert "0"[..0] == "" && Value("0") == 0;
  }

  lemma Beside(a: string, c: char, b: string)
    ensures (a + [c] + b)[..|a|] == a && (a + [c] + b)[|a| + 1..] == b && |a + [c] + b| == |a| + 1 + |b|
  {}

  lemma DotSplits(seconds: string, frac: string)
    requires forall i :: 0 <= i < |seconds| ==> seconds[i] != '.'
    ensures ParseSeconds(seconds + ['.'] + frac) == SecondsValue(seconds, frac)
  {
    hide SecondsValue, Find;
    Beside(seconds, '.', frac);
    FindAfter(seconds, '.', frac);
  }

  lemma SecondsWithFrac(seconds: string, frac: string)
    requires AllDigits(seconds) && 1 <= |seconds| <= 2 && Value(seconds) <= 59
    requires AllDigits(frac) && 1 <= |frac| <= 3
    ensures ParseSeconds(seconds + ['.'] + frac) == Some(Value(seconds) * 1000 + Thousandths(frac))
  {
    hide AllDigits, Value, Find, Thousandths, IsDigit, ParseSeconds;
    DigitsOnly(seconds);
    DotSplits(seconds, frac);
  }

  lemma SecondsParts(seconds: string, frac: string)
    requires AllDigits(seconds) && 1 <= |seconds| <= 2 && Value(seconds) <= 59
    requires AllDigits(frac) && |frac| <= 3
    ensures ParseSeconds(WithFrac(seconds, frac)) == Some(Value(seconds) * 1000 + Thousandths(frac))
  {
    hide ParseSeconds, AllDigits, Value, Thousandths;
    if frac == "" {
      assert seconds + "" == seconds;
      SecondsAlone(seconds);
    } else {
      assert seconds + ("." + frac) == seconds + ['.'] + frac;
      SecondsWithFrac(seconds, frac);
    }
  }

  lemma JoinedEnds(minutes: string, rest: string)
    requires minutes != "" && IsDigit(minutes[0]) && rest != "" && IsDigit(rest[|rest| - 1])
    ensures var text := minutes + ":" + rest; !IsSpace(text[0]) && !IsSpace(text[|text| - 1])
  {
    DigitIsPlain(minutes[0]);
    DigitIsPlain(rest[|rest| - 1]);
    hide IsDigit, IsSpace;
    var text := minutes + ":" + rest;
    assert text[0] == minutes[0] && text[|text| - 1] == rest[|rest| - 1];
  }

  lemma FirstDigit(s: string)
    requires AllDigits(s) && s != ""
    ensures IsDigit(s[0])
  {}

  lemma ColonSplits(minutes: string, rest: string)
    requires minutes != "" && AllDigits(minutes) && forall i :: 0 <= i < |minutes| ==> minutes[i] != ':'
    ensures var ms := ParseSeconds(rest);
            ParseStripped(minutes + [':'] + rest) ==
            if ms.None? then None else Some(Value(minutes) * 60000 + ms.value)
  {
    hide ParseSeconds, AllDigits, Value, Find;
    Beside(minutes, ':', rest);
    FindAfter(minutes, ':', rest);
  }

  lemma JoinedParses(minutes: string, rest: string, ms: nat)
    requires minutes != "" && AllDigits(minutes) && ParseSeconds(rest) == Some(ms)
    ensures ParseStripped(minutes + ":" + rest) == Some(Value(minutes) * 60000 + ms)
  {
    hide ParseSeconds, ParseStripped, AllDigits, Value;
    DigitsOnly(minutes);
    ColonSplits(minutes, rest);
    assert minutes + ":" + rest == minutes + [':'] + rest;
  }

  lemma LastDigit(seconds: string, frac: string)
    requires AllDigits(seconds) && seconds != "" && AllDigits(frac)
    ensures var rest := WithFrac(seconds, frac); rest != "" && IsDigit(rest[|rest| - 1])
  {
    var rest := WithFrac(seconds, frac);
    assert frac != "" ==> rest[|rest| - 1] == frac[|frac| - 1];
    assert frac == "" ==> rest == seconds;
  }

  lemma ParseIs(text: string)
    ensures Parse(text) == ParseStripped(Strip(text))
  {}

  /** The strict shape: minutes, one or two digits of seconds up to 59, at most three of a fraction. */
  ghost predicate Strict(minutes: string, seconds: string, frac: string) {
    && AllDigits(minutes) && minutes != ""
    && AllDigits(seconds) && 1 <= |seconds| <= 2 && Value(seconds) <= 59
    && AllDigits(frac) && |frac| <= 3
  }

  /** What a text of the strict shape means. */
  lemma ParseParts(minutes: string, seconds: string, frac: string)
    requires Strict(minutes, seconds, frac)
    ensures Parse(minutes + ":" + WithFrac(seconds, frac)) ==
            Some(Value(minutes) * 60000 + (Value(seconds) * 1000 + Thousandths(frac)))
  {
    hide AllDigits, IsDigit, Value, Thousandths, WithFrac, Find, Strip, ParseSeconds, ParseStripped, Parse;
    LastDigit(seconds, frac);
    FirstDigit(minutes);
    SecondsParts(seconds, frac);
    var rest := WithFrac(seconds, frac);
    JoinedParses(minutes, rest, Value(seconds) * 1000 + Thousandths(frac));
    JoinedEnds(minutes, rest);
    StripNone(minutes + ":" + rest);
    ParseIs(minutes + ":" + rest);
  }

  /** raw is a text of the strict shape that means ms. */
  ghost predicate Says(raw: string, ms: nat) {
    exists minutes, seconds, frac ::
      && Strict(minutes, seconds, frac) && raw == minutes + ":" + WithFrac(seconds, frac)
      && ms == Value(minutes) * 60000 + Value(seconds) * 1000 + Thousandths(frac)
  }

  lemma SecondsOnly(rest: string) returns (seconds: string, frac: string)
    requires ParseSeconds(rest).Some?
    ensures AllDigits(seconds) && 1 <= |seconds| <= 2 && Value(seconds) <= 59 && AllDigits(frac) && |frac| <= 3
    ensures rest == WithFrac(seconds, frac)
    ensures ParseSeconds(rest).value == Value(seconds) * 1000 + Thousandths(frac)
  {
    var dot := Find(rest, '.');
    seconds, frac := rest[..dot], if dot == |rest| then "" else rest[dot + 1..];
    ZeroDigit();
    hide Value, Thousandths, AllDigits, Find;
    if dot == |rest| {
      assert rest[..dot] + "" == rest;
    } else {
      assert rest == rest[..dot] + ("." + rest[dot + 1..]);
    }
  }

  lemma StrippedOnly(raw: string)
    requires ParseStripped(raw).Some?
    ensures Says(raw, ParseStripped(raw).value)
  {
    var colon := Find(raw, ':');
    hide ParseSeconds, Value, Thousandths, AllDigits, Find, WithFrac;
    var seconds, frac := SecondsOnly(raw[colon + 1..]);
    assert raw == raw[..colon] + ":" + raw[colon + 1..];
    assert Strict(raw[..colon], seconds, frac);
  }

  lemma SaysParses(raw: string, ms: nat)
    requires Says(raw, ms)
    ensures ParseStripped(raw) == Some(ms) && raw != "" && !IsSpace(raw[0]) && !IsSpace(raw[|raw| - 1])
  {
    hide ParseStripped, ParseSeconds, Value, Thousandths, AllDigits, IsDigit, IsSpace;
    var minutes, seconds, frac :|
      && Strict(minutes, seconds, frac) && raw == minutes + ":" + WithFrac(seconds, frac)
      && ms == Value(minutes) * 60000 + Value(seconds) * 1000 + Thousandths(frac);
    hide WithFrac;
    SecondsParts(seconds, frac);
    JoinedParses(minutes, WithFrac(seconds, frac), Value(seconds) * 1000 + Thousandths(frac));
    FirstDigit(minutes);
    LastDigit(seconds, frac);
    JoinedEnds(minutes, WithFrac(seconds, frac));
  }

  /** text is a text of the strict shape that means ms, perhaps with white space around it. */
  ghost predicate Accepts(text: string, ms: nat) {
    exists before, raw, behind :: Around(before, raw, behind, text) && Says(raw, ms)
  }

  /** Exactly the texts of the strict shape, with white space around them, are accepted, with their meaning. */
  lemma ParseIff(text: string, ms: nat)
    ensures Parse(text) == Some(ms) <==> Accepts(text, ms)
  {
    hide ParseStripped, Strip, Says, IsSpace;
    if Parse(text) == Some(ms) {
      var before, behind := StripTakes(text);
      StrippedOnly(Strip(text));
      assert Around(before, Strip(text), behind, text) && Says(Strip(text), ms);
    }
    if Accepts(text, ms) {
      var before, raw, behind :| Around(before, raw, behind, text) && Says(raw, ms);
      SaysParses(raw, ms);
      StripLeaves(before, raw, behind);
    }
  }

  lemma Split(at: nat)
    ensures at / 60000 * 60000 + (at % 60000 / 1000 * 1000 + at % 1000) == at
    ensures at % 60000 / 1000 <= 59
  {
    assert at % 60000 % 1000 == at % 1000;
  }

  function Millis(millis: nat): string
    requires millis < 1000
  {
    if millis == 0 then "" else ThreeDigits(millis)
  }

  lemma StrictIs(minutes: string, seconds: string, frac: string)
    requires AllDigits(minutes) && minutes != ""
    requires AllDigits(seconds) && 1 <= |seconds| <= 2 && Value(seconds) <= 59
    requires AllDigits(frac) && |frac| <= 3
    ensures Strict(minutes, seconds, frac)
  {}

  lemma MillisText(millis: nat)
    requires millis < 1000
    ensures AllDigits(Millis(millis)) && |Millis(millis)| <= 3 && Thousandths(Millis(millis)) == millis
  {
    ValueThree(millis);
  }

  lemma ThreeLong(n: nat)
    requires n < 1000
    ensures |ThreeDigits(n)| == 3
  {}

  lemma Rejoined(minutes: string, seconds: string, frac: string)
    ensures minutes + ":" + seconds + "." + frac == minutes + ":" + (seconds + ("." + frac))
    ensures minutes + ":" + seconds == minutes + ":" + (seconds + "")
  {}

  lemma PartsOf(minutes: string, seconds: string, millis: nat)
    requires millis < 1000
    ensures minutes + ":" + WithFrac(seconds, Millis(millis)) ==
            if millis != 0 then minutes + ":" + seconds + "." + ThreeDigits(millis) else minutes + ":" + seconds
  {
    hide ThreeDigits;
    Rejoined(minutes, seconds, ThreeDigits(millis));
    assert |ThreeDigits(millis)| == 3 by { ThreeLong(millis); }
  }

  lemma FormatParts(at: nat)
    ensures Format(at) == Decimal(at / 60000) + ":" + WithFrac(TwoDigits(at % 60000 / 1000), Millis(at % 1000))
  {
    hide Decimal, TwoDigits, ThreeDigits, WithFrac, Millis;
    PartsOf(Decimal(at / 60000), TwoDigits(at % 60000 / 1000), at % 1000);
  }

  /** Printing and parsing undo each other; a negative time prints as zero. */
  lemma ParseFormat(ms: int)
    ensures Parse(Format(ms)) == Some(Max(0, ms))
  {
    hide *;
    var at: nat := AtLeastZero(ms);
    FormatNegative(ms);
    Split(at);
    FormatParts(at);
    ValueDecimal(at / 60000);
    ValueTwo(at % 60000 / 1000);
    MillisText(at % 1000);
    StrictIs(Decimal(at / 60000), TwoDigits(at % 60000 / 1000), Millis(at % 1000));
    ParseParts(Decimal(at / 60000), TwoDigits(at % 60000 / 1000), Millis(at % 1000));
  }

  function AtLeastZero(ms: int): nat {
    Max(0, ms)
  }

  lemma FormatNegative(ms: int)
    ensures Format(ms) == Format(AtLeastZero(ms)) && AtLeastZero(ms) == Max(0, ms)
  {}

  /** Every accepted text has a canonical form with the same meaning; equal meanings have equal canonical forms. */
  lemma FormatParse(text: string, other: string)
    requires Parse(text).Some? && Parse(other).Some?
    ensures Parse(Format(Parse(text).value)) == Parse(text)
    ensures Format(Parse(text).value) == Format(Parse(other).value) <==> Parse(text) == Parse(other)
  {
    ParseFormat(Parse(text).value);
    ParseFormat(Parse(other).value);
  }
}
