/** Cutting panel lines to bytes of UTF-8, and a command with its lines to the engine's limit. */
module HudFit {
  import opened Common

  const MAX_COMMAND_BYTES := 1022

  /** Bytes of one character in UTF-8. */
  function CharBytes(c: char): (n: nat)
    ensures 1 <= n <= 4
  {
    var code := c as int;
    if code < 0x80 then 1 else if code < 0x800 then 2 else if code < 0x10000 then 3 else 4
  }

  function Bytes(s: string): nat {
    if s == "" then 0 else CharBytes(s[0]) + Bytes(s[1..])
  }

  /** Decoding the first `limit` bytes and ignoring a broken last character: the whole characters among them. */
  function Whole(s: string, limit: int): string {
    if s == "" || CharBytes(s[0]) > limit then "" else [s[0]] + Whole(s[1..], limit - CharBytes(s[0]))
  }

  function WithoutCaret(s: string): string {
    if s != "" && s[|s| - 1] == '^' then s[..|s| - 1] else s
  }

  function Fit(s: string, limit: nat): string {
    if Bytes(s) <= limit then s else WithoutCaret(Whole(s, limit))
  }

  lemma {:induction false} BytesTake(s: string, n: nat)
    requires n <= |s|
    ensures Bytes(s[..n]) + Bytes(s[n..]) == Bytes(s)
    ensures n < |s| ==> Bytes(s[..n]) < Bytes(s)
  {
    if n > 0 {
      BytesTake(s[1..], n - 1);
      assert s[1..][..n - 1] == s[..n][1..] && s[1..][n - 1..] == s[n..];
    } else if s != "" {
      assert s[..0] == "" && s[0..] == s;
    }
  }

  /** The whole characters are a prefix within the limit, and no longer prefix is. */
  lemma {:induction false} WholeIsLongest(s: string, limit: nat)
    ensures var w := Whole(s, limit);
            && w <= s && Bytes(w) <= limit
            && forall n :: |w| < n <= |s| ==> Bytes(s[..n]) > limit
  {
    if s != "" && CharBytes(s[0]) <= limit {
      var tail := s[1..];
      WholeIsLongest(tail, limit - CharBytes(s[0]));
      var w := Whole(s, limit);
      assert w[1..] == Whole(tail, limit - CharBytes(s[0]));
      forall n | |w| < n <= |s| ensures Bytes(s[..n]) > limit {
        assert s[..n][1..] == tail[..n - 1];
      }
    } else if s != "" {
      forall n | 0 < n <= |s| ensures Bytes(s[..n]) > limit {
        assert s[..n][0] == s[0];
      }
    }
  }

  /**
   A fitted text is a prefix cut between characters and within the limit; it is the longest such prefix,
   or one character short of it where that would end in half a colour code.
   */
  lemma FitMeans(s: string, limit: nat)
    ensures var f := Fit(s, limit);
            && f <= s && Bytes(f) <= limit
            && (Bytes(s) <= limit <==> f == s)
            && (f != s ==> || (forall n :: |f| < n <= |s| ==> Bytes(s[..n]) > limit)
                           || (s[|f|] == '^' && forall n :: |f| + 1 < n <= |s| ==> Bytes(s[..n]) > limit))
  {
    if Bytes(s) > limit {
      WholeIsLongest(s, limit);
      var w := Whole(s, limit);
      if w != "" && w[|w| - 1] == '^' {
        BytesTake(w, |w| - 1);
        assert s[|w| - 1] == w[|w| - 1];
      }
      assert w == s[..|w|] && (|w| == |s| ==> w == s);
    }
  }

  // ---- a command and its lines -----------------------------------------------------------------------

  /** Values of the four fields; None where a field is not in the dictionary, or not known. */
  datatype Part = Part(on: Option<string>, l1: Option<string>, l2: Option<string>, l3: Option<string>)

  const NOTHING := Part(None, None, None, None)

  function Pair(field: string, value: Option<string>): string {
    if value.None? then "" else "\\" + field + "\\" + value.value
  }

  /** command(), for values that are clean already; `head` is the text before the closing quote without our pairs. */
  function Command(head: string, changed: Part): string {
    head + Pair("mod_hud_on", changed.on) + Pair("mod_hud_l1", changed.l1)
    + Pair("mod_hud_l2", changed.l2) + Pair("mod_hud_l3", changed.l3) + "\""
  }

  /** The engine appends a line feed. */
  function Sent(head: string, changed: Part): nat {
    Bytes(Command(head, changed)) + 1
  }

  predicate Fits(head: string, changed: Part) {
    Sent(head, changed) <= MAX_COMMAND_BYTES
  }

  function LineBytes(value: Option<string>): nat {
    if value.None? then 0 else Bytes(value.value)
  }

  function AllLineBytes(p: Part): nat {
    LineBytes(p.l1) + LineBytes(p.l2) + LineBytes(p.l3)
  }

  predicate NoLines(p: Part) {
    AllLineBytes(p) == 0
  }

  predicate IsLongest(p: Part, bytes: nat) {
    LineBytes(p.l1) <= bytes && LineBytes(p.l2) <= bytes && LineBytes(p.l3) <= bytes
  }

  function Shorter(line: Option<string>, excess: nat): Option<string> {
    if line.None? then None else Some(Fit(line.value, Max(0, Bytes(line.value) - excess)))
  }

  lemma ShorterMeans(line: Option<string>, excess: nat)
    requires excess > 0
    ensures CutFrom(Shorter(line, excess), line)
    ensures LineBytes(line) > 0 ==> LineBytes(Shorter(line, excess)) < LineBytes(line)
  {
    if line.Some? {
      FitMeans(line.value, Max(0, Bytes(line.value) - excess));
    }
  }

  /** value is cut from whole, if the field was there at all. */
  predicate CutFrom(value: Option<string>, whole: Option<string>) {
    if whole.None? then value.None? else value.Some? && value.value <= whole.value
  }

  lemma CutFromItself(value: Option<string>)
    ensures CutFrom(value, value)
  {}

  /** The first of the longest lines loses the excess. */
  function CutOnce(head: string, changed: Part): Part
    requires !Fits(head, changed) && !NoLines(changed)
  {
    var excess := Sent(head, changed) - MAX_COMMAND_BYTES;
    if IsLongest(changed, LineBytes(changed.l1)) && changed.l1.Some? then changed.(l1 := Shorter(changed.l1, excess))
    else if IsLongest(changed, LineBytes(changed.l2))
        && changed.l2.Some? then changed.(l2 := Shorter(changed.l2, excess))
    else changed.(l3 := Shorter(changed.l3, excess))
  }

  /** One line that holds some text is cut, and nothing else. */
  lemma CutIs(head: string, changed: Part)
    requires !Fits(head, changed) && !NoLines(changed)
    ensures var p, excess := CutOnce(head, changed), Sent(head, changed) - MAX_COMMAND_BYTES;
            && excess > 0
            && (|| (p == changed.(l1 := Shorter(changed.l1, excess)) && LineBytes(changed.l1) > 0)
                || (p == changed.(l2 := Shorter(changed.l2, excess)) && LineBytes(changed.l2) > 0)
                || (p == changed.(l3 := Shorter(changed.l3, excess)) && LineBytes(changed.l3) > 0))
  {
    hide Shorter, Sent, Bytes;
  }

  /** The switch stays, the lines are cut, and the total of their bytes falls strictly. */
  lemma CutShrinks(head: string, changed: Part)
    requires !Fits(head, changed) && !NoLines(changed)
    ensures var p := CutOnce(head, changed);
            && p.on == changed.on && CutFrom(p.l1, changed.l1) && CutFrom(p.l2, changed.l2) && CutFrom(p.l3, changed.l3)
            && AllLineBytes(p) < AllLineBytes(changed)
  {
    hide Shorter, CutFrom, Fits, Sent, NoLines, CutOnce, LineBytes;
    CutIs(head, changed);
    var excess := Sent(head, changed) - MAX_COMMAND_BYTES;
    ShorterMeans(changed.l1, excess);
    ShorterMeans(changed.l2, excess);
    ShorterMeans(changed.l3, excess);
    CutFromItself(changed.l1);
    CutFromItself(changed.l2);
    CutFromItself(changed.l3);
  }

  ghost function Fitted(head: string, changed: Part): Part
    decreases AllLineBytes(changed)
  {
    if Fits(head, changed) || NoLines(changed) then changed
    else
      CutShrinks(head, changed);
      Fitted(head, CutOnce(head, changed))
  }

  method FittedCommand(head: string, changed: Part) returns (command: string, fitted: Part)
    ensures fitted == Fitted(head, changed) && command == Command(head, fitted)
  {
    fitted := changed;
    command := Command(head, fitted);
    while Bytes(command) + 1 > MAX_COMMAND_BYTES
      invariant command == Command(head, fitted) && Fitted(head, fitted) == Fitted(head, changed)
      decreases AllLineBytes(fitted)
    {
      if NoLines(fitted) {
        break;
      }
      CutShrinks(head, fitted);
      fitted := CutOnce(head, fitted);
      command := Command(head, fitted);
    }
  }

  /**
   The loop's result: the command is within the engine's limit, or nothing of ours is left to cut; the
   switch is untouched, every line is a prefix of its original, and a command that fits is left alone.
   */
  lemma {:induction false} FittedMeans(head: string, changed: Part)
    ensures var p := Fitted(head, changed);
            && (Fits(head, p) || NoLines(p))
            && p.on == changed.on && CutFrom(p.l1, changed.l1) && CutFrom(p.l2, changed.l2) && CutFrom(p.l3, changed.l3)
            && (Fits(head, changed) ==> p == changed)
    decreases AllLineBytes(changed)
  {
    if !Fits(head, changed) && !NoLines(changed) {
      CutShrinks(head, changed);
      hide Fits, NoLines, CutOnce;
      FittedMeans(head, CutOnce(head, changed));
    }
  }

  // ---- whether anything fits is known before the cutting -------------------------------------------------

  function Emptied(line: Option<string>): Option<string> {
    if line.None? then None else Some("")
  }

  /** The fields to send with every line cut to nothing. */
  function Bare(p: Part): Part {
    Part(p.on, Emptied(p.l1), Emptied(p.l2), Emptied(p.l3))
  }

  lemma BytesConcat(a: string, b: string)
    ensures Bytes(a + b) == Bytes(a) + Bytes(b)
  {
    BytesTake(a + b, |a|);
    assert (a + b)[..|a|] == a && (a + b)[|a|..] == b;
  }

  lemma PairBytes(field: string, value: Option<string>)
    ensures Bytes(Pair(field, value)) == Bytes(Pair(field, Emptied(value))) + LineBytes(value)
  {
    if value.Some? {
      var start := "\\" + field + "\\";
      BytesConcat(start, value.value);
      BytesConcat(start, "");
    }
  }

  lemma CommandBytes(head: string, a: string, b: string, c: string, d: string)
    ensures Bytes(head + a + b + c + d + "\"") == Bytes(head) + Bytes(a) + Bytes(b) + Bytes(c) + Bytes(d) + Bytes("\"")
  {
    hide Bytes;
    BytesConcat(head, a);
    BytesConcat(head + a, b);
    BytesConcat(head + a + b, c);
    BytesConcat(head + a + b + c, d);
    BytesConcat(head + a + b + c + d, "\"");
  }

  /** A command is its bare form and the bytes of the lines. */
  lemma SentIsBareAndLines(head: string, p: Part)
    ensures Sent(head, p) == Sent(head, Bare(p)) + AllLineBytes(p)
  {
    hide Bytes, Pair, LineBytes, Emptied;
    PairBytes("mod_hud_l1", p.l1);
    PairBytes("mod_hud_l2", p.l2);
    PairBytes("mod_hud_l3", p.l3);
    CommandBytes(head, Pair("mod_hud_on", p.on), Pair("mod_hud_l1", p.l1), Pair("mod_hud_l2", p.l2),
                 Pair("mod_hud_l3", p.l3));
    CommandBytes(head, Pair("mod_hud_on", p.on), Pair("mod_hud_l1", Emptied(p.l1)),
                 Pair("mod_hud_l2", Emptied(p.l2)), Pair("mod_hud_l3", Emptied(p.l3)));
  }

  lemma NoLinesIsBare(p: Part)
    requires NoLines(p)
    ensures p == Bare(p)
  {}

  lemma BareOfCut(p: Part, q: Part)
    requires p.on == q.on && CutFrom(p.l1, q.l1) && CutFrom(p.l2, q.l2) && CutFrom(p.l3, q.l3)
    ensures Bare(p) == Bare(q)
  {}

  /**
   The cut command fits exactly when the command without any line text does; and if that does not fit
   either, it is what is sent.
   */
  lemma FittedFitsIff(head: string, changed: Part)
    ensures Fits(head, Fitted(head, changed)) <==> Fits(head, Bare(changed))
    ensures !Fits(head, Bare(changed)) ==> Fitted(head, changed) == Bare(changed)
  {
    var p := Fitted(head, changed);
    FittedMeans(head, changed);
    BareOfCut(p, changed);
    SentIsBareAndLines(head, p);
    if NoLines(p) {
      NoLinesIsBare(p);
    }
    hide Fitted, Sent, Bare, AllLineBytes, CutFrom;
  }
}
