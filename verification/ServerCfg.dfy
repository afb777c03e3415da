/**
 server.cfg as text: reading, setting and removing cvars line by line, against what the engine makes of
 the file when it executes it from top to bottom.
 */
module ServerCfg {
  import opened Common

  // ---- lines --------------------------------------------------------------------------------------

  predicate NoBreak(s: string) {
    forall i :: 0 <= i < |s| ==> !IsBreak(s[i])
  }

  function BreakAt(text: string): (i: nat)
    ensures i <= |text| && NoBreak(text[..i]) && (i < |text| ==> IsBreak(text[i]))
  {
    if text == "" || IsBreak(text[0]) then 0
    else
      var i := BreakAt(text[1..]);
      assert text[..1 + i] == [text[0]] + text[1..][..i];
      1 + i
  }

  /** str.splitlines(): a carriage return and a line feed are one break, and a last break opens no line. */
  function Lines(text: string): (lines: seq<string>)
    ensures forall i :: 0 <= i < |lines| ==> NoBreak(lines[i])
    decreases |text|
  {
    if text == "" then []
    else
      var i := BreakAt(text);
      if i == |text| then [text]
      else [text[..i]] + Lines(text[if text[i] == '\r' && i + 1 < |text|
          && text[i + 1] == '\n' then i + 2 else i + 1..])
  }

  /** '\n'.join(lines) + '\n' */
  function Joined(lines: seq<string>): string {
    if lines == [] then "\n" else if |lines| == 1 then lines[0] + "\n" else lines[0] + "\n" + Joined(lines[1..])
  }

  lemma {:induction false} BreakIsAt(line: string, rest: string)
    requires NoBreak(line)
    ensures BreakAt(line + "\n" + rest) == |line|
  {
    if line != "" {
      assert (line + "\n" + rest)[1..] == line[1..] + "\n" + rest;
      BreakIsAt(line[1..], rest);
    }
  }

  lemma LinesStep(line: string, rest: string)
    requires NoBreak(line)
    ensures Lines(line + "\n" + rest) == [line] + Lines(rest)
  {
    var text := line + "\n" + rest;
    BreakIsAt(line, rest);
    hide BreakAt, NoBreak;
    assert text[|line|] == '\n' && text[..|line|] == line && text[|line| + 1..] == rest;
  }

  /** Splitting undoes joining. */
  lemma {:induction false} LinesOfJoined(lines: seq<string>)
    requires lines != [] && forall i :: 0 <= i < |lines| ==> NoBreak(lines[i])
    ensures Lines(Joined(lines)) == lines
  {
    hide NoBreak, BreakAt, Lines;
    var rest := if |lines| == 1 then "" else Joined(lines[1..]);
    assert lines[0] + "\n" + "" == lines[0] + "\n";
    LinesStep(lines[0], rest);
    if |lines| > 1 {
      LinesOfJoined(lines[1..]);
      assert [lines[0]] + lines[1..] == lines;
    } else {
      NoLines();
      assert lines == [lines[0]] + [];
    }
  }

  lemma NoLines()
    ensures Lines("") == []
  {}

  // ---- one line -------------------------------------------------------------------------------------

  /** A `set` or `seta` line. */
  datatype Setting = Setting(indent: string, name: string, value: string)

  predicate IsWordChar(c: char) {
    'a' <= c <= 'z' || 'A' <= c <= 'Z' || '0' <= c <= '9' || c == '_'
  }

  predicate IsName(s: string) {
    s != "" && forall i :: 0 <= i < |s| ==> IsWordChar(s[i])
  }

  function SpaceRun(s: string): (n: nat)
    ensures n <= |s| && AllSpace(s[..n]) && (n < |s| ==> !IsSpace(s[n]))
  {
    if s == "" || !IsSpace(s[0]) then 0
    else
      var n := SpaceRun(s[1..]);
      assert s[..1 + n] == [s[0]] + s[1..][..n];
      1 + n
  }

  function WordRun(s: string): (n: nat)
    ensures n <= |s| && (n < |s| ==> !IsWordChar(s[n])) && forall i :: 0 <= i < n ==> IsWordChar(s[i])
  {
    if s == "" || !IsWordChar(s[0]) then 0 else 1 + WordRun(s[1..])
  }

  function ValueRun(s: string): (n: nat)
    ensures n <= |s| && forall i :: 0 <= i < n ==> !IsSpace(s[i]) && s[i] != '"'
  {
    if s == "" || IsSpace(s[0]) || s[0] == '"' then 0 else 1 + ValueRun(s[1..])
  }

  function QuoteAt(s: string): (n: nat)
    ensures n <= |s| && (n < |s| ==> s[n] == '"') && forall i :: 0 <= i < n ==> s[i] != '"'
  {
    if s == "" || s[0] == '"' then 0 else 1 + QuoteAt(s[1..])
  }

  /** The value: quoted, up to the next quote, or a bare word. */
  function ParseValue(s: string): Option<string> {
    if s == "" then None
    else if s[0] == '"' then
      var n := QuoteAt(s[1..]);
      if n == |s| - 1 then None else Some(s[1..][..n])
    else if ValueRun(s) == 0 then None else Some(s[..ValueRun(s)])
  }

  /** After `set` or `seta`: white space, the name, white space, the value. */
  function ParseAfterSet(indent: string, s: string): Option<Setting> {
    var gap := SpaceRun(s);
    var word := s[gap..];
    var n := WordRun(word);
    var tail := word[n..];
    var gap2 := SpaceRun(tail);
    if gap == 0 || n == 0 || gap2 == 0 then None
    else
      var value := ParseValue(tail[gap2..]);
      if value.None? then None else Some(Setting(indent, word[..n], value.value))
  }

  function ParseLine(line: string): Option<Setting> {
    var n := SpaceRun(line);
    var rest := line[n..];
    if |rest| >= 4 && rest[..4] == "seta" then ParseAfterSet(line[..n], rest[4..])
    else if |rest| >= 3 && rest[..3] == "set" then ParseAfterSet(line[..n], rest[3..])
    else None
  }

  function SetLine(indent: string, name: string, value: string): string {
    indent + "set " + name + " \"" + value + "\""
  }

  predicate IsValue(value: string) {
    forall i :: 0 <= i < |value| ==> value[i] != '"'
  }

  lemma {:induction false} SpaceRunIs(a: string, b: string)
    requires AllSpace(a) && (b != "" ==> !IsSpace(b[0]))
    ensures SpaceRun(a + b) == |a|
  {
    if a == "" {
      assert a + b == b;
    } else {
      assert (a + b)[1..] == a[1..] + b;
      SpaceRunIs(a[1..], b);
    }
  }

  lemma {:induction false} WordRunIs(a: string, b: string)
    requires (forall i :: 0 <= i < |a| ==> IsWordChar(a[i])) && (b != "" ==> !IsWordChar(b[0]))
    ensures WordRun(a + b) == |a|
  {
    if a == "" {
      assert a + b == b;
    } else {
      assert (a + b)[1..] == a[1..] + b;
      WordRunIs(a[1..], b);
    }
  }

  lemma ParseQuoted(value: string)
    requires IsValue(value)
    ensures ParseValue("\"" + value + "\"") == Some(value)
  {
    var s := "\"" + value + "\"";
    assert s[1..] == value + "\"";
    var t := value + "\"";
    assert t[|value|] == '"' && forall i :: 0 <= i < |value| ==> t[i] == value[i];
    assert QuoteAt(t) == |value|;
    assert t[..|value|] == value;
  }

  lemma ParseAfterSetIs(indent: string, name: string, value: string)
    requires IsName(name) && IsValue(value)
    ensures ParseAfterSet(indent, " " + name + " \"" + value + "\"") == Some(Setting(indent, name, value))
  {
    hide SpaceRun, WordRun, ParseValue, IsValue;
    var s := " " + name + " \"" + value + "\"";
    var quoted := "\"" + value + "\"";
    var tail := " " + quoted;
    assert s == " " + (name + tail);
    assert IsWordChar(name[0]) && (name + tail)[0] == name[0];
    SpaceRunIs(" ", name + tail);
    assert s[1..] == name + tail;
    WordRunIs(name, tail);
    assert (name + tail)[|name|..] == tail && (name + tail)[..|name|] == name;
    SpaceRunIs(" ", quoted);
    assert tail[1..] == quoted;
    ParseQuoted(value);
  }

  /** A written line reads back. */
  lemma ParseSetLine(indent: string, name: string, value: string)
    requires AllSpace(indent) && IsName(name) && IsValue(value)
    ensures ParseLine(SetLine(indent, name, value)) == Some(Setting(indent, name, value))
  {
    var line, after := SetLine(indent, name, value), " " + name + " \"" + value + "\"";
    assert line == indent + ("set" + after);
    assert ("set" + after)[0] == 's';
    SpaceRunIs(indent, "set" + after);
    var rest := "set" + after;
    assert line[..|indent|] == indent && line[|indent|..] == rest;
    assert rest[..3] == "set" && rest[3..] == after && rest[3] == ' ' && rest[..4][3] == ' ';
    assert "seta"[3] == 'a';
    ParseAfterSetIs(indent, name, value);
    hide ParseAfterSet;
  }

  lemma AfterSetShape(indent: string, s: string)
    requires ParseAfterSet(indent, s).Some?
    ensures ParseAfterSet(indent, s).value.indent == indent && IsName(ParseAfterSet(indent, s).value.name)
  {
    hide ParseValue;
  }

  lemma ParsedShape(line: string)
    requires ParseLine(line).Some? && NoBreak(line)
    ensures AllSpace(ParseLine(line).value.indent) && NoBreak(ParseLine(line).value.indent)
            && IsName(ParseLine(line).value.name)
  {
    var n := SpaceRun(line);
    hide ParseAfterSet, AllSpace, IsName, SpaceRun;
    var rest := line[n..];
    if |rest| >= 4 && rest[..4] == "seta" {
      AfterSetShape(line[..n], rest[4..]);
    } else {
      AfterSetShape(line[..n], rest[3..]);
    }
  }

  // ---- the whole file ---------------------------------------------------------------------------------

  datatype Cvar = Cvar(name: string, value: string)

  predicate Sets(line: string, name: string) {
    var s := ParseLine(line);
    s.Some? && s.value.name == name
  }

  predicate IsSet(lines: seq<string>, name: string) {
    exists i :: 0 <= i < |lines| && Sets(lines[i], name)
  }

  /** Executing the file: every line that sets a cvar overwrites it. */
  function Exec(lines: seq<string>): map<string, string> {
    if lines == [] then map[]
    else
      var before, s := Exec(lines[..|lines| - 1]), ParseLine(lines[|lines| - 1]);
      if s.Some? then before[s.value.name := s.value.value] else before
  }

  predicate Named(cvars: seq<Cvar>, name: string) {
    exists i :: 0 <= i < |cvars| && cvars[i].name == name
  }

  function ValueOf(cvars: seq<Cvar>, name: string): string
    requires Named(cvars, name)
  {
    if cvars[0].name == name then cvars[0].value else ValueOf(cvars[1..], name)
  }

  /** A dictionary of cvars: each name once, no quotes or line breaks in the values. */
  predicate IsDict(cvars: seq<Cvar>) {
    && (forall i, j :: 0 <= i < j < |cvars| ==> cvars[i].name != cvars[j].name)
    && (forall i :: 0 <= i < |cvars| ==> IsName(cvars[i].name) && IsValue(cvars[i].value) && NoBreak(cvars[i].value))
  }

  predicate Touched(line: string, cvars: seq<Cvar>) {
    var s := ParseLine(line);
    s.Some? && Named(cvars, s.value.name)
  }

  /** The lines, with the last one of each cvar rewritten and the others of it dropped. */
  function Rewritten(lines: seq<string>, cvars: seq<Cvar>): seq<string> {
    if lines == [] then []
    else
      var s, tail := ParseLine(lines[0]), Rewritten(lines[1..], cvars);
      if !Touched(lines[0], cvars) then [lines[0]] + tail
      else if IsSet(lines[1..], s.value.name) then tail
      else [SetLine(s.value.indent, s.value.name, ValueOf(cvars, s.value.name))] + tail
  }

  /** What rewriting puts in the place of one line, `rest` following it. */
  function Piece(head: string, rest: seq<string>, cvars: seq<Cvar>): seq<string> {
    if !Touched(head, cvars) then [head]
    else
      var s := ParseLine(head).value;
      if IsSet(rest, s.name) then [] else [SetLine(s.indent, s.name, ValueOf(cvars, s.name))]
  }

  function Missing(lines: seq<string>, cvars: seq<Cvar>): seq<string> {
    if cvars == [] then []
    else
      var before, c := Missing(lines, cvars[..|cvars| - 1]), cvars[|cvars| - 1];
      if IsSet(lines, c.name) then before else before + [SetLine("", c.name, c.value)]
  }

  function Upserted(lines: seq<string>, cvars: seq<Cvar>): seq<string> {
    Rewritten(lines, cvars) + Missing(lines, cvars)
  }

  function Stripped(lines: seq<string>, names: set<string>): seq<string> {
    if lines == [] then []
    else
      var before, s := Stripped(lines[..|lines| - 1], names), ParseLine(lines[|lines| - 1]);
      if s.Some? && s.value.name in names then before else before + [lines[|lines| - 1]]
  }

  function Names(cvars: seq<Cvar>): set<string> {
    set i | 0 <= i < |cvars| :: cvars[i].name
  }

  // ---- the three operations -----------------------------------------------------------------------------

  /** Where each of the cvars is set last. */
  method LastIndices(lines: seq<string>, cvars: seq<Cvar>) returns (last: map<string, nat>)
    ensures forall name :: name in last <==> Named(cvars, name) && IsSet(lines, name)
    ensures forall name :: name in last ==> last[name] < |lines| && Sets(lines[last[name]], name)
                                            && !IsSet(lines[last[name] + 1..], name)
  {
    last := map[];
    hide IsSet, Named, ParseLine;
    NothingSet();
    assert lines[..0] == [];
    for index := 0 to |lines|
      invariant forall name :: name in last <==> Named(cvars, name) && IsSet(lines[..index], name)
      invariant forall name :: name in last ==> last[name] < index && Sets(lines[last[name]], name)
                                                && !IsSet(lines[last[name] + 1..index], name)
    {
      var parsed := ParseLine(lines[index]);
      IsSetNext(lines, index);
      if parsed.Some? && HasName(cvars, parsed.value.name) {
        last := last[parsed.value.name := index];
        assert lines[index + 1..index + 1] == [];
      }
      forall name | name in last
        ensures last[name] < index + 1 && Sets(lines[last[name]], name)
                && !IsSet(lines[last[name] + 1..index + 1], name)
      {
        if last[name] < index {
          assert IsSet(lines[last[name] + 1..index + 1], name) <==>
                 IsSet(lines[last[name] + 1..index], name) || Sets(lines[index], name);
        }
      }
    }
    assert lines[..|lines|] == lines;
    forall name | name in last ensures !IsSet(lines[last[name] + 1..], name) {
      assert lines[last[name] + 1..|lines|] == lines[last[name] + 1..];
    }
  }

  lemma NothingSet()
    ensures forall name :: !IsSet([], name)
  {}

  lemma IsSetNext(lines: seq<string>, index: nat)
    requires index < |lines|
    ensures forall name :: IsSet(lines[..index + 1], name) <==> IsSet(lines[..index], name) || Sets(lines[index], name)
    ensures forall from, name :: 0 <= from <= index ==>
              (IsSet(lines[from..index + 1], name) <==> IsSet(lines[from..index], name) || Sets(lines[index], name))
  {
    hide IsSet, Sets;
    IsSetStep(lines, 0, index);
    assert lines[0..index] == lines[..index] && lines[0..index + 1] == lines[..index + 1];
    forall from, name | 0 <= from <= index
      ensures IsSet(lines[from..index + 1], name) <==> IsSet(lines[from..index], name) || Sets(lines[index], name)
    {
      IsSetStep(lines, from, index);
    }
  }

  method RewriteLines(lines: seq<string>, cvars: seq<Cvar>, last: map<string, nat>) returns (kept: seq<string>)
    requires forall name :: name in last <==> Named(cvars, name) && IsSet(lines, name)
    requires forall name :: name in last ==> last[name] < |lines| && Sets(lines[last[name]], name)
                                             && !IsSet(lines[last[name] + 1..], name)
    ensures kept == Rewritten(lines, cvars)
  {
    kept := [];
    hide IsSet, Named, ParseLine, SetLine, ValueOf, Rewritten;
    assert lines[0..] == lines;
    for index := 0 to |lines|
      invariant kept + Rewritten(lines[index..], cvars) == Rewritten(lines, cvars)
    {
      var parsed := ParseLine(lines[index]);
      ghost var piece := Piece(lines[index], lines[index + 1..], cvars);
      RewrittenAt(lines, cvars, index);
      Regroup(kept, piece, Rewritten(lines[index + 1..], cvars));
      ghost var more := kept + piece;
      if parsed.Some? && HasName(cvars, parsed.value.name) {
        var name := parsed.value.name;
        SomewhereSet(lines, index, name);
        LastOrLater(lines, index, last[name], name);
        if last[name] == index {
          kept := kept + [SetLine(parsed.value.indent, name, ValueOf(cvars, name))];
        }
      } else {
        kept := kept + [lines[index]];
      }
      assert kept == more;
    }
    RewrittenEnd(lines, cvars);
  }

  /** One line further: dropped, rewritten or kept. */
  lemma RewrittenPiece(lines: seq<string>, cvars: seq<Cvar>)
    requires lines != []
    ensures Rewritten(lines, cvars) == Piece(lines[0], lines[1..], cvars) + Rewritten(lines[1..], cvars)
  {
    hide IsSet, ParseLine, SetLine, ValueOf, Named;
  }

  lemma RewrittenAt(lines: seq<string>, cvars: seq<Cvar>, index: nat)
    requires index < |lines|
    ensures Rewritten(lines[index..], cvars) ==
            Piece(lines[index], lines[index + 1..], cvars) + Rewritten(lines[index + 1..], cvars)
  {
    RewrittenPiece(lines[index..], cvars);
    hide Piece, Rewritten;
    assert lines[index..][1..] == lines[index + 1..] && lines[index..][0] == lines[index];
  }

  lemma RewrittenEnd(lines: seq<string>, cvars: seq<Cvar>)
    ensures Rewritten(lines[|lines|..], cvars) == []
  {}

  lemma SomewhereSet(lines: seq<string>, index: nat, name: string)
    requires index < |lines| && Sets(lines[index], name)
    ensures IsSet(lines, name)
  {}

  method UpsertCvars(text: string, cvars: seq<Cvar>) returns (out: string)
    ensures out == Joined(Upserted(Lines(text), cvars))
  {
    var lines := Lines(text);
    var last := LastIndices(lines, cvars);
    var kept := RewriteLines(lines, cvars, last);
    var added: seq<string> := [];
    hide IsSet, SetLine, Lines, Rewritten, Joined;
    for i := 0 to |cvars|
      invariant added == Missing(lines, cvars[..i])
    {
      assert cvars[..i + 1][..i] == cvars[..i];
      assert Named(cvars, cvars[i].name);
      if cvars[i].name !in last {
        added := added + [SetLine("", cvars[i].name, cvars[i].value)];
      }
    }
    assert cvars[..|cvars|] == cvars;
    out := Joined(kept + added);
  }

  function HasName(cvars: seq<Cvar>, name: string): (b: bool)
    ensures b == Named(cvars, name)
  {
    exists i :: 0 <= i < |cvars| && cvars[i].name == name
  }

  lemma IsSetStep(lines: seq<string>, from: nat, to: nat)
    requires from <= to < |lines|
    ensures forall name :: IsSet(lines[from..to + 1], name) <==> IsSet(lines[from..to], name) || Sets(lines[to], name)
  {
    hide Sets;
    forall name ensures IsSet(lines[from..to + 1], name) <==> IsSet(lines[from..to], name) || Sets(lines[to], name) {
      var more, less := lines[from..to + 1], lines[from..to];
      assert more == less + [lines[to]];
      if IsSet(less, name) {
        var i :| 0 <= i < |less| && Sets(less[i], name);
        assert Sets(more[i], name);
      }
      if Sets(lines[to], name) {
        assert Sets(more[|less|], name);
      }
      if IsSet(more, name) && !IsSet(less, name) {
        var i :| 0 <= i < |more| && Sets(more[i], name);
        assert i < |less| ==> Sets(less[i], name);
      }
    }
  }

  lemma IsSetFrom(lines: seq<string>, from: nat, name: string)
    requires from <= |lines|
    ensures IsSet(lines[from..], name) <==> exists k :: from <= k < |lines| && Sets(lines[k], name)
  {
    var tail := lines[from..];
    if IsSet(tail, name) {
      var i :| 0 <= i < |tail| && Sets(tail[i], name);
      assert Sets(lines[from + i], name);
    }
    if k :| from <= k < |lines| && Sets(lines[k], name) {
      assert tail[k - from] == lines[k];
    }
  }

  /** The recorded index is the last line that sets the cvar. */
  lemma LastOrLater(lines: seq<string>, index: nat, last: nat, name: string)
    requires index < |lines| && last < |lines| && Sets(lines[index], name) && Sets(lines[last], name)
    requires !IsSet(lines[last + 1..], name)
    ensures index <= last && (index == last <==> !IsSet(lines[index + 1..], name))
  {
    IsSetFrom(lines, last + 1, name);
    IsSetFrom(lines, index + 1, name);
  }

  method StripCvars(text: string, names: set<string>) returns (out: string)
    ensures var kept := Stripped(Lines(text), names); out == if kept == [] then "" else Joined(kept)
  {
    var lines := Lines(text);
    var kept: seq<string> := [];
    for i := 0 to |lines|
      invariant kept == Stripped(lines[..i], names)
    {
      assert lines[..i + 1][..i] == lines[..i];
      var parsed := ParseLine(lines[i]);
      if parsed.Some? && parsed.value.name in names {
        continue;
      }
      kept := kept + [lines[i]];
    }
    assert lines[..|lines|] == lines;
    out := if kept == [] then "" else Joined(kept);
  }

  function Restricted(m: map<string, string>, names: set<string>): map<string, string> {
    map n | n in m && n in names :: m[n]
  }

  method ReadCvars(text: string, names: set<string>) returns (found: map<string, string>)
    ensures found == Restricted(Exec(Lines(text)), names)
  {
    var lines := Lines(text);
    found := map[];
    hide Lines, ParseLine;
    for i := 0 to |lines|
      invariant found == Restricted(Exec(lines[..i]), names)
    {
      assert lines[..i + 1][..i] == lines[..i];
      var parsed := ParseLine(lines[i]);
      if parsed.Some? && parsed.value.name in names {
        found := found[parsed.value.name := parsed.value.value];
      }
    }
    assert lines[..|lines|] == lines;
  }

  // ---- what executing the file gives -----------------------------------------------------------------

  lemma MergeUpdate(m: map<string, string>, n: map<string, string>, k: string, v: string)
    ensures (m + n)[k := v] == m + n[k := v]
  {}

  lemma {:induction false} ExecConcat(a: seq<string>, b: seq<string>)
    ensures Exec(a + b) == Exec(a) + Exec(b)
  {
    hide ParseLine;
    if b == [] {
      assert a + b == a;
    } else {
      var front, s := b[..|b| - 1], ParseLine(b[|b| - 1]);
      ExecConcat(a, front);
      assert (a + b)[..|a + b| - 1] == a + front && (a + b)[|a + b| - 1] == b[|b| - 1];
      if s.Some? {
        MergeUpdate(Exec(a), Exec(front), s.value.name, s.value.value);
      }
    }
  }

  lemma {:induction false} ExecDomain(lines: seq<string>)
    ensures forall n :: n in Exec(lines) <==> IsSet(lines, n)
  {
    if lines != [] {
      var front := lines[..|lines| - 1];
      ExecDomain(front);
      IsSetNext(lines, |lines| - 1);
      assert lines[..|lines|] == lines;
      hide IsSet;
    }
  }

  lemma ExecOne(line: string)
    ensures Exec([line]) == match ParseLine(line) case Some(s) => map[s.name := s.value] case None => map[]
  {
    assert [line][..0] == [];
  }

  lemma ExecNothing()
    ensures Exec([]) == map[]
  {}

  lemma ExecFirst(lines: seq<string>)
    requires lines != []
    ensures Exec(lines) == Exec([lines[0]]) + Exec(lines[1..])
    ensures forall n :: IsSet(lines, n) <==> Sets(lines[0], n) || IsSet(lines[1..], n)
  {
    assert lines == [lines[0]] + lines[1..];
    ExecConcat([lines[0]], lines[1..]);
    ExecOne(lines[0]);
    ExecDomain(lines);
    ExecDomain(lines[1..]);
    hide IsSet, Exec, ParseLine;
  }

  lemma NamedIsName(cvars: seq<Cvar>, name: string)
    requires IsDict(cvars) && Named(cvars, name)
    ensures IsName(name) && IsValue(ValueOf(cvars, name)) && NoBreak(ValueOf(cvars, name)) && NoBreak(name)
  {
    ValueAmong(cvars, name);
    assert forall c :: IsWordChar(c) ==> !IsBreak(c);
  }

  lemma {:induction false} ValueAmong(cvars: seq<Cvar>, name: string)
    requires Named(cvars, name)
    ensures exists i :: 0 <= i < |cvars| && cvars[i] == Cvar(name, ValueOf(cvars, name))
  {
    if cvars[0].name != name {
      var i :| 0 <= i < |cvars| && cvars[i].name == name;
      assert cvars[1..][i - 1] == cvars[i];
      ValueAmong(cvars[1..], name);
      var j :| 0 <= j < |cvars[1..]| && cvars[1..][j] == Cvar(name, ValueOf(cvars[1..], name));
      assert cvars[j + 1] == cvars[1..][j];
    } else {
      assert cvars[0] == Cvar(name, cvars[0].value);
    }
  }

  /** A line of the file, as it stands in the rewritten one. */
  lemma WrittenLine(line: string, cvars: seq<Cvar>)
    requires IsDict(cvars) && NoBreak(line) && Touched(line, cvars)
    ensures var s := ParseLine(line).value;
            var written := SetLine(s.indent, s.name, ValueOf(cvars, s.name));
            ParseLine(written) == Some(Setting(s.indent, s.name, ValueOf(cvars, s.name))) && NoBreak(written)
  {
    var s := ParseLine(line).value;
    ParsedShape(line);
    NamedIsName(cvars, s.name);
    ParseSetLine(s.indent, s.name, ValueOf(cvars, s.name));
    hide ParseLine, ValueOf, IsDict, Named;
    SetLineUnbroken(s.indent, s.name, ValueOf(cvars, s.name));
  }

  lemma SetLineUnbroken(indent: string, name: string, value: string)
    requires NoBreak(indent) && NoBreak(name) && NoBreak(value)
    ensures NoBreak(SetLine(indent, name, value))
  {}

  predicate Unbroken(lines: seq<string>) {
    forall i :: 0 <= i < |lines| ==> NoBreak(lines[i])
  }

  lemma PieceExec(head: string, rest: seq<string>, cvars: seq<Cvar>, n: string)
    requires IsDict(cvars) && NoBreak(head)
    ensures var was, now := Exec([head]), Exec(Piece(head, rest, cvars));
            && (n in now ==> n in was && now[n] == if Named(cvars, n) then ValueOf(cvars, n) else was[n])
            && (n in was && n !in now ==> IsSet(rest, n))
    ensures Unbroken(Piece(head, rest, cvars))
  {
    hide IsSet, ParseLine, SetLine, ValueOf, IsDict, Exec, NoBreak, Named;
    ExecOne(head);
    ExecNothing();
    if Touched(head, cvars) {
      WrittenLine(head, cvars);
      var s := ParseLine(head).value;
      ExecOne(SetLine(s.indent, s.name, ValueOf(cvars, s.name)));
    }
  }

  lemma MergedValue(a: map<string, string>, b: map<string, string>, n: string)
    ensures n in a + b <==> n in a || n in b
    ensures n in b ==> (a + b)[n] == b[n]
    ensures n in a && n !in b ==> (a + b)[n] == a[n]
  {}

  lemma UnbrokenConcat(a: seq<string>, b: seq<string>)
    requires Unbroken(a) && Unbroken(b)
    ensures Unbroken(a + b)
  {
    hide NoBreak;
  }

  lemma UnbrokenSplit(lines: seq<string>)
    requires Unbroken(lines) && lines != []
    ensures NoBreak(lines[0]) && Unbroken(lines[1..])
  {
    hide NoBreak;
  }

  /** Rewriting keeps which cvars are set, gives the named ones their new value and leaves the others theirs. */
  lemma {:induction false} RewrittenExec(lines: seq<string>, cvars: seq<Cvar>, n: string)
    requires IsDict(cvars) && Unbroken(lines)
    ensures n in Exec(Rewritten(lines, cvars)) <==> n in Exec(lines)
    ensures n in Exec(lines) ==>
              Exec(Rewritten(lines, cvars))[n] == if Named(cvars, n) then ValueOf(cvars, n) else Exec(lines)[n]
    ensures Unbroken(Rewritten(lines, cvars))
    decreases |lines|
  {
    if lines != [] {
      hide IsSet, ValueOf, IsDict, Exec, NoBreak, Named, Piece, Rewritten, Unbroken;
      var head, rest := lines[0], lines[1..];
      var piece, tail := Piece(head, rest, cvars), Rewritten(rest, cvars);
      UnbrokenSplit(lines);
      RewrittenExec(rest, cvars, n);
      RewrittenPiece(lines, cvars);
      PieceExec(head, rest, cvars, n);
      ExecFirst(lines);
      ExecDomain(rest);
      ExecConcat(piece, tail);
      MergedValue(Exec([head]), Exec(rest), n);
      MergedValue(Exec(piece), Exec(tail), n);
      UnbrokenConcat(piece, tail);
    }
  }

  lemma {:induction false} MissingExec(lines: seq<string>, cvars: seq<Cvar>, n: string)
    requires IsDict(cvars)
    ensures n in Exec(Missing(lines, cvars)) <==> Named(cvars, n) && !IsSet(lines, n)
    ensures n in Exec(Missing(lines, cvars)) ==> Exec(Missing(lines, cvars))[n] == ValueOf(cvars, n)
    ensures Unbroken(Missing(lines, cvars))
  {
    if cvars != [] {
      var front, c := cvars[..|cvars| - 1], cvars[|cvars| - 1];
      assert IsDict(front);
      MissingExec(lines, front, n);
      NamedLast(cvars, n);
      if !IsSet(lines, c.name) {
        assert Named(cvars, c.name);
        NamedIsName(cvars, c.name);
        ParseSetLine("", c.name, c.value);
        SetLineUnbroken("", c.name, c.value);
        ExecConcat(Missing(lines, front), [SetLine("", c.name, c.value)]);
        ExecOne(SetLine("", c.name, c.value));
      }
      hide IsSet, ParseLine, SetLine, Exec;
    }
  }

  lemma NamedLast(cvars: seq<Cvar>, n: string)
    requires IsDict(cvars) && cvars != []
    ensures var front, c := cvars[..|cvars| - 1], cvars[|cvars| - 1];
            && (Named(cvars, n) <==> Named(front, n) || c.name == n)
            && !(Named(front, n) && c.name == n)
            && (Named(front, n) ==> ValueOf(cvars, n) == ValueOf(front, n))
            && (c.name == n ==> Named(cvars, n) && ValueOf(cvars, n) == c.value)
  {
    var front, c := cvars[..|cvars| - 1], cvars[|cvars| - 1];
    if Named(front, n) {
      ValueAmong(front, n);
      var i :| 0 <= i < |front| && front[i] == Cvar(n, ValueOf(front, n));
      assert cvars[i] == front[i];
      assert Named(cvars, n);
      ValueAmong(cvars, n);
    }
    if c.name == n {
      assert Named(cvars, n);
      ValueAmong(cvars, n);
    }
    if Named(cvars, n) && c.name != n {
      var i :| 0 <= i < |cvars| && cvars[i].name == n;
      assert front[i] == cvars[i];
    }
  }

  /** The dictionary as a map. */
  function AsMap(cvars: seq<Cvar>): map<string, string> {
    map n | n in Names(cvars) :: ValueFor(cvars, n)
  }

  function ValueFor(cvars: seq<Cvar>, n: string): string {
    if Named(cvars, n) then ValueOf(cvars, n) else ""
  }

  lemma NamesNamed(cvars: seq<Cvar>)
    ensures forall n :: n in Names(cvars) <==> Named(cvars, n)
  {}

  lemma UpsertedValue(lines: seq<string>, cvars: seq<Cvar>, n: string)
    requires IsDict(cvars) && Unbroken(lines)
    ensures n in Exec(Upserted(lines, cvars)) <==> n in Exec(lines) || Named(cvars, n)
    ensures n in Exec(Upserted(lines, cvars)) ==>
              Exec(Upserted(lines, cvars))[n] == if Named(cvars, n) then ValueOf(cvars, n) else Exec(lines)[n]
    ensures Unbroken(Upserted(lines, cvars))
  {
    RewrittenExec(lines, cvars, n);
    MissingExec(lines, cvars, n);
    ExecDomain(lines);
    ExecConcat(Rewritten(lines, cvars), Missing(lines, cvars));
    hide Exec, Rewritten, Missing, IsSet, Named, ValueOf, NoBreak;
  }

  /** Executing the new file gives the old settings, overridden by the given ones. */
  lemma UpsertedExec(lines: seq<string>, cvars: seq<Cvar>)
    requires IsDict(cvars) && Unbroken(lines)
    ensures Exec(Upserted(lines, cvars)) == Exec(lines) + AsMap(cvars)
  {
    NamesNamed(cvars);
    var out, want := Exec(Upserted(lines, cvars)), Exec(lines) + AsMap(cvars);
    forall n ensures n in out <==> n in want
             ensures n in out ==> out[n] == want[n]
    {
      UpsertedValue(lines, cvars, n);
    }
    hide *;
    assert out.Keys == want.Keys;
  }

  // ---- lines kept, lines counted ------------------------------------------------------------------------

  function SetCount(lines: seq<string>, n: string): nat {
    if lines == [] then 0
    else SetCount(lines[..|lines| - 1], n) + if Sets(lines[|lines| - 1], n) then 1 else 0
  }

  lemma {:induction false} CountConcat(a: seq<string>, b: seq<string>, n: string)
    ensures SetCount(a + b, n) == SetCount(a, n) + SetCount(b, n)
  {
    hide Sets;
    if b == [] {
      assert a + b == a;
    } else {
      CountConcat(a, b[..|b| - 1], n);
      assert (a + b)[..|a + b| - 1] == a + b[..|b| - 1] && (a + b)[|a + b| - 1] == b[|b| - 1];
    }
  }

  lemma CountOne(line: string, n: string)
    ensures SetCount([line], n) == if Sets(line, n) then 1 else 0
  {
    assert [line][..0] == [];
  }

  lemma {:induction false} RewrittenCount(lines: seq<string>, cvars: seq<Cvar>, n: string)
    requires IsDict(cvars) && Unbroken(lines) && Named(cvars, n)
    ensures SetCount(Rewritten(lines, cvars), n) == if IsSet(lines, n) then 1 else 0
    decreases |lines|
  {
    if lines != [] {
      var head, rest := lines[0], lines[1..];
      var tail, out := Rewritten(rest, cvars), Rewritten(lines, cvars);
      RewrittenCount(rest, cvars, n);
      ExecFirst(lines);
      if !Touched(head, cvars) {
        CountConcat([head], tail, n);
        CountOne(head, n);
      } else if !IsSet(rest, ParseLine(head).value.name) {
        var s := ParseLine(head).value;
        WrittenLine(head, cvars);
        var written := SetLine(s.indent, s.name, ValueOf(cvars, s.name));
        CountConcat([written], tail, n);
        CountOne(written, n);
      }
      hide IsSet, ParseLine, SetLine, ValueOf, IsDict, Exec, NoBreak, SetCount;
    }
  }

  lemma {:induction false} MissingCount(lines: seq<string>, cvars: seq<Cvar>, n: string)
    requires IsDict(cvars)
    ensures SetCount(Missing(lines, cvars), n) == if Named(cvars, n) && !IsSet(lines, n) then 1 else 0
  {
    if cvars != [] {
      var front, c := cvars[..|cvars| - 1], cvars[|cvars| - 1];
      assert IsDict(front);
      MissingCount(lines, front, n);
      NamedLast(cvars, n);
      if !IsSet(lines, c.name) {
        assert Named(cvars, c.name);
        NamedIsName(cvars, c.name);
        ParseSetLine("", c.name, c.value);
        CountConcat(Missing(lines, front), [SetLine("", c.name, c.value)], n);
        CountOne(SetLine("", c.name, c.value), n);
      }
      hide IsSet, ParseLine, SetLine, SetCount;
    }
  }

  /** Each of the given cvars is set by exactly one line. */
  lemma UpsertedCount(lines: seq<string>, cvars: seq<Cvar>, n: string)
    requires IsDict(cvars) && Unbroken(lines) && Named(cvars, n)
    ensures SetCount(Upserted(lines, cvars), n) == 1
  {
    RewrittenCount(lines, cvars, n);
    MissingCount(lines, cvars, n);
    CountConcat(Rewritten(lines, cvars), Missing(lines, cvars), n);
  }

  lemma {:induction false} StripConcat(a: seq<string>, b: seq<string>, names: set<string>)
    ensures Stripped(a + b, names) == Stripped(a, names) + Stripped(b, names)
  {
    hide ParseLine;
    if b == [] {
      assert a + b == a;
    } else {
      StripConcat(a, b[..|b| - 1], names);
      assert (a + b)[..|a + b| - 1] == a + b[..|b| - 1] && (a + b)[|a + b| - 1] == b[|b| - 1];
    }
  }

  lemma StripOne(line: string, names: set<string>)
    ensures Stripped([line], names) ==
            if ParseLine(line).Some? && ParseLine(line).value.name in names then [] else [line]
  {
    assert [line][..0] == [];
  }

  lemma PieceStripped(head: string, rest: seq<string>, cvars: seq<Cvar>)
    requires IsDict(cvars) && NoBreak(head)
    ensures Stripped(Piece(head, rest, cvars), Names(cvars)) == Stripped([head], Names(cvars))
  {
    hide IsSet, ParseLine, SetLine, ValueOf, IsDict, NoBreak, Stripped, Names, Named;
    NamesNamed(cvars);
    StripOne(head, Names(cvars));
    if Touched(head, cvars) {
      WrittenLine(head, cvars);
      var s := ParseLine(head).value;
      StripOne(SetLine(s.indent, s.name, ValueOf(cvars, s.name)), Names(cvars));
      StripNothing(Names(cvars));
    }
  }

  lemma StripNothing(names: set<string>)
    ensures Stripped([], names) == []
  {}

  lemma {:induction false} RewrittenStripped(lines: seq<string>, cvars: seq<Cvar>)
    requires IsDict(cvars) && Unbroken(lines)
    ensures Stripped(Rewritten(lines, cvars), Names(cvars)) == Stripped(lines, Names(cvars))
    decreases |lines|
  {
    if lines != [] {
      var names, head, rest := Names(cvars), lines[0], lines[1..];
      hide IsDict, NoBreak, Stripped, Names, Piece, Rewritten;
      RewrittenStripped(rest, cvars);
      RewrittenPiece(lines, cvars);
      PieceStripped(head, rest, cvars);
      assert lines == [head] + rest;
      StripConcat([head], rest, names);
      StripConcat(Piece(head, rest, cvars), Rewritten(rest, cvars), names);
    }
  }

  lemma {:induction false} MissingStripped(lines: seq<string>, cvars: seq<Cvar>, names: set<string>)
    requires IsDict(cvars) && forall i :: 0 <= i < |cvars| ==> cvars[i].name in names
    ensures Stripped(Missing(lines, cvars), names) == []
  {
    if cvars != [] {
      var front, c := cvars[..|cvars| - 1], cvars[|cvars| - 1];
      assert IsDict(front);
      MissingStripped(lines, front, names);
      ParseSetLine("", c.name, c.value);
      StripConcat(Missing(lines, front), [SetLine("", c.name, c.value)], names);
      StripOne(SetLine("", c.name, c.value), names);
      hide IsSet, ParseLine, SetLine, Stripped;
    }
  }

  /** Every other line is still there, in order. */
  lemma UpsertedStripped(lines: seq<string>, cvars: seq<Cvar>)
    requires IsDict(cvars) && Unbroken(lines)
    ensures Stripped(Upserted(lines, cvars), Names(cvars)) == Stripped(lines, Names(cvars))
  {
    RewrittenStripped(lines, cvars);
    MissingStripped(lines, cvars, Names(cvars));
    StripConcat(Rewritten(lines, cvars), Missing(lines, cvars), Names(cvars));
  }

  lemma ExecLast(lines: seq<string>, line: string)
    ensures var s := ParseLine(line);
            Exec(lines + [line]) == if s.Some? then Exec(lines)[s.value.name := s.value.value] else Exec(lines)
  {
    hide ParseLine;
    assert (lines + [line])[..|lines|] == lines;
  }

  lemma WithoutUpdate(m: map<string, string>, names: set<string>, n: string, v: string)
    ensures m[n := v] - names == if n in names then m - names else (m - names)[n := v]
  {}

  lemma ExecWithLast(lines: seq<string>)
    requires lines != []
    ensures var front, s := lines[..|lines| - 1], ParseLine(lines[|lines| - 1]);
            Exec(lines) == if s.Some? then Exec(front)[s.value.name := s.value.value] else Exec(front)
  {
    hide ParseLine;
  }

  /** One more line, stripped or executed. */
  lemma StrippedExecMore(lines: seq<string>, names: set<string>)
    requires lines != []
    requires var front := lines[..|lines| - 1]; Exec(Stripped(front, names)) == Exec(front) - names
    ensures Exec(Stripped(lines, names)) == Exec(lines) - names
  {
    hide *;
    var front, line := lines[..|lines| - 1], lines[|lines| - 1];
    StrippedLast(lines, names);
    ExecWithLast(lines);
    ExecLast(Stripped(front, names), line);
    if ParseLine(line).Some? {
      WithoutUpdate(Exec(front), names, ParseLine(line).value.name, ParseLine(line).value.value);
    }
  }

  lemma {:induction false} StrippedExec(lines: seq<string>, names: set<string>)
    ensures Exec(Stripped(lines, names)) == Exec(lines) - names
  {
    hide ParseLine;
    if lines != [] {
      StrippedExec(lines[..|lines| - 1], names);
      StrippedExecMore(lines, names);
    }
  }

  lemma StrippedLast(lines: seq<string>, names: set<string>)
    requires lines != []
    ensures var s, before := ParseLine(lines[|lines| - 1]), Stripped(lines[..|lines| - 1], names);
            Stripped(lines, names) ==
            if s.Some? && s.value.name in names then before else before + [lines[|lines| - 1]]
  {
    hide ParseLine;
  }

  // ---- once is enough --------------------------------------------------------------------------------------

  /** Every cvar is set once, as it would be written. */
  ghost predicate Tidy(lines: seq<string>, cvars: seq<Cvar>) {
    forall i :: 0 <= i < |lines| && Touched(lines[i], cvars) ==>
      && lines[i] == SetLine(ParseLine(lines[i]).value.indent, ParseLine(lines[i]).value.name,
                             ValueOf(cvars, ParseLine(lines[i]).value.name))
      && !IsSet(lines[i + 1..], ParseLine(lines[i]).value.name)
  }

  lemma TidyTail(lines: seq<string>, cvars: seq<Cvar>)
    requires Tidy(lines, cvars) && lines != []
    ensures Tidy(lines[1..], cvars)
  {
    hide SetLine, ValueOf, ParseLine, IsSet, Named;
    var rest := lines[1..];
    forall i | 0 <= i < |rest| && Touched(rest[i], cvars)
      ensures rest[i] == SetLine(ParseLine(rest[i]).value.indent, ParseLine(rest[i]).value.name,
                                 ValueOf(cvars, ParseLine(rest[i]).value.name))
      ensures !IsSet(rest[i + 1..], ParseLine(rest[i]).value.name)
    {
      assert rest[i] == lines[i + 1] && rest[i + 1..] == lines[i + 2..];
    }
  }

  lemma TidyPiece(lines: seq<string>, cvars: seq<Cvar>)
    requires Tidy(lines, cvars) && lines != []
    ensures Piece(lines[0], lines[1..], cvars) == [lines[0]]
  {
    hide SetLine, ValueOf, ParseLine, IsSet;
  }

  lemma {:induction false} TidyIsFixed(lines: seq<string>, cvars: seq<Cvar>)
    requires Tidy(lines, cvars)
    ensures Rewritten(lines, cvars) == lines
    decreases |lines|
  {
    if lines != [] {
      TidyTail(lines, cvars);
      TidyPiece(lines, cvars);
      RewrittenPiece(lines, cvars);
      hide Tidy, Piece, Rewritten;
      TidyIsFixed(lines[1..], cvars);
      assert lines == [lines[0]] + lines[1..];
    }
  }

  predicate WrittenAs(line: string, cvars: seq<Cvar>) {
    Touched(line, cvars) ==>
      var s := ParseLine(line).value;
      line == SetLine(s.indent, s.name, ValueOf(cvars, s.name))
  }

  predicate AllWritten(lines: seq<string>, cvars: seq<Cvar>) {
    forall i :: 0 <= i < |lines| ==> WrittenAs(lines[i], cvars)
  }

  lemma WrittenFirst(line: string, tail: seq<string>, cvars: seq<Cvar>)
    requires WrittenAs(line, cvars) && AllWritten(tail, cvars)
    ensures AllWritten([line] + tail, cvars)
  {
    hide WrittenAs;
  }

  lemma UntouchedWritten(line: string, cvars: seq<Cvar>)
    requires !Touched(line, cvars)
    ensures WrittenAs(line, cvars)
  {}

  lemma WrittenWritten(line: string, cvars: seq<Cvar>)
    requires IsDict(cvars) && NoBreak(line) && Touched(line, cvars)
    ensures var s := ParseLine(line).value; WrittenAs(SetLine(s.indent, s.name, ValueOf(cvars, s.name)), cvars)
  {
    WrittenLine(line, cvars);
    hide ParseLine, SetLine, ValueOf;
  }

  lemma {:induction false} RewrittenWritten(lines: seq<string>, cvars: seq<Cvar>)
    requires IsDict(cvars) && Unbroken(lines)
    ensures AllWritten(Rewritten(lines, cvars), cvars)
    decreases |lines|
  {
    if lines != [] {
      var s, tail := ParseLine(lines[0]), Rewritten(lines[1..], cvars);
      RewrittenWritten(lines[1..], cvars);
      if !Touched(lines[0], cvars) {
        UntouchedWritten(lines[0], cvars);
        WrittenFirst(lines[0], tail, cvars);
      } else {
        WrittenWritten(lines[0], cvars);
        WrittenFirst(SetLine(s.value.indent, s.value.name, ValueOf(cvars, s.value.name)), tail, cvars);
      }
      hide IsSet, ParseLine, SetLine, ValueOf, IsDict, NoBreak, Named, WrittenAs, AllWritten;
    }
  }

  lemma AddedWritten(c: Cvar, all: seq<Cvar>)
    requires IsName(c.name) && IsValue(c.value) && Named(all, c.name) && ValueOf(all, c.name) == c.value
    ensures WrittenAs(SetLine("", c.name, c.value), all)
  {
    hide IsName, IsValue, ParseLine, SetLine, ValueOf, Named;
    assert AllSpace("");
    ParseSetLine("", c.name, c.value);
  }

  lemma DictLast(cvars: seq<Cvar>)
    requires IsDict(cvars) && cvars != []
    ensures IsDict(cvars[..|cvars| - 1])
    ensures var c := cvars[|cvars| - 1]; IsName(c.name) && IsValue(c.value)
  {
    hide IsName, IsValue, NoBreak;
  }

  lemma WrittenLast(lines: seq<string>, line: string, cvars: seq<Cvar>)
    requires AllWritten(lines, cvars) && WrittenAs(line, cvars)
    ensures AllWritten(lines + [line], cvars)
  {
    hide WrittenAs;
  }

  lemma {:induction false} MissingWritten(lines: seq<string>, cvars: seq<Cvar>, all: seq<Cvar>)
    requires IsDict(all) && IsDict(cvars)
    requires forall i :: 0 <= i < |cvars| ==> Named(all, cvars[i].name) && ValueOf(all, cvars[i].name) == cvars[i].value
    ensures AllWritten(Missing(lines, cvars), all)
  {
    if cvars != [] {
      var front, c := cvars[..|cvars| - 1], cvars[|cvars| - 1];
      DictLast(cvars);
      hide IsSet, ParseLine, SetLine, ValueOf, IsDict, Named, WrittenAs, AllWritten, IsName, IsValue, AllSpace, NoBreak;
      MissingWritten(lines, front, all);
      AddedWritten(c, all);
      WrittenLast(Missing(lines, front), SetLine("", c.name, c.value), all);
    }
  }

  lemma {:induction false} DictValues(cvars: seq<Cvar>)
    requires IsDict(cvars)
    ensures forall i :: 0 <= i < |cvars| ==>
              Named(cvars, cvars[i].name) && ValueOf(cvars, cvars[i].name) == cvars[i].value
  {
    forall i | 0 <= i < |cvars|
      ensures Named(cvars, cvars[i].name) && ValueOf(cvars, cvars[i].name) == cvars[i].value
    {
      ValueAmong(cvars, cvars[i].name);
    }
  }

  lemma UpsertedWritten(lines: seq<string>, cvars: seq<Cvar>)
    requires IsDict(cvars) && Unbroken(lines)
    ensures AllWritten(Upserted(lines, cvars), cvars)
  {
    RewrittenWritten(lines, cvars);
    DictValues(cvars);
    MissingWritten(lines, cvars, cvars);
    hide WrittenAs, Rewritten, Missing;
  }

  lemma {:induction false} CountZero(lines: seq<string>, n: string)
    ensures SetCount(lines, n) == 0 <==> !IsSet(lines, n)
  {
    if lines != [] {
      CountZero(lines[..|lines| - 1], n);
      IsSetNext(lines, |lines| - 1);
      assert lines[..|lines|] == lines;
      hide IsSet, Sets;
    }
  }

  lemma SplitAt(lines: seq<string>, i: nat)
    requires i < |lines|
    ensures lines == lines[..i] + ([lines[i]] + lines[i + 1..])
  {}

  /** A cvar set once is not set after its line. */
  lemma NotSetAfter(lines: seq<string>, i: nat, n: string)
    requires i < |lines| && Sets(lines[i], n) && SetCount(lines, n) == 1
    ensures !IsSet(lines[i + 1..], n)
  {
    hide *;
    SplitAt(lines, i);
    CountConcat(lines[..i], [lines[i]] + lines[i + 1..], n);
    CountConcat([lines[i]], lines[i + 1..], n);
    CountOne(lines[i], n);
    CountZero(lines[i + 1..], n);
  }

  lemma UpsertedTidy(lines: seq<string>, cvars: seq<Cvar>)
    requires IsDict(cvars) && Unbroken(lines)
    ensures Tidy(Upserted(lines, cvars), cvars)
  {
    UpsertedWritten(lines, cvars);
    var u := Upserted(lines, cvars);
    hide Upserted, SetLine, ValueOf, ParseLine, IsSet, Named;
    forall i | 0 <= i < |u| && Touched(u[i], cvars) ensures !IsSet(u[i + 1..], ParseLine(u[i]).value.name)
    {
      UpsertedCount(lines, cvars, ParseLine(u[i]).value.name);
      NotSetAfter(u, i, ParseLine(u[i]).value.name);
    }
    forall i | 0 <= i < |u| && Touched(u[i], cvars)
      ensures u[i] == SetLine(ParseLine(u[i]).value.indent, ParseLine(u[i]).value.name,
                              ValueOf(cvars, ParseLine(u[i]).value.name))
    {
      assert WrittenAs(u[i], cvars);
    }
  }

  lemma {:induction false} NoneMissing(lines: seq<string>, cvars: seq<Cvar>)
    requires forall i :: 0 <= i < |cvars| ==> IsSet(lines, cvars[i].name)
    ensures Missing(lines, cvars) == []
  {
    if cvars != [] {
      NoneMissing(lines, cvars[..|cvars| - 1]);
    }
  }

  lemma UpsertedTwice(lines: seq<string>, cvars: seq<Cvar>)
    requires IsDict(cvars) && Unbroken(lines)
    ensures Upserted(Upserted(lines, cvars), cvars) == Upserted(lines, cvars)
  {
    var u := Upserted(lines, cvars);
    UpsertedTidy(lines, cvars);
    TidyIsFixed(u, cvars);
    forall i | 0 <= i < |cvars| ensures IsSet(u, cvars[i].name) {
      assert Named(cvars, cvars[i].name);
      UpsertedCount(lines, cvars, cvars[i].name);
      CountZero(u, cvars[i].name);
    }
    hide Upserted, IsSet, Tidy, Rewritten;
    NoneMissing(u, cvars);
    UpsertedIs(u, cvars);
    assert u + [] == u;
  }

  lemma UpsertedIs(lines: seq<string>, cvars: seq<Cvar>)
    ensures Upserted(lines, cvars) == Rewritten(lines, cvars) + Missing(lines, cvars)
  {}

  // ---- the whole text ------------------------------------------------------------------------------------------

  function UpsertText(text: string, cvars: seq<Cvar>): string {
    Joined(Upserted(Lines(text), cvars))
  }

  function StripText(text: string, names: set<string>): string {
    var kept := Stripped(Lines(text), names);
    if kept == [] then "" else Joined(kept)
  }

  /** The lines of the written text; an empty file given no cvars becomes one empty line. */
  lemma UpsertTextLines(text: string, cvars: seq<Cvar>)
    requires IsDict(cvars)
    ensures var u := Upserted(Lines(text), cvars);
            Unbroken(Lines(text)) && Lines(UpsertText(text, cvars)) == if u == [] then [""] else u
    ensures Upserted(Lines(text), cvars) == [] <==> text == "" && cvars == []
  {
    var lines := Lines(text);
    UpsertedValue(lines, cvars, "");
    var u := Upserted(lines, cvars);
    if u != [] {
      LinesOfJoined(u);
    } else {
      OneEmptyLine();
    }
    UpsertedNone(text, cvars);
  }

  lemma OneEmptyLine()
    ensures Lines("\n") == [""] && Lines("") == []
  {
    LinesStep("", "");
    assert "" + "\n" + "" == "\n";
    assert [""] + [] == [""];
  }

  lemma UpsertedNone(text: string, cvars: seq<Cvar>)
    requires IsDict(cvars)
    ensures Upserted(Lines(text), cvars) == [] <==> text == "" && cvars == []
  {
    var lines := Lines(text);
    if cvars != [] {
      assert Named(cvars, cvars[0].name);
      UpsertedCount(lines, cvars, cvars[0].name);
    } else {
      hide ParseLine, Lines;
      assert forall line :: !Touched(line, cvars);
      Untouched(lines, cvars);
      LinesNone(text);
    }
  }

  lemma {:induction false} Untouched(lines: seq<string>, cvars: seq<Cvar>)
    requires cvars == []
    ensures Rewritten(lines, cvars) == lines && Missing(lines, cvars) == []
  {
    if lines != [] {
      Untouched(lines[1..], cvars);
      assert lines == [lines[0]] + lines[1..];
    }
  }

  lemma LinesNone(text: string)
    ensures Lines(text) == [] <==> text == ""
  {}

  /**
   Rewriting server.cfg preserves its meaning: executed, the new file gives what the old one gave,
   overridden by the given cvars, each of which is set by exactly one line; the other lines are kept in
   order, reading the cvars back gives their values, and writing them again changes nothing.
   */
  lemma UpsertPreserves(text: string, cvars: seq<Cvar>)
    requires IsDict(cvars)
    ensures var written := UpsertText(text, cvars);
            && Exec(Lines(written)) == Exec(Lines(text)) + AsMap(cvars)
            && (forall n :: Named(cvars, n) ==> SetCount(Lines(written), n) == 1)
            && (text != "" || cvars != []
                ==> Stripped(Lines(written), Names(cvars)) == Stripped(Lines(text), Names(cvars)))
            && Restricted(Exec(Lines(written)), Names(cvars)) == AsMap(cvars)
            && UpsertText(written, cvars) == written
  {
    var lines, written := Lines(text), UpsertText(text, cvars);
    UpsertTextLines(text, cvars);
    UpsertedExec(lines, cvars);
    UpsertedStripped(lines, cvars);
    UpsertedTwice(lines, cvars);
    ReadBack(Exec(lines), cvars);
    if text == "" && cvars == [] {
      EmptyFile(cvars);
    } else {
      hide *;
      forall n | Named(cvars, n) ensures SetCount(Lines(written), n) == 1 {
        UpsertedCount(lines, cvars, n);
      }
      UpsertTextIs(text, cvars);
      UpsertTextIs(written, cvars);
    }
  }

  lemma UpsertTextIs(text: string, cvars: seq<Cvar>)
    ensures UpsertText(text, cvars) == Joined(Upserted(Lines(text), cvars))
  {}

  lemma ReadBack(m: map<string, string>, cvars: seq<Cvar>)
    ensures Restricted(m + AsMap(cvars), Names(cvars)) == AsMap(cvars)
  {}

  lemma EmptyFile(cvars: seq<Cvar>)
    requires cvars == []
    ensures UpsertText("", cvars) == "\n" && UpsertText("\n", cvars) == "\n"
            && Exec(Lines("\n")) == Exec(Lines("")) == map[]
    ensures AsMap(cvars) == map[] && forall n :: !Named(cvars, n)
  {
    OneEmptyLine();
    Untouched([""], cvars);
    Untouched([], cvars);
    assert ParseLine("") == None;
    ExecOne("");
    var none: seq<string> := [];
    assert [""] + none == [""] && none + none == none;
    hide Lines, ParseLine;
  }

  /** Stripped cvars read as unset, the other settings stay, and what upsert writes strips away again. */
  lemma StripUnsets(text: string, names: set<string>, cvars: seq<Cvar>)
    requires IsDict(cvars)
    ensures Exec(Lines(StripText(text, names))) == Exec(Lines(text)) - names
    ensures Restricted(Exec(Lines(StripText(text, names))), names) == map[]
    ensures text != "" || cvars != [] ==>
              StripText(UpsertText(text, cvars), Names(cvars)) == StripText(text, Names(cvars))
  {
    StripTextLines(text, names);
    StrippedExec(Lines(text), names);
    UpsertPreserves(text, cvars);
    hide Lines, Exec, Stripped, UpsertText;
  }

  lemma StripTextLines(text: string, names: set<string>)
    ensures Lines(StripText(text, names)) == Stripped(Lines(text), names)
  {
    var kept := Stripped(Lines(text), names);
    StrippedUnbroken(Lines(text), names);
    OneEmptyLine();
    if kept != [] {
      LinesOfJoined(kept);
    }
    hide Lines, Stripped, Joined;
  }

  lemma {:induction false} StrippedUnbroken(lines: seq<string>, names: set<string>)
    requires Unbroken(lines)
    ensures Unbroken(Stripped(lines, names))
  {
    hide ParseLine, NoBreak;
    if lines != [] {
      StrippedUnbroken(lines[..|lines| - 1], names);
    }
  }
}
