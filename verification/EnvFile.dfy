/**
 * Broker profiles in a `.env` file (config/credential_prompt.py): the parser, the printer, and what survives a
 * rewrite of the file.
 */
module EnvFile {
  import opened Common
  import opened Strings

  // ------------------------------------------------------------------ text

  /** Characters at which `splitlines` ends a line. */
  predicate IsBreak(c: char) {
    c in {'\n', '\r', '\U{0B}', '\U{0C}', '\U{1C}', '\U{1D}', '\U{1E}', '\U{85}', '\U{2028}', '\U{2029}'}
  }

  /** Characters `strip` removes; every line break is one. */
  predicate IsSpace(c: char) {
    || IsBreak(c)
    || c in {' ', '\t', '\U{1F}', '\U{A0}', '\U{1680}', '\U{202F}', '\U{205F}', '\U{3000}'}
    || '\U{2000}' <= c <= '\U{200A}'
  }

  function StripLeft(s: string): string {
    if s != "" && IsSpace(s[0]) then StripLeft(s[1..]) else s
  }

  function StripRight(s: string): string {
    if s != "" && IsSpace(Last(s)) then StripRight(Front(s)) else s
  }

  function Strip(s: string): string {
    StripRight(StripLeft(s))
  }

  ghost predicate Stripped(s: string) {
    s == "" || (!IsSpace(s[0]) && !IsSpace(Last(s)))
  }

  ghost predicate OneLine(s: string) {
    forall i :: 0 <= i < |s| ==> !IsBreak(s[i])
  }

  /** A value that can stand on a line without losing anything. */
  ghost predicate Clean(s: string) {
    Stripped(s) && OneLine(s)
  }

  lemma {:induction false} StripLeftSuffix(s: string)
    ensures StripLeft(s) == "" || !IsSpace(StripLeft(s)[0])
    ensures OneLine(s) ==> OneLine(StripLeft(s))
    ensures StripLeft(s) != "" ==> s != "" && Last(StripLeft(s)) == Last(s)
  {
    if s != "" && IsSpace(s[0]) { StripLeftSuffix(s[1..]); }
  }

  lemma {:induction false} StripRightPrefix(s: string)
    ensures StripRight(s) == "" || (!IsSpace(Last(StripRight(s))) && StripRight(s)[0] == s[0])
    ensures OneLine(s) ==> OneLine(StripRight(s))
  {
    if s != "" && IsSpace(Last(s)) { StripRightPrefix(Front(s)); }
  }

  /** Stripping yields something stripped, and changes exactly what is not. */
  lemma StripFixesStripped(s: string)
    ensures Stripped(Strip(s)) && (OneLine(s) ==> OneLine(Strip(s)))
    ensures Strip(s) == s <==> Stripped(s)
  {
    StripLeftSuffix(s);
    StripRightPrefix(StripLeft(s));
  }

  /** The pieces between line breaks; an empty piece at the end stands for a final line break. */
  function Lines(text: string): (ls: seq<string>)
    ensures ls != []
  {
    if text == "" then [""]
    else
      var ls := Lines(Front(text));
      if IsBreak(Last(text)) then ls + [""] else Front(ls) + [Last(ls) + [Last(text)]]
  }

  function Join(lines: seq<string>): string
    requires lines != []
  {
    if |lines| == 1 then lines[0] else Join(Front(lines)) + "\n" + Last(lines)
  }

  lemma {:induction false} LinesOfAppend(text: string, s: string)
    requires OneLine(s)
    ensures Lines(text + s) == Front(Lines(text)) + [Last(Lines(text)) + s]
  {
    if s == "" {
      assert text + s == text;
      assert Last(Lines(text)) + "" == Last(Lines(text));
    } else {
      assert Front(text + s) == text + Front(s) && Last(text + s) == Last(s);
      LinesOfAppend(text, Front(s));
      assert !IsBreak(s[|s| - 1]);
      assert Last(Lines(text)) + Front(s) + [Last(s)] == Last(Lines(text)) + s;
    }
  }

  lemma LinesOfNext(text: string, line: string)
    requires OneLine(line)
    ensures Lines(text + "\n" + line) == Lines(text) + [line]
  {
    hide OneLine;
    var head := text + "\n";
    assert Front(head) == text && Last(head) == '\n';
    LinesOfAppend(head, line);
    assert Front(Lines(text) + [""]) == Lines(text) && "" + line == line;
  }

  lemma {:induction false} LinesOfJoin(lines: seq<string>)
    requires lines != [] && forall i :: 0 <= i < |lines| ==> OneLine(lines[i])
    ensures Lines(Join(lines)) == lines
  {
    hide OneLine, Lines;
    if |lines| == 1 {
      LinesOfOne(lines[0]);
    } else {
      LinesOfJoin(Front(lines));
      LinesOfNext(Join(Front(lines)), lines[|lines| - 1]);
    }
  }

  lemma LinesOfOne(line: string)
    requires OneLine(line)
    ensures Lines(line) == [line]
  {
    LinesOfAppend("", line);
    assert "" + line == line;
  }

  // ------------------------------------------------------------------ reading

  /** Insertion-ordered dictionaries, as the parser builds them. */
  type Dict = seq<(string, string)>

  function Put(d: Dict, k: string, v: string): Dict {
    if d == [] then [(k, v)]
    else if d[0].0 == k then [(k, v)] + d[1..]
    else [d[0]] + Put(d[1..], k, v)
  }

  function Get(d: Dict, k: string): Option<string> {
    if d == [] then None else if d[0].0 == k then Some(d[0].1) else Get(d[1..], k)
  }

  lemma {:induction false} GetAfterPut(d: Dict, k: string, v: string, j: string)
    ensures Get(Put(d, k, v), j) == if j == k then Some(v) else Get(d, j)
  {
    if d != [] {
      assert ([(k, v)] + d[1..])[1..] == d[1..];
      if d[0].0 != k {
        GetAfterPut(d[1..], k, v, j);
        assert Put(d, k, v)[1..] == Put(d[1..], k, v);
      }
    }
  }

  /** The position of the first `c`, or the length. */
  function Find(s: string, c: char): (i: nat)
    ensures i <= |s| && (i < |s| ==> s[i] == c) && forall j :: 0 <= j < i ==> s[j] != c
  {
    if s == "" || s[0] == c then 0
    else
      assert forall j :: 1 <= j < |s| ==> s[j] == s[1..][j - 1];
      1 + Find(s[1..], c)
  }

  /** The assignment on a line: nothing on blank lines, comments and lines without an equals sign. */
  function Entry(raw: string): Option<(string, string)> {
    var line := Strip(raw);
    var i := Find(line, '=');
    if line == "" || line[0] == '#' || i == |line| then None
    else Some((Strip(line[..i]), Strip(line[i + 1..])))
  }

  function ReadLines(lines: seq<string>): Dict {
    if lines == [] then []
    else
      var d, e := ReadLines(Front(lines)), Entry(Last(lines));
      if e.Some? then Put(d, e.value.0, e.value.1) else d
  }

  /** The parser on the text of a file; a missing file reads as an empty one. */
  function ReadEnv(text: string): Dict {
    ReadLines(Lines(text))
  }

  method ReadEnvFile(text: string) returns (out: Dict)
    ensures out == ReadEnv(text)
  {
    out := [];
    var lines := Lines(text);
    assert lines[..0] == [];
    for i := 0 to |lines|
      invariant out == ReadLines(lines[..i])
    {
      assert Front(lines[..i + 1]) == lines[..i] && Last(lines[..i + 1]) == lines[i];
      var line := Strip(lines[i]);
      if line != "" && line[0] != '#' {
        var eq := Find(line, '=');
        if eq < |line| {
          out := Put(out, Strip(line[..eq]), Strip(line[eq + 1..]));
        }
      }
    }
    assert lines[..|lines|] == lines;
  }

  /** The value the last line with this key assigns. */
  function LastValue(lines: seq<string>, k: string): Option<string> {
    if lines == [] then None
    else
      var e := Entry(Last(lines));
      if e.Some? && e.value.0 == k then Some(e.value.1) else LastValue(Front(lines), k)
  }

  /** A key reads as what its last line assigns. */
  lemma {:induction false} LastLineWins(lines: seq<string>, k: string)
    ensures Get(ReadLines(lines), k) == LastValue(lines, k)
  {
    if lines != [] {
      LastLineWins(Front(lines), k);
      var e := Entry(Last(lines));
      if e.Some? { GetAfterPut(ReadLines(Front(lines)), e.value.0, e.value.1, k); }
    }
  }

  lemma {:induction false} LastValueOfConcat(a: seq<string>, b: seq<string>, k: string)
    ensures LastValue(a + b, k) == if LastValue(b, k).Some? then LastValue(b, k) else LastValue(a, k)
  {
    if b == [] {
      assert a + b == a;
    } else {
      assert Front(a + b) == a + Front(b);
      LastValueOfConcat(a, Front(b), k);
    }
  }

  // ------------------------------------------------------------------ one line

  /** A key that comes back from its own line. */
  ghost predicate CleanKey(k: string) {
    Clean(k) && (k == "" || k[0] != '#') && forall i :: 0 <= i < |k| ==> k[i] != '='
  }

  lemma FindFirst(k: string, c: char, rest: string)
    requires forall i :: 0 <= i < |k| ==> k[i] != c
    ensures Find(k + [c] + rest, c) == |k|
  {
    var s, i := k + [c] + rest, Find(k + [c] + rest, c);
    assert s[|k|] == c;
    assert forall j :: 0 <= j < |k| ==> s[j] == k[j];
  }

  /**
   * A line `k=v` reads back as `k` and the stripped value, so a one-line value survives exactly when it neither
   * starts nor ends with white space.
   */
  lemma AssignmentSurvivesExactly(k: string, v: string)
    requires CleanKey(k) && OneLine(v)
    ensures Entry(k + "=" + v) == Some((k, Strip(v)))
    ensures Entry(k + "=" + v) == Some((k, v)) <==> Stripped(v)
  {
    hide IsBreak, IsSpace, Find;
    StripFixesStripped(v);
    StripFixesStripped(k);
    var raw := k + "=" + v;
    StripAssignment(k, v);
    var w := StripRight(v);
    assert Strip(raw) == k + "=" + w;
    FindFirst(k, '=', w);
    assert (k + "=" + w)[..|k|] == k && (k + "=" + w)[|k| + 1..] == w;
    StripCommutes(v);
  }

  lemma EqualsIsNoSpace()
    ensures !IsSpace('=') && !IsBreak('=') && !IsBreak('#') && IsSpace('\n') && IsBreak('\n')
  {
  }

  lemma {:induction false} StripRightOfConcat(a: string, b: string)
    requires a != "" && !IsSpace(Last(a))
    ensures StripRight(a + b) == a + StripRight(b)
  {
    hide IsSpace;
    if b == "" {
      assert a + b == a;
    } else if IsSpace(Last(b)) {
      assert Front(a + b) == a + Front(b);
      StripRightOfConcat(a, Front(b));
    }
  }

  lemma StripAssignment(k: string, v: string)
    requires CleanKey(k)
    ensures Strip(k + "=" + v) == k + "=" + StripRight(v)
  {
    hide IsSpace, IsBreak;
    EqualsIsNoSpace();
    var raw := k + "=" + v;
    assert raw[0] == if k == "" then '=' else k[0];
    assert StripLeft(raw) == raw;
    StripRightOfConcat(k + "=", v);
  }

  lemma {:induction false} StripCommutes(v: string)
    ensures Strip(StripRight(v)) == Strip(v)
  {
    hide IsSpace;
    if v != "" && IsSpace(Last(v)) {
      StripCommutes(Front(v));
      StripIgnoresTrailing(Front(v), Last(v));
      assert v == Front(v) + [Last(v)];
    }
  }

  lemma {:induction false} StripIgnoresTrailing(s: string, c: char)
    requires IsSpace(c)
    ensures Strip(s + [c]) == Strip(s)
  {
    hide IsSpace;
    if s == "" {
      assert s + [c] == [c];
      assert StripLeft([c]) == StripLeft([]) == "";
    } else if IsSpace(s[0]) {
      assert (s + [c])[1..] == s[1..] + [c];
      StripIgnoresTrailing(s[1..], c);
    } else {
      assert StripLeft(s + [c]) == s + [c] && Front(s + [c]) == s;
    }
  }

  // ------------------------------------------------------------------ white space at the end of the file

  lemma TrailingSpaceIsIgnored(text: string, c: char)
    requires IsSpace(c)
    ensures ReadEnv(text + [c]) == ReadEnv(text)
  {
    hide IsSpace, IsBreak;
    assert Front(text + [c]) == text;
    var ls := Lines(text);
    if IsBreak(c) {
      assert Front(ls + [""]) == ls;
      assert Entry("") == None;
    } else {
      var last := Last(ls);
      var longer := Front(ls) + [last + [c]];
      assert Lines(text + [c]) == longer && Front(longer) == Front(ls);
      StripIgnoresTrailing(last, c);
    }
  }

  lemma {:induction false} StrippedTextReadsSame(text: string)
    ensures ReadEnv(StripRight(text) + "\n") == ReadEnv(text)
  {
    hide IsSpace, IsBreak, Lines;
    if text != "" && IsSpace(Last(text)) {
      StrippedTextReadsSame(Front(text));
      assert text == Front(text) + [Last(text)];
      TrailingSpaceIsIgnored(Front(text), Last(text));
    } else {
      EqualsIsNoSpace();
      TrailingSpaceIsIgnored(text, '\n');
    }
  }

  // ------------------------------------------------------------------ what is read is clean

  /** Whatever a line of a file assigns can be written back. */
  lemma ReadingIsClean(raw: string)
    requires OneLine(raw) && Entry(raw).Some?
    ensures CleanKey(Entry(raw).value.0) && Clean(Entry(raw).value.1)
  {
    hide IsSpace, IsBreak;
    var line := Strip(raw);
    StripFixesStripped(raw);
    var i := Find(line, '=');
    var key := line[..i];
    StripFixesStripped(key);
    StripFixesStripped(line[i + 1..]);
    StripLeftSuffix(key);
    StripRightPrefix(StripLeft(key));
    assert StripLeft(key) == key;
    StripRightKeepsPrefix(key);
  }

  lemma {:induction false} StripRightKeepsPrefix(s: string)
    ensures |StripRight(s)| <= |s| && StripRight(s) == s[..|StripRight(s)|]
  {
    hide IsSpace;
    if s != "" && IsSpace(Last(s)) { StripRightKeepsPrefix(Front(s)); }
  }

  lemma {:induction false} LinesAreOneLine(text: string)
    ensures forall i :: 0 <= i < |Lines(text)| ==> OneLine(Lines(text)[i])
  {
    hide IsBreak;
    if text != "" { LinesAreOneLine(Front(text)); }
  }

  lemma {:induction false} ValuesAreClean(lines: seq<string>, k: string)
    requires (forall i :: 0 <= i < |lines| ==> OneLine(lines[i])) && LastValue(lines, k).Some?
    ensures CleanKey(k) && Clean(LastValue(lines, k).value)
  {
    hide OneLine, Clean, CleanKey, Entry;
    assert OneLine(lines[|lines| - 1]);
    if Entry(Last(lines)).Some? && Entry(Last(lines)).value.0 == k {
      ReadingIsClean(Last(lines));
    } else {
      ValuesAreClean(Front(lines), k);
    }
  }
}
