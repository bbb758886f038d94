/** Writing broker profiles into a `.env` file and reading them back (config/credential_prompt.py). */
module EnvRoundTrip {
  import opened Common
  import opened BrokerProfiles
  import opened EnvFile
  import opened Strings

  /** Profiles with valid, different names and values that fit on a line without surrounding white space. */
  ghost predicate Writable(ps: seq<Profile>) {
    && (forall i :: 0 <= i < |ps| ==> CleanProfile(ps[i]))
    && forall i, j :: 0 <= i < j < |ps| ==> ps[i].name != ps[j].name
  }

  ghost predicate CleanProfile(p: Profile) {
    ValidName(p.name) && Clean(p.password) && Clean(p.server) && Clean(p.path) && Clean(p.display)
  }

  // ------------------------------------------------------------------ what each block assigns

  lemma CommentAssignsNothing(line: string)
    requires line != "" && line[0] == '#'
    ensures Entry(line) == None
  {
    assert StripLeft(line) == line;
    StripRightPrefix(line);
    StripRightOfConcat("#", line[1..]);
    assert line == "#" + line[1..];
  }

  lemma LastValueOfOne(lines: seq<string>, line: string, k: string)
    ensures LastValue(lines + [line], k)
      == if Entry(line).Some? && Entry(line).value.0 == k then Some(Entry(line).value.1) else LastValue(lines, k)
  {
    assert Front(lines + [line]) == lines;
  }

  lemma BlankAssignsNothing()
    ensures Entry("") == None
  {
  }

  /** Keys and values that may be written as they are. */
  ghost predicate CleanEntries(d: Dict, keys: seq<string>) {
    forall i :: 0 <= i < |keys| ==> CleanEntry(d, keys[i])
  }

  ghost predicate CleanEntry(d: Dict, k: string) {
    CleanKey(k) && Get(d, k).Some? && Clean(Get(d, k).value)
  }

  lemma {:induction false} KeyLinesAssign(d: Dict, keys: seq<string>, k: string)
    requires CleanEntries(d, keys)
    ensures LastValue(KeyLines(d, keys), k) == if k in keys then Get(d, k) else None
  {
    hide CleanKey, Clean, Entry;
    if keys != [] {
      assert CleanEntry(d, keys[|keys| - 1]);
      var last, v := Last(keys), Get(d, Last(keys)).value;
      KeyLinesAssign(d, Front(keys), k);
      CleanParts(last, v);
      AssignmentSurvivesExactly(last, v);
      LastValueOfOne(KeyLines(d, Front(keys)), last + "=" + v, k);
      assert keys == Front(keys) + [last];
    }
  }

  lemma CleanParts(k: string, v: string)
    requires Clean(v)
    ensures OneLine(v) && Stripped(v)
  {
  }

  lemma GlobalsAssign(d: Dict, keys: seq<string>, k: string)
    requires CleanEntries(d, keys)
    ensures LastValue(GlobalLines(d, keys), k) == if k in keys then Get(d, k) else None
  {
    hide Entry, KeyLines;
    if keys != [] {
      var title := "# === Global settings ===";
      KeyLinesAssign(d, keys, k);
      CommentAssignsNothing(title);
      LastValueOfOne([], title, k);
      LastValueOfConcat([title], KeyLines(d, keys), k);
      BlankAssignsNothing();
      LastValueOfOne([title] + KeyLines(d, keys), "", k);
      assert [] + [title] == [title];
    }
  }

  lemma ActiveAssigns(active: string, k: string)
    requires Clean(active)
    ensures LastValue([ACTIVE + "=" + active, ""], k) == if k == ACTIVE then Some(active) else None
  {
    hide Entry;
    ActiveIsClean();
    AssignmentSurvivesExactly(ACTIVE, active);
    var line := ACTIVE + "=" + active;
    assert [line, ""] == [line] + [""] && [] + [line] == [line];
    LastValueOfOne([], line, k);
    LastValueOfOne([line], "", k);
    BlankAssignsNothing();
  }

  /** What a profile says about a parsed key. */
  function Field(p: Profile, key: Option<(string, Suffix)>): Option<string> {
    if key.None? || key.value.0 != p.name then None
    else match key.value.1
      case LOGIN => Some(IntText(p.login))
      case PASSWORD => Some(p.password)
      case SERVER => Some(p.server)
      case PATH => if p.path != "" then Some(p.path) else None
      case LABEL => if p.display != "" then Some(p.display) else None
  }

  lemma LineAssigns(p: Profile, s: Suffix, v: string, lines: seq<string>, k: string)
    requires ValidName(p.name) && Clean(v)
    ensures LastValue(lines + [Line(p, s, v)], k)
      == if ParseKey(k) == Some((p.name, s)) then Some(v) else LastValue(lines, k)
  {
    hide Entry, ParseKey, Clean, CleanKey, ValidName;
    KeysAreClean(p.name, s);
    CleanParts(Key(p.name, s), v);
    AssignmentSurvivesExactly(Key(p.name, s), v);
    KeyRoundTrip(k, p.name, s);
    LastValueOfOne(lines, Line(p, s, v), k);
  }

  /** The lines every profile has. */
  function RequiredLines(p: Profile): seq<string> {
    [Title(p), Line(p, LOGIN, IntText(p.login)), Line(p, PASSWORD, p.password), Line(p, SERVER, p.server)]
  }

  lemma RequiredLinesAssign(p: Profile, k: string)
    requires CleanProfile(p)
    ensures LastValue(RequiredLines(p), k) ==
      var key := ParseKey(k);
      if key.None? || key.value.0 != p.name || key.value.1.PATH? || key.value.1.LABEL? then None else Field(p, key)
  {
    hide Entry, ParseKey, Clean, ValidName, Line, Title, LastValue;
    IntRoundTrip(p.login);
    hide IntText;
    TitleAssignsNothing(p, k);
    var l1 := [Title(p)] + [Line(p, LOGIN, IntText(p.login))];
    LineAssigns(p, LOGIN, IntText(p.login), [Title(p)], k);
    var l2 := l1 + [Line(p, PASSWORD, p.password)];
    LineAssigns(p, PASSWORD, p.password, l1, k);
    LineAssigns(p, SERVER, p.server, l2, k);
    assert RequiredLines(p) == l2 + [Line(p, SERVER, p.server)];
  }

  lemma ProfileAssigns(p: Profile, k: string)
    requires CleanProfile(p)
    ensures LastValue(ProfileLines(p), k) == Field(p, ParseKey(k))
  {
    hide Entry, ParseKey, Clean, ValidName, Line, Title, LastValue, IntText;
    RequiredLinesAssign(p, k);
    var l3 := RequiredLines(p);
    var l4 := l3 + if p.path != "" then [Line(p, PATH, p.path)] else [];
    LineAssigns(p, PATH, p.path, l3, k);
    assert l3 + [] == l3;
    var l5 := l4 + if p.display != "" then [Line(p, LABEL, p.display)] else [];
    LineAssigns(p, LABEL, p.display, l4, k);
    assert l4 + [] == l4;
    BlankAssignsNothing();
    LastValueOfOne(l5, "", k);
    assert ProfileLines(p) == l5 + [""];
  }

  lemma TitleAssignsNothing(p: Profile, k: string)
    ensures LastValue([Title(p)], k) == None
  {
    hide Entry;
    assert Title(p)[0] == '#';
    CommentAssignsNothing(Title(p));
    LastValueOfOne([], Title(p), k);
    assert [] + [Title(p)] == [Title(p)];
  }

  function FieldIn(ps: seq<Profile>, key: Option<(string, Suffix)>): Option<string> {
    if ps == [] then None
    else if Field(Last(ps), key).Some? then Field(Last(ps), key) else FieldIn(Front(ps), key)
  }

  lemma {:induction false} ProfilesAssign(ps: seq<Profile>, k: string)
    requires forall i :: 0 <= i < |ps| ==> CleanProfile(ps[i])
    ensures LastValue(AllProfileLines(ps), k) == FieldIn(ps, ParseKey(k))
  {
    hide ParseKey, CleanProfile, Field, ProfileLines;
    if ps != [] {
      ProfilesAssign(Front(ps), k);
      assert CleanProfile(ps[|ps| - 1]);
      ProfileAssigns(Last(ps), k);
      LastValueOfConcat(AllProfileLines(Front(ps)), ProfileLines(Last(ps)), k);
    }
  }

  /** Different names: a key is answered by the one profile with its name. */
  lemma {:induction false} FieldOfOwner(ps: seq<Profile>, i: nat, s: Suffix)
    requires i < |ps| && forall a, b :: 0 <= a < b < |ps| ==> ps[a].name != ps[b].name
    ensures FieldIn(ps, Some((ps[i].name, s))) == Field(ps[i], Some((ps[i].name, s)))
  {
    var key := Some((ps[i].name, s));
    if i < |ps| - 1 {
      assert ps[i].name != ps[|ps| - 1].name;
      FieldOfOwner(Front(ps), i, s);
    } else {
      NobodyElse(Front(ps), ps[i].name, s);
    }
  }

  lemma {:induction false} NobodyElse(ps: seq<Profile>, n: string, s: Suffix)
    ensures FieldIn(ps, Some((n, s))).Some? ==> exists i :: 0 <= i < |ps| && ps[i].name == n
  {
    if ps != [] {
      NobodyElse(Front(ps), n, s);
      if Field(Last(ps), Some((n, s))).Some? {
        assert ps[|ps| - 1].name == n;
      } else if FieldIn(ps, Some((n, s))).Some? {
        var i :| 0 <= i < |Front(ps)| && Front(ps)[i].name == n;
        assert ps[i].name == n;
      }
    }
  }

  /** The value the written file assigns to a key. */
  lemma FileAssigns(d: Dict, keys: seq<string>, ps: seq<Profile>, active: string, k: string)
    requires CleanEntries(d, keys) && Clean(active) && Writable(ps)
    requires forall x :: x in keys ==> ParseKey(x) == None && x != ACTIVE
    ensures LastValue(FileLines(d, keys, ps, active), k) ==
      if ParseKey(k).Some? then FieldIn(ps, ParseKey(k))
      else if k == ACTIVE then Some(active)
      else if k in keys then Get(d, k) else None
  {
    hide ParseKey, Clean, CleanProfile, CleanEntries, GlobalLines, AllProfileLines, LastValue, Field;
    var head := [ACTIVE + "=" + active, ""];
    GlobalsAssign(d, keys, k);
    ActiveAssigns(active, k);
    ProfilesAssign(ps, k);
    LastValueOfConcat(GlobalLines(d, keys), head, k);
    LastValueOfConcat(GlobalLines(d, keys) + head, AllProfileLines(ps), k);
    ActiveIsClean();
    if ParseKey(k).None? { NoFieldWithoutKey(ps); }
  }

  lemma {:induction false} NoFieldWithoutKey(ps: seq<Profile>)
    ensures FieldIn(ps, None) == None
  {
    if ps != [] { NoFieldWithoutKey(Front(ps)); }
  }

  // ------------------------------------------------------------------ the file has those lines

  ghost predicate AllOneLine(lines: seq<string>) {
    forall i :: 0 <= i < |lines| ==> OneLine(lines[i])
  }

  lemma OneLineConcat(a: string, b: string)
    requires OneLine(a) && OneLine(b)
    ensures OneLine(a + b)
  {
  }

  lemma AllOneLineAppend(lines: seq<string>, line: string)
    requires AllOneLine(lines) && OneLine(line)
    ensures AllOneLine(lines + [line]) && AllOneLine([line] + lines)
  {
  }

  lemma EntryIsOneLine(d: Dict, k: string)
    requires CleanEntry(d, k)
    ensures OneLine(k + "=" + Get(d, k).value)
  {
    OneLineConcat(k, "=");
    OneLineConcat(k + "=", Get(d, k).value);
  }

  lemma {:induction false} KeyLinesAreOneLine(d: Dict, keys: seq<string>)
    requires CleanEntries(d, keys)
    ensures AllOneLine(KeyLines(d, keys))
  {
    hide CleanEntry, OneLine, AllOneLine, Get;
    if keys == [] {
      NoLines();
    } else {
      assert CleanEntry(d, keys[|keys| - 1]);
      KeyLinesAreOneLine(d, Front(keys));
      HasValue(d, Last(keys));
      EntryIsOneLine(d, Last(keys));
      AllOneLineAppend(KeyLines(d, Front(keys)), Last(keys) + "=" + Get(d, Last(keys)).value);
    }
  }

  lemma HasValue(d: Dict, k: string)
    requires CleanEntry(d, k)
    ensures Get(d, k).Some?
  {
  }

  lemma NoLines()
    ensures AllOneLine([])
  {
  }

  lemma GlobalLinesAreOneLine(d: Dict, keys: seq<string>)
    requires CleanEntries(d, keys)
    ensures AllOneLine(GlobalLines(d, keys))
  {
    hide CleanEntries, AllOneLine, KeyLines;
    assert OneLine("# === Global settings ===");
    NothingBreaks();
    NoLines();
    hide OneLine;
    KeyLinesAreOneLine(d, keys);
    AllOneLineAppend(KeyLines(d, keys), "# === Global settings ===");
    AllOneLineAppend(["# === Global settings ==="] + KeyLines(d, keys), "");
  }

  lemma LineIsOneLine(p: Profile, s: Suffix, v: string)
    requires ValidName(p.name) && OneLine(v)
    ensures OneLine(Line(p, s, v))
  {
    hide Key, ValidName;
    KeysAreClean(p.name, s);
    OneLineConcat(Key(p.name, s), "=");
    OneLineConcat(Key(p.name, s) + "=", v);
  }

  lemma ProfileLinesAreOneLine(p: Profile)
    requires CleanProfile(p)
    ensures AllOneLine(ProfileLines(p))
  {
    hide Line, IsBreak, OneLine, Title, Key, IntText, Stripped, ValidName;
    IntRoundTrip(p.login);
    LineIsOneLine(p, LOGIN, IntText(p.login));
    LineIsOneLine(p, PASSWORD, p.password);
    LineIsOneLine(p, SERVER, p.server);
    LineIsOneLine(p, PATH, p.path);
    LineIsOneLine(p, LABEL, p.display);
    TitleIsOneLine(p);
    NothingBreaks();
  }

  lemma ActiveIsOneLine()
    ensures OneLine(ACTIVE + "=")
  {
  }

  lemma NothingBreaks()
    ensures OneLine("")
  {
  }

  lemma TitleIsOneLine(p: Profile)
    requires CleanProfile(p)
    ensures OneLine(Title(p))
  {
    var t := if p.display != "" then p.display else p.name;
    assert OneLine("# === Broker profile: ") && OneLine(" ===");
    OneLineConcat("# === Broker profile: ", t);
    OneLineConcat("# === Broker profile: " + t, " ===");
  }

  lemma {:induction false} AllProfilesAreOneLine(ps: seq<Profile>)
    requires forall i :: 0 <= i < |ps| ==> CleanProfile(ps[i])
    ensures AllOneLine(AllProfileLines(ps))
  {
    hide CleanProfile, OneLine, ProfileLines;
    if ps != [] {
      AllProfilesAreOneLine(Front(ps));
      assert CleanProfile(ps[|ps| - 1]);
      ProfileLinesAreOneLine(Last(ps));
    }
  }

  /** The text reads back as its lines, the trimming of its end notwithstanding. */
  lemma SerializedReadsAsLines(d: Dict, keys: seq<string>, ps: seq<Profile>, active: string)
    requires CleanEntries(d, keys) && Clean(active) && Writable(ps)
    ensures ReadEnv(Serialized(d, keys, ps, active)) == ReadLines(FileLines(d, keys, ps, active))
  {
    hide OneLine, CleanProfile, CleanEntries, GlobalLines, AllProfileLines, Stripped;
    var lines := FileLines(d, keys, ps, active);
    GlobalLinesAreOneLine(d, keys);
    AllProfilesAreOneLine(ps);
    NothingBreaks();
    ActiveIsOneLine();
    OneLineConcat(ACTIVE + "=", active);
    LinesOfJoin(lines);
    StrippedTextReadsSame(Join(lines));
  }

  // ------------------------------------------------------------------ what the old file contributes

  lemma {:induction false} GetFindsKeys(d: Dict, k: string)
    ensures Get(d, k).Some? <==> exists i :: 0 <= i < |d| && d[i].0 == k
  {
    if d != [] {
      GetFindsKeys(d[1..], k);
      if Get(d[1..], k).Some? {
        var i :| 0 <= i < |d[1..]| && d[1..][i].0 == k;
        assert d[i + 1].0 == k;
      }
      if exists i :: 0 <= i < |d| && d[i].0 == k {
        var i :| 0 <= i < |d| && d[i].0 == k;
        if i > 0 { assert d[1..][i - 1].0 == k; }
      }
    }
  }

  lemma {:induction false} ForeignKeys(d: Dict, k: string)
    ensures k in Foreign(d) <==> Get(d, k).Some? && ParseKey(k).None? && k != ACTIVE
  {
    ForeignMembers(d, k);
    GetFindsKeys(d, k);
  }

  lemma {:induction false} ForeignMembers(d: Dict, k: string)
    ensures k in Foreign(d) <==> (exists i :: 0 <= i < |d| && d[i].0 == k) && ParseKey(k).None? && k != ACTIVE
  {
    hide ParseKey;
    if d != [] {
      ForeignMembers(Front(d), k);
      assert d[|d| - 1] == Last(d);
      if k == Last(d).0 { assert d[|d| - 1].0 == k; }
      if exists i :: 0 <= i < |d| && d[i].0 == k {
        var i :| 0 <= i < |d| && d[i].0 == k;
        if i < |d| - 1 { assert Front(d)[i].0 == k; }
      }
      if exists i :: 0 <= i < |Front(d)| && Front(d)[i].0 == k {
        var i :| 0 <= i < |Front(d)| && Front(d)[i].0 == k;
        assert d[i].0 == k;
      }
    }
  }

  lemma {:induction false} SortNamesKeepsAll(names: seq<string>)
    ensures forall x :: x in SortNames(names) <==> x in names
  {
    if names != [] {
      SortNamesKeepsAll(Front(names));
      InsertNameMembers(SortNames(Front(names)), Last(names));
      assert names == Front(names) + [Last(names)];
    }
  }

  /** Everything the parser found in a file can be written back unchanged. */
  lemma OldEntriesAreClean(text: string)
    ensures CleanEntries(ReadEnv(text), SortNames(Foreign(ReadEnv(text))))
    ensures forall x :: x in SortNames(Foreign(ReadEnv(text))) ==> ParseKey(x) == None && x != ACTIVE
  {
    hide ParseKey, ReadLines, Lines, LastValue, Foreign, Clean, CleanKey;
    var d := ReadEnv(text);
    var keys := SortNames(Foreign(d));
    SortNamesKeepsAll(Foreign(d));
    LinesAreOneLine(text);
    forall i | 0 <= i < |keys| ensures CleanEntry(d, keys[i]) && ParseKey(keys[i]) == None && keys[i] != ACTIVE {
      assert keys[i] in keys;
      ForeignKeys(d, keys[i]);
      LastLineWins(Lines(text), keys[i]);
      ValuesAreClean(Lines(text), keys[i]);
    }
  }

  /** Looking a key up in the rewritten file, whatever the old file was. */
  lemma RewrittenAssigns(text: string, ps: seq<Profile>, active: string, k: string)
    requires Clean(active) && Writable(ps)
    ensures Get(ReadEnv(Rewritten(text, ps, active)), k) ==
      if ParseKey(k).Some? then FieldIn(ps, ParseKey(k))
      else if k == ACTIVE then Some(active)
      else Get(ReadEnv(text), k)
  {
    hide ParseKey, ReadLines, Lines, LastValue, Foreign, Clean, CleanProfile;
    hide FieldIn, CleanEntries, FileLines, Serialized, Get;
    var d := ReadEnv(text);
    var keys := SortNames(Foreign(d));
    OldEntriesAreClean(text);
    SerializedReadsAsLines(d, keys, ps, active);
    LastLineWins(FileLines(d, keys, ps, active), k);
    FileAssigns(d, keys, ps, active, k);
    SortNamesKeepsAll(Foreign(d));
    ForeignKeys(d, k);
  }

  /** Every key outside the profiles keeps its value, present or absent, and the active broker is the new one. */
  lemma OtherKeysSurvive(text: string, ps: seq<Profile>, active: string, k: string)
    requires Clean(active) && Writable(ps)
    ensures ParseKey(k) == None && k != ACTIVE ==> Get(ReadEnv(Rewritten(text, ps, active)), k) == Get(ReadEnv(text), k)
    ensures Get(ReadEnv(Rewritten(text, ps, active)), ACTIVE) == Some(active)
  {
    hide ParseKey, ReadEnv, Rewritten, Clean, Writable;
    RewrittenAssigns(text, ps, active, k);
    RewrittenAssigns(text, ps, active, ACTIVE);
    ActiveIsClean();
  }

  // ------------------------------------------------------------------ the profiles come back

  lemma {:induction false} NamesAreKeyNames(d: Dict, n: string)
    ensures n in Names(d) <==> exists i :: 0 <= i < |d| && ParseKey(d[i].0).Some? && ParseKey(d[i].0).value.0 == n
    ensures forall i, j :: 0 <= i < j < |Names(d)| ==> Names(d)[i] != Names(d)[j]
  {
    hide ParseKey;
    if d != [] {
      NamesAreKeyNames(Front(d), n);
      assert d == Front(d) + [Last(d)] && d[|d| - 1] == Last(d);
      if n in Names(Front(d)) {
        var i :| 0 <= i < |Front(d)| && ParseKey(Front(d)[i].0).Some? && ParseKey(Front(d)[i].0).value.0 == n;
        assert d[i] == Front(d)[i];
      }
      if exists i :: 0 <= i < |d| && ParseKey(d[i].0).Some? && ParseKey(d[i].0).value.0 == n {
        var i :| 0 <= i < |d| && ParseKey(d[i].0).Some? && ParseKey(d[i].0).value.0 == n;
        if i < |d| - 1 { assert Front(d)[i] == d[i]; }
      }
    }
  }

  /** The names in the rewritten file are those of the profiles that were written. */
  lemma NamesComeBack(text: string, ps: seq<Profile>, active: string, n: string)
    requires Clean(active) && Writable(ps)
    ensures n in Names(ReadEnv(Rewritten(text, ps, active))) <==> exists i :: 0 <= i < |ps| && ps[i].name == n
  {
    hide ParseKey, ReadEnv, Rewritten, Clean, CleanProfile, Names, Get, Key, ValidName;
    var d := ReadEnv(Rewritten(text, ps, active));
    NamesAreKeyNames(d, n);
    if n in Names(d) {
      var i :| 0 <= i < |d| && ParseKey(d[i].0).Some? && ParseKey(d[i].0).value.0 == n;
      var k := d[i].0;
      GetFindsKeys(d, k);
      RewrittenAssigns(text, ps, active, k);
      NobodyElse(ps, n, ParseKey(k).value.1);
    }
    if exists i :: 0 <= i < |ps| && ps[i].name == n {
      var i :| 0 <= i < |ps| && ps[i].name == n;
      FieldComesBack(text, ps, active, i, LOGIN);
      GetFindsKeys(d, Key(n, LOGIN));
      var j :| 0 <= j < |d| && d[j].0 == Key(n, LOGIN);
      assert CleanProfile(ps[i]);
      ValidNameOf(ps[i]);
      KeyRoundTrip(Key(n, LOGIN), n, LOGIN);
      assert ParseKey(d[j].0).Some? && ParseKey(d[j].0).value.0 == n;
    }
  }

  lemma ValidNameOf(p: Profile)
    requires CleanProfile(p)
    ensures ValidName(p.name)
  {
  }

  lemma FieldComesBack(text: string, ps: seq<Profile>, active: string, i: nat, s: Suffix)
    requires Clean(active) && Writable(ps) && i < |ps|
    ensures Get(ReadEnv(Rewritten(text, ps, active)), Key(ps[i].name, s)) == Field(ps[i], Some((ps[i].name, s)))
  {
    hide ParseKey, ReadEnv, Rewritten, Clean, CleanProfile, Key, ValidName, Field, FieldIn, Get;
    assert CleanProfile(ps[i]);
    ValidNameOf(ps[i]);
    KeyRoundTrip(Key(ps[i].name, s), ps[i].name, s);
    RewrittenAssigns(text, ps, active, Key(ps[i].name, s));
    FieldOfOwner(ps, i, s);
  }

  lemma ProfileComesBack(text: string, ps: seq<Profile>, active: string, i: nat)
    requires Clean(active) && Writable(ps) && i < |ps|
    ensures ProfileOf(ReadEnv(Rewritten(text, ps, active)), ps[i].name) == ps[i]
  {
    hide ReadEnv, Rewritten, Clean, Writable, Key, ParseInt, IntText, Get;
    FieldComesBack(text, ps, active, i, LOGIN);
    FieldComesBack(text, ps, active, i, PASSWORD);
    FieldComesBack(text, ps, active, i, SERVER);
    FieldComesBack(text, ps, active, i, PATH);
    FieldComesBack(text, ps, active, i, LABEL);
    IntRoundTrip(ps[i].login);
  }

  lemma {:induction false} ProfilesOfAt(d: Dict, names: seq<string>, i: nat)
    requires i < |names|
    ensures |ProfilesOf(d, names)| == |names| && ProfilesOf(d, names)[i] == ProfileOf(d, names[i])
    ensures ProfilesOf(d, names)[i].name == names[i]
  {
    hide Value, ParseInt;
    if i < |names| - 1 {
      ProfilesOfAt(d, Front(names), i);
    } else if |names| > 1 {
      ProfilesOfAt(d, Front(names), 0);
    }
  }

  /**
   * The round trip: whatever file was there, writing profiles and listing the result gives back the same profiles,
   * all of them and no others, in strictly increasing order of name.
   */
  lemma ProfilesRoundTrip(text: string, ps: seq<Profile>, active: string)
    requires Clean(active) && Writable(ps)
    ensures var r := Listed(ReadEnv(Rewritten(text, ps, active)));
      && (forall p :: p in r <==> p in ps)
      && forall i, j :: 0 <= i < j < |r| ==> Before(r[i].name, r[j].name)
  {
    hide ReadEnv, Rewritten, Clean, Writable, ProfileOf, Names, SortNames, ProfilesOf;
    var d := ReadEnv(Rewritten(text, ps, active));
    var sorted, r := SortNames(Names(d)), Listed(d);
    NamesAreKeyNames(d, "");
    SortNamesSorts(Names(d));
    ListedLength(d);
    forall i | 0 <= i < |sorted| ensures r[i] == ProfileOf(d, sorted[i]) && r[i].name == sorted[i] && r[i] in ps {
      ProfilesOfAt(d, sorted, i);
      assert sorted[i] in sorted;
      NamesComeBack(text, ps, active, sorted[i]);
      var k :| 0 <= k < |ps| && ps[k].name == sorted[i];
      ProfileComesBack(text, ps, active, k);
    }
    forall k | 0 <= k < |ps| ensures ps[k] in r {
      NamesComeBack(text, ps, active, ps[k].name);
      ProfileComesBack(text, ps, active, k);
      var i :| 0 <= i < |sorted| && sorted[i] == ps[k].name;
      assert r[i] == ps[k];
    }
  }

  lemma ListedLength(d: Dict)
    ensures |Listed(d)| == |SortNames(Names(d))|
  {
    var sorted := SortNames(Names(d));
    if sorted != [] { ProfilesOfAt(d, sorted, 0); }
  }
}
