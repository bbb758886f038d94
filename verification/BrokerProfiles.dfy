/** Broker profiles: their keys, their printer, and the round trip through the file (config/credential_prompt.py). */
module BrokerProfiles {
  import opened Common
  import opened EnvFile
  import opened Strings

  datatype Profile = Profile(name: string, login: int, password: string, server: string, path: string, display: string)

  datatype Suffix = LOGIN | PASSWORD | SERVER | PATH | LABEL

  function Text(s: Suffix): string {
    match s
    case LOGIN => "LOGIN"
    case PASSWORD => "PASSWORD"
    case SERVER => "SERVER"
    case PATH => "PATH"
    case LABEL => "LABEL"
  }

  // ------------------------------------------------------------------ keys

  predicate NameChar(c: char) {
    'A' <= c <= 'Z' || '0' <= c <= '9' || c == '_'
  }

  predicate ValidName(n: string) {
    n != "" && forall i :: 0 <= i < |n| ==> NameChar(n[i])
  }

  const PREFIX := "BROKER_"
  const ACTIVE := "ACTIVE_BROKER"

  function Key(n: string, s: Suffix): string {
    PREFIX + n + "_" + Text(s)
  }

  /** The name in a key that ends in the given suffix. */
  function NameBefore(key: string, s: Suffix): Option<string> {
    var t := "_" + Text(s);
    if |key| > |PREFIX| + |t| && key[..|PREFIX|] == PREFIX && key[|key| - |t|..] == t
       && ValidName(key[|PREFIX|..|key| - |t|])
    then Some(key[|PREFIX|..|key| - |t|])
    else None
  }

  /** The profile key pattern: name and suffix, if the key is one. */
  function ParseKey(key: string): Option<(string, Suffix)> {
    if NameBefore(key, LOGIN).Some? then Some((NameBefore(key, LOGIN).value, LOGIN))
    else if NameBefore(key, PASSWORD).Some? then Some((NameBefore(key, PASSWORD).value, PASSWORD))
    else if NameBefore(key, SERVER).Some? then Some((NameBefore(key, SERVER).value, SERVER))
    else if NameBefore(key, PATH).Some? then Some((NameBefore(key, PATH).value, PATH))
    else if NameBefore(key, LABEL).Some? then Some((NameBefore(key, LABEL).value, LABEL))
    else None
  }

  lemma NameBeforeIsExact(key: string, s: Suffix, n: string)
    ensures NameBefore(key, s) == Some(n) <==> ValidName(n) && key == Key(n, s)
  {
    var t := "_" + Text(s);
    if ValidName(n) && key == Key(n, s) {
      assert key == PREFIX + n + t;
      assert key[..|PREFIX|] == PREFIX && key[|key| - |t|..] == t && key[|PREFIX|..|key| - |t|] == n;
    }
    if NameBefore(key, s) == Some(n) {
      assert key == key[..|PREFIX|] + key[|PREFIX|..|key| - |t|] + key[|key| - |t|..];
    }
  }

  /** A key ends in one suffix only: the letter before the last but one, and the last, tell them apart. */
  lemma OneSuffixOnly(key: string, s: Suffix, t: Suffix)
    requires NameBefore(key, s).Some? && NameBefore(key, t).Some?
    ensures s == t
  {
    var a, b := "_" + Text(s), "_" + Text(t);
    var n := |key|;
    assert key[n - |a|..] == a && key[n - |b|..] == b;
    assert key[n - 1] == a[|a| - 1] && key[n - 1] == b[|b| - 1];
    assert key[n - 2] == a[|a| - 2] && key[n - 2] == b[|b| - 2];
  }

  /**
   * The split into name and suffix is unique, whatever underscores or suffix words the name itself contains, and a
   * key is a profile key exactly when it was printed from a valid name.
   */
  lemma KeyRoundTrip(key: string, n: string, s: Suffix)
    ensures ParseKey(key) == Some((n, s)) <==> ValidName(n) && key == Key(n, s)
  {
    NameBeforeIsExact(key, s, n);
    hide NameBefore, Key, ValidName;
    if ParseKey(key).Some? {
      var t := ParseKey(key).value.1;
      assert NameBefore(key, t).Some?;
      if NameBefore(key, s).Some? { OneSuffixOnly(key, s, t); }
    }
  }

  lemma KeysAreClean(n: string, s: Suffix)
    requires ValidName(n)
    ensures CleanKey(Key(n, s)) && Key(n, s) != ACTIVE
  {
    var k := Key(n, s);
    forall i | 0 <= i < |k| ensures NameChar(k[i]) {
      if |PREFIX| <= i < |PREFIX| + |n| { assert k[i] == n[i - |PREFIX|]; }
    }
    assert k[0] == 'B' && ACTIVE[0] == 'A';
  }

  lemma ActiveIsClean()
    ensures CleanKey(ACTIVE) && ParseKey(ACTIVE) == None
  {
    forall s: Suffix ensures NameBefore(ACTIVE, s) == None { assert ACTIVE[..7][0] == 'A' && PREFIX[0] == 'B'; }
  }

  // ------------------------------------------------------------------ numbers

  function IntText(n: int): string {
    if n < 0 then "-" + Decimal(-n) else Decimal(n)
  }

  /** Digits, with single underscores allowed between two of them. */
  predicate DigitGroups(s: string) {
    && s != "" && IsDigit(s[0]) && IsDigit(Last(s))
    && (forall i :: 0 <= i < |s| ==> IsDigit(s[i]) || s[i] == '_')
    && forall i :: 1 <= i < |s| ==> s[i] != '_' || s[i - 1] != '_'
  }

  function WithoutUnderscores(s: string): string {
    if s == "" then "" else WithoutUnderscores(Front(s)) + if Last(s) == '_' then "" else [Last(s)]
  }

  lemma {:induction false} OnlyDigitsLeft(s: string)
    requires forall i :: 0 <= i < |s| ==> IsDigit(s[i]) || s[i] == '_'
    ensures AllDigits(WithoutUnderscores(s)) && (AllDigits(s) ==> WithoutUnderscores(s) == s)
  {
    if s != "" {
      OnlyDigitsLeft(Front(s));
      assert s == Front(s) + [Last(s)];
    }
  }

  /** What `int` makes of a text in ASCII; white space around it is already stripped. */
  function ParseInt(s: string): Option<int> {
    var signed := s != "" && (s[0] == '-' || s[0] == '+');
    var digits := if signed then s[1..] else s;
    if !DigitGroups(digits) then None
    else
      OnlyDigitsLeft(digits);
      var n: int := Number(WithoutUnderscores(digits));
      Some(if signed && s[0] == '-' then -n else n)
  }

  lemma DigitIsNoSpace(c: char)
    requires IsDigit(c) || c == '-'
    ensures !IsSpace(c) && !IsBreak(c)
  {
  }

  lemma DigitsAreClean(d: string)
    requires d != "" && forall i :: 0 <= i < |d| ==> IsDigit(d[i]) || d[i] == '-'
    ensures Clean(d)
  {
    hide IsSpace, IsBreak, IsDigit;
    forall i | 0 <= i < |d| ensures !IsSpace(d[i]) && !IsBreak(d[i]) { DigitIsNoSpace(d[i]); }
    assert Last(d) == d[|d| - 1];
  }

  lemma DigitsAreAGroup(d: string)
    requires d != "" && AllDigits(d)
    ensures DigitGroups(d) && WithoutUnderscores(d) == d && Clean(d)
    ensures d[0] != '-' && d[0] != '+' && ("-" + d)[1..] == d && Clean("-" + d)
  {
    hide Clean, WithoutUnderscores;
    OnlyDigitsLeft(d);
    assert Last(d) == d[|d| - 1];
    DigitsAreClean(d);
    DigitsAreClean("-" + d);
  }

  lemma IntRoundTrip(n: int)
    ensures ParseInt(IntText(n)) == Some(n) && Clean(IntText(n)) && IntText(n) != ""
  {
    hide Decimal, Number, AllDigits, WithoutUnderscores, DigitGroups, Clean;
    DecimalRoundTrip(if n < 0 then -n else n);
    DigitsAreAGroup(Decimal(if n < 0 then -n else n));
  }

  // ------------------------------------------------------------------ the printer

  function KeyLines(d: Dict, keys: seq<string>): seq<string> {
    if keys == [] then []
    else
      var v := Get(d, Last(keys));
      KeyLines(d, Front(keys)) + [Last(keys) + "=" + if v.Some? then v.value else ""]
  }

  function GlobalLines(d: Dict, keys: seq<string>): seq<string> {
    if keys == [] then [] else ["# === Global settings ==="] + KeyLines(d, keys) + [""]
  }

  function Line(p: Profile, s: Suffix, v: string): string {
    Key(p.name, s) + "=" + v
  }

  function Title(p: Profile): string {
    "# === Broker profile: " + (if p.display != "" then p.display else p.name) + " ==="
  }

  function ProfileLines(p: Profile): seq<string> {
    [Title(p), Line(p, LOGIN, IntText(p.login)), Line(p, PASSWORD, p.password), Line(p, SERVER, p.server)]
    + (if p.path != "" then [Line(p, PATH, p.path)] else [])
    + (if p.display != "" then [Line(p, LABEL, p.display)] else [])
    + [""]
  }

  function AllProfileLines(ps: seq<Profile>): seq<string> {
    if ps == [] then [] else AllProfileLines(Front(ps)) + ProfileLines(Last(ps))
  }

  function FileLines(d: Dict, keys: seq<string>, ps: seq<Profile>, active: string): seq<string> {
    GlobalLines(d, keys) + [ACTIVE + "=" + active, ""] + AllProfileLines(ps)
  }

  function Serialized(d: Dict, keys: seq<string>, ps: seq<Profile>, active: string): string {
    StripRight(Join(FileLines(d, keys, ps, active))) + "\n"
  }

  /** The keys of a dictionary that this writer does not own, in dictionary order. */
  function Foreign(d: Dict): seq<string> {
    if d == [] then []
    else Foreign(Front(d)) + if ParseKey(Last(d).0).None? && Last(d).0 != ACTIVE then [Last(d).0] else []
  }

  /** Rewriting a file: whatever it assigned outside the profiles is kept. */
  function Rewritten(text: string, ps: seq<Profile>, active: string): string {
    var d := ReadEnv(text);
    Serialized(d, SortNames(Foreign(d)), ps, active)
  }

  method WriteEnvFile(text: string, ps: seq<Profile>, active: string) returns (body: string)
    ensures body == Rewritten(text, ps, active)
  {
    var existing := ReadEnvFile(text);
    var keys := [];
    assert existing[..0] == [];
    for i := 0 to |existing|
      invariant keys == Foreign(existing[..i])
    {
      assert Front(existing[..i + 1]) == existing[..i] && Last(existing[..i + 1]) == existing[i];
      if ParseKey(existing[i].0).None? && existing[i].0 != ACTIVE { keys := keys + [existing[i].0]; }
    }
    assert existing[..|existing|] == existing;
    var lines := SerializeEnv(existing, SortNames(keys), ps, active);
    body := StripRight(Join(lines)) + "\n";
  }

  method SerializeGlobals(d: Dict, keys: seq<string>) returns (lines: seq<string>)
    ensures lines == GlobalLines(d, keys)
  {
    if keys == [] { return []; }
    lines := ["# === Global settings ==="];
    assert keys[..0] == [];
    for i := 0 to |keys|
      invariant lines == ["# === Global settings ==="] + KeyLines(d, keys[..i])
    {
      assert Front(keys[..i + 1]) == keys[..i];
      var v := Get(d, keys[i]);
      lines := lines + [keys[i] + "=" + if v.Some? then v.value else ""];
    }
    assert keys[..|keys|] == keys;
    lines := lines + [""];
  }

  method SerializeProfile(p: Profile) returns (block: seq<string>)
    ensures block == ProfileLines(p)
  {
    hide Title, Line;
    block := [Title(p), Line(p, LOGIN, IntText(p.login)), Line(p, PASSWORD, p.password), Line(p, SERVER, p.server)];
    if p.path != "" { block := block + [Line(p, PATH, p.path)]; }
    if p.display != "" { block := block + [Line(p, LABEL, p.display)]; }
    block := block + [""];
  }

  method SerializeEnv(d: Dict, keys: seq<string>, ps: seq<Profile>, active: string) returns (lines: seq<string>)
    ensures lines == FileLines(d, keys, ps, active)
  {
    hide ProfileLines, GlobalLines;
    lines := SerializeGlobals(d, keys);
    lines := lines + [ACTIVE + "=" + active, ""];
    ghost var head := lines;
    assert ps[..0] == [] && head + [] == head;
    for i := 0 to |ps|
      invariant lines == head + AllProfileLines(ps[..i])
    {
      assert Front(ps[..i + 1]) == ps[..i];
      var block := SerializeProfile(ps[i]);
      assert (head + AllProfileLines(ps[..i])) + block == head + (AllProfileLines(ps[..i]) + block);
      lines := lines + block;
    }
    assert ps[..|ps|] == ps;
  }

  // ------------------------------------------------------------------ listing

  /** The different names that occur in profile keys, by first appearance. */
  function Names(d: Dict): seq<string> {
    if d == [] then []
    else
      var before, k := Names(Front(d)), ParseKey(Last(d).0);
      if k.Some? && k.value.0 !in before then before + [k.value.0] else before
  }

  function Value(d: Dict, n: string, s: Suffix): string {
    var v := Get(d, Key(n, s));
    if v.Some? then v.value else ""
  }

  /** An unreadable or missing login counts as zero. */
  function ProfileOf(d: Dict, n: string): Profile {
    var text := Value(d, n, LOGIN);
    var login := ParseInt(if text == "" then "0" else text);
    Profile(n, if login.Some? then login.value else 0,
            Value(d, n, PASSWORD), Value(d, n, SERVER), Value(d, n, PATH), Value(d, n, LABEL))
  }

  function ProfilesOf(d: Dict, names: seq<string>): seq<Profile> {
    if names == [] then [] else ProfilesOf(d, Front(names)) + [ProfileOf(d, Last(names))]
  }

  function Listed(d: Dict): seq<Profile> {
    ProfilesOf(d, SortNames(Names(d)))
  }

  method ListProfiles(d: Dict) returns (profiles: seq<Profile>)
    ensures profiles == Listed(d)
  {
    var names: seq<string> := [];
    assert d[..0] == [];
    for i := 0 to |d|
      invariant names == Names(d[..i])
    {
      assert Front(d[..i + 1]) == d[..i] && Last(d[..i + 1]) == d[i];
      var m := ParseKey(d[i].0);
      if m.Some? && m.value.0 !in names { names := names + [m.value.0]; }
    }
    assert d[..|d|] == d;
    var sorted := SortNames(names);
    profiles := [];
    assert sorted[..0] == [];
    for i := 0 to |sorted|
      invariant profiles == ProfilesOf(d, sorted[..i])
    {
      assert Front(sorted[..i + 1]) == sorted[..i];
      profiles := profiles + [ProfileOf(d, sorted[i])];
    }
    assert sorted[..|sorted|] == sorted;
  }

  // ------------------------------------------------------------------ names typed by the user

  predicate IsSeparator(c: char) {
    c == ' ' || c == '-'
  }

  /** Runs of spaces and dashes become one underscore each. */
  function Joined(raw: string): string {
    if raw == "" then ""
    else
      var before, c := Joined(Front(raw)), Last(raw);
      if !IsSeparator(c) then before + [c]
      else if |raw| > 1 && IsSeparator(Last(Front(raw))) then before
      else before + "_"
  }

  predicate IsWordChar(c: char) {
    'A' <= c <= 'Z' || 'a' <= c <= 'z' || '0' <= c <= '9' || c == '_'
  }

  /** Everything but ASCII letters, digits and underscores is dropped. */
  function Filtered(s: string): string {
    if s == "" then "" else Filtered(Front(s)) + if IsWordChar(Last(s)) then [Last(s)] else ""
  }

  /** Runs of underscores become one. */
  function Collapsed(s: string): string {
    if s == "" then ""
    else
      var before, c := Collapsed(Front(s)), Last(s);
      if c == '_' && before != "" && Last(before) == '_' then before else before + [c]
  }

  function TrimLeft(s: string): string {
    if s != "" && s[0] == '_' then TrimLeft(s[1..]) else s
  }

  function TrimRight(s: string): string {
    if s != "" && Last(s) == '_' then TrimRight(Front(s)) else s
  }

  function Upper(s: string): (u: string)
    ensures |u| == |s|
  {
    if s == "" then ""
    else
      var c := Last(s);
      Upper(Front(s)) + [if 'a' <= c <= 'z' then c - 'a' + 'A' else c]
  }

  function NormaliseName(raw: string): string {
    var s := Upper(TrimRight(TrimLeft(Collapsed(Filtered(Joined(raw))))));
    if s == "" then "BROKER" else s
  }

  /** Upper-case words joined by single underscores. */
  ghost predicate IsNormal(n: string) {
    && ValidName(n) && n[0] != '_' && Last(n) != '_'
    && NoDoubleUnderscore(n)
  }

  ghost predicate NoDoubleUnderscore(s: string) {
    forall i, j :: 0 <= i && j == i + 1 && j < |s| ==> s[i] != '_' || s[j] != '_'
  }

  ghost predicate WordChars(s: string) {
    forall i :: 0 <= i < |s| ==> IsWordChar(s[i])
  }

  lemma {:induction false} FilteredIsWords(s: string)
    ensures WordChars(Filtered(s)) && (WordChars(s) ==> Filtered(s) == s)
  {
    if s != "" {
      FilteredIsWords(Front(s));
      assert s == Front(s) + [Last(s)];
    }
  }

  lemma {:induction false} CollapsedHasNoDoubles(s: string)
    ensures NoDoubleUnderscore(Collapsed(s)) && (WordChars(s) ==> WordChars(Collapsed(s)))
    ensures NoDoubleUnderscore(s) ==> Collapsed(s) == s
  {
    if s != "" {
      CollapsedHasNoDoubles(Front(s));
      var before, c := Collapsed(Front(s)), Last(s);
      assert s == Front(s) + [c];
      if NoDoubleUnderscore(s) && |s| > 1 { assert s[|s| - 2] != '_' || s[|s| - 1] != '_'; }
    }
  }

  lemma {:induction false} TrimLeftKeeps(s: string)
    ensures var t := TrimLeft(s);
      && (t == "" || t[0] != '_') && (WordChars(s) ==> WordChars(t))
      && (NoDoubleUnderscore(s) ==> NoDoubleUnderscore(t))
    ensures s == "" || s[0] != '_' ==> TrimLeft(s) == s
  {
    if s != "" && s[0] == '_' {
      TrimLeftKeeps(s[1..]);
      assert NoDoubleUnderscore(s) ==> NoDoubleUnderscore(s[1..]) by {
        forall i, j | NoDoubleUnderscore(s) && 0 <= i && j == i + 1 && j < |s[1..]|
          ensures s[1..][i] != '_' || s[1..][j] != '_'
        {
          assert s[1..][i] == s[i + 1] && s[1..][j] == s[j + 1];
        }
      }
    }
  }

  lemma {:induction false} TrimRightKeeps(s: string)
    ensures var t := TrimRight(s);
      && (t == "" || (Last(t) != '_' && t[0] == s[0])) && (WordChars(s) ==> WordChars(t))
      && (NoDoubleUnderscore(s) ==> NoDoubleUnderscore(t))
    ensures s == "" || Last(s) != '_' ==> TrimRight(s) == s
  {
    if s != "" && Last(s) == '_' { TrimRightKeeps(Front(s)); }
  }

  lemma {:induction false} UpperIsValid(s: string)
    requires WordChars(s)
    ensures forall i :: 0 <= i < |s| ==> NameChar(Upper(s)[i]) && (Upper(s)[i] == '_' <==> s[i] == '_')
    ensures (forall i :: 0 <= i < |s| ==> NameChar(s[i])) ==> Upper(s) == s
  {
    if s != "" {
      UpperIsValid(Front(s));
      assert s == Front(s) + [Last(s)];
    }
  }

  lemma {:induction false} JoinedKeepsWords(s: string)
    ensures WordChars(s) ==> Joined(s) == s
  {
    if s != "" {
      JoinedKeepsWords(Front(s));
      assert s == Front(s) + [Last(s)];
      if WordChars(s) { assert IsWordChar(s[|s| - 1]); }
    }
  }

  lemma UpperIsNormal(t: string)
    requires t != "" && WordChars(t) && NoDoubleUnderscore(t) && t[0] != '_' && Last(t) != '_'
    ensures IsNormal(Upper(t))
  {
    hide Upper;
    UpperIsValid(t);
    assert Last(Upper(t)) == Upper(t)[|t| - 1] && Last(t) == t[|t| - 1];
  }

  lemma FallbackIsNormal()
    ensures IsNormal("BROKER")
  {
  }

  /** Whatever the user types becomes a normal name, so one that profile keys can carry. */
  lemma NormaliseIsNormal(raw: string)
    ensures IsNormal(NormaliseName(raw))
  {
    hide Joined, Filtered, Collapsed, TrimLeft, TrimRight, Upper, IsNormal, WordChars, NoDoubleUnderscore;
    var f := Filtered(Joined(raw));
    FilteredIsWords(Joined(raw));
    CollapsedHasNoDoubles(f);
    TrimLeftKeeps(Collapsed(f));
    var t := TrimRight(TrimLeft(Collapsed(f)));
    TrimRightKeeps(TrimLeft(Collapsed(f)));
    FallbackIsNormal();
    if t != "" { UpperIsNormal(t); }
  }

  /** Exactly the normal names are left as they are. */
  lemma NormalNamesAreFixed(n: string)
    ensures NormaliseName(n) == n <==> IsNormal(n)
  {
    NormaliseIsNormal(n);
    if IsNormal(n) {
      assert WordChars(n);
      JoinedKeepsWords(n);
      FilteredIsWords(n);
      CollapsedHasNoDoubles(n);
      TrimLeftKeeps(n);
      TrimRightKeeps(n);
      UpperIsValid(n);
    }
  }

  /** Normalising twice is normalising once. */
  lemma NormaliseIsIdempotent(raw: string)
    ensures NormaliseName(NormaliseName(raw)) == NormaliseName(raw)
  {
    hide NormaliseName;
    NormaliseIsNormal(raw);
    NormalNamesAreFixed(NormaliseName(raw));
  }
}
