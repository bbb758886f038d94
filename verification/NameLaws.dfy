/** What becomes of a broker name typed by the user: the passes over the text do what one pass with a flag would. */
module NameLaws {
  import opened BrokerProfiles
  import opened Common

  /** A letter or a digit. */
  predicate Letter(c: char) {
    'A' <= c <= 'Z' || 'a' <= c <= 'z' || '0' <= c <= '9'
  }

  predicate Parts(c: char) {
    c == ' ' || c == '-' || c == '_'
  }

  /** The words read so far joined by underscores, and whether something has parted them from what follows. */
  datatype Reading = Reading(words: string, led: bool, parted: bool)

  function Bar(yes: bool): string {
    if yes then "_" else ""
  }

  /** Letters and digits are kept; spaces, dashes and underscores part words; everything else is dropped. */
  function Read(raw: string): Reading {
    if raw == "" then Reading("", false, false)
    else
      var r, c := Read(Front(raw)), Last(raw);
      if Letter(c) then
        if r.words == "" then Reading([c], r.parted, false)
        else Reading(r.words + Bar(r.parted) + [c], r.led, false)
      else if Parts(c) then r.(parted := true)
      else r
  }

  function InCapitals(s: string): string {
    seq(|s|, i requires 0 <= i < |s| => if 'a' <= s[i] <= 'z' then s[i] - 'a' + 'A' else s[i])
  }

  /** What the three passes in front of the trimming leave. */
  function Passed(raw: string): string {
    Collapsed(Filtered(Joined(raw)))
  }

  lemma FilteredOne(s: string, c: char)
    ensures Filtered(s + [c]) == Filtered(s) + if IsWordChar(c) then [c] else ""
  {
    assert Front(s + [c]) == s;
  }

  lemma CollapsedOne(s: string, c: char)
    ensures Collapsed(s + [c]) ==
        if c == '_' && Collapsed(s) != "" && Last(Collapsed(s)) == '_' then Collapsed(s) else Collapsed(s) + [c]
  {
    assert Front(s + [c]) == s;
  }

  /** One more character. */
  lemma PassedOne(raw: string)
    requires raw != ""
    ensures var before, c := Passed(Front(raw)), Last(raw);
      Passed(raw) ==
        if Letter(c) then before + [c]
        else if Parts(c) then (if before != "" && Last(before) == '_' then before else before + "_")
        else before
  {
    hide Joined, Filtered, Collapsed;
    var front, c := Front(raw), Last(raw);
    JoinedOne(raw);
    var j := Joined(front);
    if IsSeparator(c) {
      if |raw| > 1 && IsSeparator(Last(front)) {
        EndsParted(front);
      } else {
        FilteredOne(j, '_');
        CollapsedOne(Filtered(j), '_');
      }
    } else {
      FilteredOne(j, c);
      if IsWordChar(c) {
        CollapsedOne(Filtered(j), c);
      } else {
        assert Filtered(j) + "" == Filtered(j);
      }
    }
  }

  lemma JoinedOne(raw: string)
    requires raw != ""
    ensures Joined(raw) ==
        if !IsSeparator(Last(raw)) then Joined(Front(raw)) + [Last(raw)]
        else if |raw| > 1 && IsSeparator(Last(Front(raw))) then Joined(Front(raw))
        else Joined(Front(raw)) + "_"
  {
  }

  /** Text that ends in a separator ends in an underscore after the passes. */
  lemma {:induction false} EndsParted(raw: string)
    requires raw != "" && IsSeparator(Last(raw))
    ensures Passed(raw) != "" && Last(Passed(raw)) == '_'
  {
    hide Joined, Filtered, Collapsed;
    JoinedOne(raw);
    if |raw| > 1 && IsSeparator(Last(Front(raw))) {
      EndsParted(Front(raw));
    } else {
      var j := Joined(Front(raw));
      FilteredOne(j, '_');
      CollapsedOne(Filtered(j), '_');
    }
  }

  /** Words begin and end with letters or digits, if there are any. */
  ghost predicate Framed(words: string) {
    words == "" || (words[0] != '_' && Last(words) != '_')
  }

  ghost predicate Stands(r: Reading, passed: string) {
    && Framed(r.words) && (r.words == "" ==> !r.led)
    && passed == Bar(r.led) + r.words + Bar(r.parted)
  }

  lemma LetterStands(r: Reading, passed: string, c: char)
    requires Stands(r, passed) && Letter(c)
    ensures Stands(if r.words == "" then Reading([c], r.parted, false)
                   else Reading(r.words + Bar(r.parted) + [c], r.led, false), passed + [c])
  {
    assert passed + [c] == Bar(r.led) + (r.words + Bar(r.parted) + [c]) + "";
    if r.words != "" { assert (r.words + Bar(r.parted) + [c])[0] == r.words[0]; }
  }

  lemma PartStands(r: Reading, passed: string)
    requires Stands(r, passed)
    ensures Stands(r.(parted := true), if passed != "" && Last(passed) == '_' then passed else passed + "_")
  {
    if !r.parted {
      assert passed == Bar(r.led) + r.words;
      assert passed == "" || Last(passed) == Last(r.words);
    }
  }

  lemma {:induction false} PassedIsRead(raw: string)
    ensures Stands(Read(raw), Passed(raw))
  {
    hide Passed, Stands, Letter, Parts;
    if raw == "" {
      NothingPassed();
    } else {
      PassedIsRead(Front(raw));
      PassedOne(raw);
      var r, c := Read(Front(raw)), Last(raw);
      if Letter(c) { LetterStands(r, Passed(Front(raw)), c); } else { PartStands(r, Passed(Front(raw))); }
    }
  }

  lemma NothingPassed()
    ensures Stands(Read(""), Passed(""))
  {
  }

  lemma TrimmedFrame(led: bool, words: string, parted: bool)
    requires Framed(words) && (words == "" ==> !led)
    ensures TrimRight(TrimLeft(Bar(led) + words + Bar(parted))) == words
  {
    var s := words + Bar(parted);
    assert Bar(led) + words + Bar(parted) == Bar(led) + s;
    if led { assert ("_" + s)[1..] == s; } else { assert Bar(led) + s == s; }
    if words == "" {
      assert TrimLeft(s) == "" by { if parted { assert s[1..] == ""; } }
    } else {
      assert s[0] == words[0];
      TrimLeftKeeps(s);
      assert TrimLeft(Bar(led) + s) == s;
      TrimRightKeeps(words);
      if parted { assert Front(s) == words; } else { assert s == words; }
    }
  }

  lemma {:induction false} UpperIsInCapitals(s: string)
    ensures Upper(s) == InCapitals(s)
  {
    if s != "" {
      UpperIsInCapitals(Front(s));
      assert InCapitals(s) == InCapitals(Front(s)) + [InCapitals(s)[|s| - 1]];
    }
  }

  /** A typed name becomes its words in capitals, joined by single underscores, or the fallback when there are none. */
  lemma NameIsItsWords(raw: string)
    ensures NormaliseName(raw) == if Read(raw).words == "" then "BROKER" else InCapitals(Read(raw).words)
  {
    hide Read, Joined, Filtered, Collapsed, TrimLeft, TrimRight, Upper, Framed;
    var r := Read(raw);
    PassedIsRead(raw);
    TrimmedFrame(r.led, r.words, r.parted);
    UpperIsInCapitals(r.words);
  }
}
