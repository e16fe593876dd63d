/** The concrete cases the repository's tests use for the creator-name sanitisers, proved. */
module SanitizeExamples {
  import opened Text
  import SupadataNaming
  import LegacyNaming

  /** A name piece both sanitisers keep as it is. */
  predicate Plain(x: string)
  {
    x != [] && x[0] !in {'.', '_'} && x[|x| - 1] !in {'.', '_'} &&
    forall i :: 0 <= i < |x| ==> x[i] != ' ' && !SupadataNaming.IsForbidden(x[i])
  }

  lemma CleanKeeps(x: string)
    requires forall i :: 0 <= i < |x| ==> x[i] != ' ' && !SupadataNaming.IsForbidden(x[i])
    ensures SupadataNaming.Clean(x) == x
  {
    ReplaceSpacesKeeps(x);
  }

  lemma CleanSpace(a: string, b: string)
    requires Plain(a) && Plain(b)
    ensures SupadataNaming.Clean(a + " " + b) == a + "_" + b
  {
    SupadataNaming.CleanAppend(a + " ", b);
    SupadataNaming.CleanAppend(a, " ");
    CleanKeeps(a);
    CleanKeeps(b);
    assert SupadataNaming.Clean(" ") == "_";
  }

  /** `a b` becomes `a_b` in the strict sanitiser. */
  lemma SanitizeSpace(a: string, b: string)
    requires Plain(a) && Plain(b)
    ensures SupadataNaming.SanitizeCreatorName(a + " " + b) == a + "_" + b
  {
    var s := a + " " + b;
    assert s[0] == a[0] && s[|s| - 1] == b[|b| - 1];
    StripKeeps(s, SupadataNaming.OuterEdge);
    CleanSpace(a, b);
    var r := a + "_" + b;
    assert r[0] == a[0] && r[|r| - 1] == b[|b| - 1];
    StripKeeps(r, SupadataNaming.InnerEdge);
  }

  /** One character through the cleaning: a space becomes `_` and a forbidden character goes. */
  lemma CleanChar(c: char)
    ensures SupadataNaming.Clean([c]) == if c == ' ' then "_" else if SupadataNaming.IsForbidden(c) then "" else [c]
  {
    assert [c][1..] == [];
  }

  /** A name whose cleaning has no dot or underscore at its ends sanitises to that cleaning. */
  lemma SanitizeOfClean(s: string, r: string)
    requires SupadataNaming.Clean(s) == r && r != []
    requires r[0] !in SupadataNaming.InnerEdge && r[|r| - 1] !in SupadataNaming.InnerEdge
    ensures SupadataNaming.SanitizeCreatorName(s) == r
  {
    SupadataNaming.SanitizeIsStrippedClean(s);
    StripKeeps(r, SupadataNaming.InnerEdge);
  }

  /** Cleaning three pieces is cleaning each of them. */
  lemma CleanThree(a: string, m: string, b: string)
    ensures SupadataNaming.Clean(a + m + b) == SupadataNaming.Clean(a) + SupadataNaming.Clean(m) + SupadataNaming.Clean(b)
  {
    SupadataNaming.CleanAppend(a + m, b);
    SupadataNaming.CleanAppend(a, m);
  }

  lemma Glue<T>(a: seq<T>, y: seq<T>, b: seq<T>, w: seq<T>)
    requires w == a + y + b
    ensures |y| == 0 ==> w == a + b
    ensures |y| == 1 ==> w == a + [y[0]] + b
  {
    if |y| == 0 {
      assert y + b == b;
    }
  }

  /** A cleaning made of two plain pieces is the sanitised name. */
  lemma SanitizeOfPair(s: string, a: string, b: string)
    requires Plain(a) && Plain(b) && SupadataNaming.Clean(s) == a + b
    ensures SupadataNaming.SanitizeCreatorName(s) == a + b
  {
    var r := a + b;
    assert r[0] == a[0] && r[|r| - 1] == b[|b| - 1];
    SanitizeOfClean(s, r);
  }

  /** A cleaning that starts and ends with plain pieces is the sanitised name. */
  lemma SanitizeOfPlain(s: string, a: string, m: string, b: string)
    requires Plain(a) && Plain(b) && SupadataNaming.Clean(s) == a + m + b
    ensures SupadataNaming.SanitizeCreatorName(s) == a + m + b
  {
    var r := a + m + b;
    assert r[0] == a[0] && r[|r| - 1] == b[|b| - 1];
    SanitizeOfClean(s, r);
  }

  lemma CleanDrop(a: string, c: char, b: string)
    requires Plain(a) && Plain(b) && SupadataNaming.IsForbidden(c)
    ensures SupadataNaming.Clean(a + [c] + b) == a + b
  {
    CleanThree(a, [c], b);
    CleanKeeps(a);
    CleanKeeps(b);
    CleanChar(c);
    Glue(a, SupadataNaming.Clean([c]), b, SupadataNaming.Clean(a + [c] + b));
  }

  /** A forbidden character between two plain pieces is dropped. */
  lemma SanitizeDrop(a: string, c: char, b: string)
    requires Plain(a) && Plain(b) && SupadataNaming.IsForbidden(c)
    ensures SupadataNaming.SanitizeCreatorName(a + [c] + b) == a + b
  {
    CleanDrop(a, c, b);
    SanitizeOfPair(a + [c] + b, a, b);
  }

  lemma CleanDropTwo(a: string, c: char, b: string, d: char)
    requires Plain(a) && Plain(b) && SupadataNaming.IsForbidden(c) && SupadataNaming.IsForbidden(d)
    ensures SupadataNaming.Clean(a + [c] + b + [d]) == a + b
  {
    SupadataNaming.CleanAppend(a + [c] + b, [d]);
    CleanDrop(a, c, b);
    CleanChar(d);
    Glue(a + b, SupadataNaming.Clean([d]), [], SupadataNaming.Clean(a + [c] + b + [d]));
    assert a + b + [] == a + b;
  }

  /** Forbidden characters after each of two plain pieces are dropped. */
  lemma SanitizeDropTwo(a: string, c: char, b: string, d: char)
    requires Plain(a) && Plain(b) && SupadataNaming.IsForbidden(c) && SupadataNaming.IsForbidden(d)
    ensures SupadataNaming.SanitizeCreatorName(a + [c] + b + [d]) == a + b
  {
    CleanDropTwo(a, c, b, d);
    SanitizeOfPair(a + [c] + b + [d], a, b);
  }

  /** A forbidden character followed by a space cleans to one underscore. */
  lemma CleanForbiddenSpace(c: char)
    requires SupadataNaming.IsForbidden(c)
    ensures SupadataNaming.Clean([c, ' ']) == "_"
  {
    assert [c, ' '] == [c] + [' '];
    SupadataNaming.CleanAppend([c], [' ']);
    CleanChar(c);
    CleanChar(' ');
    Glue([], SupadataNaming.Clean([c]), "_", SupadataNaming.Clean([c, ' ']));
  }

  lemma CleanMixed(a: string, c: char, b: string, d: char)
    requires Plain(a) && Plain(b) && SupadataNaming.IsForbidden(c) && SupadataNaming.IsForbidden(d)
    ensures SupadataNaming.Clean(a + [c, ' '] + b + [d]) == a + "_" + b
  {
    SupadataNaming.CleanAppend(a + [c, ' '] + b, [d]);
    CleanThree(a, [c, ' '], b);
    CleanKeeps(a);
    CleanKeeps(b);
    CleanForbiddenSpace(c);
    CleanChar(d);
    Glue(a + "_" + b, SupadataNaming.Clean([d]), [], SupadataNaming.Clean(a + [c, ' '] + b + [d]));
    assert a + "_" + b + [] == a + "_" + b;
  }

  /** A forbidden character and a space between two plain pieces, and a forbidden one at the end, leave `a_b`. */
  lemma SanitizeMixed(a: string, c: char, b: string, d: char)
    requires Plain(a) && Plain(b) && SupadataNaming.IsForbidden(c) && SupadataNaming.IsForbidden(d)
    ensures SupadataNaming.SanitizeCreatorName(a + [c, ' '] + b + [d]) == a + "_" + b
  {
    CleanMixed(a, c, b, d);
    SanitizeOfPlain(a + [c, ' '] + b + [d], a, "_", b);
  }

  /** Dots and spaces around a name make no difference. */
  lemma SanitizeSurrounded(x: string, m: string, z: string)
    requires AllIn(x, SupadataNaming.OuterEdge) && AllIn(z, SupadataNaming.OuterEdge)
    ensures SupadataNaming.SanitizeCreatorName(x + m + z) == SupadataNaming.SanitizeCreatorName(m)
  {
    SupadataNaming.SanitizeIsStrippedClean(x + m + z);
    SupadataNaming.SanitizeIsStrippedClean(m);
    SupadataNaming.CleanAppend(x + m, z);
    SupadataNaming.CleanAppend(x, m);
    SupadataNaming.CleanOfEdge(x);
    SupadataNaming.CleanOfEdge(z);
    StripSurrounded(SupadataNaming.Clean(x), SupadataNaming.Clean(m), SupadataNaming.Clean(z), SupadataNaming.InnerEdge);
  }

  lemma PlainCreatorName()
    ensures Plain("Creator") && Plain("Name")
  {
  }

  /** The expected names, spelled as the pieces they are built from. */
  lemma ExpectedNames()
    ensures "Creator" + "Name" == "CreatorName"
    ensures "Creator" + "_" + "Name" == "Creator_Name"
    ensures "Creator" + "_" + "海伦子" == "Creator_海伦子"
  {
  }

  /**
   * Each character the Windows file systems refuse is dropped from between
   * two words: "Creator:Name", "Creator/Name" and the others all become
   * "CreatorName".
   */
  lemma SanitizeWindowsCharacters()
    ensures SupadataNaming.SanitizeCreatorName("Creator" + ":" + "Name") == "CreatorName"
    ensures SupadataNaming.SanitizeCreatorName("Creator" + "/" + "Name") == "CreatorName"
    ensures SupadataNaming.SanitizeCreatorName("Creator" + "\\" + "Name") == "CreatorName"
    ensures SupadataNaming.SanitizeCreatorName("Creator" + "|" + "Name") == "CreatorName"
    ensures SupadataNaming.SanitizeCreatorName("Creator" + "?" + "Name") == "CreatorName"
    ensures SupadataNaming.SanitizeCreatorName("Creator" + "*" + "Name") == "CreatorName"
    ensures SupadataNaming.SanitizeCreatorName("Creator" + "\"" + "Name") == "CreatorName"
    ensures SupadataNaming.SanitizeCreatorName("Creator" + "<" + "Name" + ">") == "CreatorName"
  {
    PlainCreatorName();
    SanitizeDrop("Creator", ':', "Name");
    SanitizeDrop("Creator", '/', "Name");
    SanitizeDrop("Creator", '\\', "Name");
    SanitizeDrop("Creator", '|', "Name");
    SanitizeDrop("Creator", '?', "Name");
    SanitizeDrop("Creator", '*', "Name");
    SanitizeDrop("Creator", '"', "Name");
    SanitizeDropTwo("Creator", '<', "Name", '>');
    ExpectedNames();
  }

  /** Control characters are dropped: "Creator\0Name" and "Creator\x1fName" become "CreatorName". */
  lemma SanitizeControlCharacters()
    ensures SupadataNaming.SanitizeCreatorName("Creator" + "\0" + "Name") == "CreatorName"
    ensures SupadataNaming.SanitizeCreatorName("Creator" + "\U{1f}" + "Name") == "CreatorName"
  {
    PlainCreatorName();
    SanitizeDrop("Creator", '\0', "Name");
    SanitizeDrop("Creator", '\U{1f}', "Name");
    ExpectedNames();
  }

  /** Dots or spaces around a two-word name are stripped: "...Creator Name..." and "  Creator Name  " become "Creator_Name". */
  lemma SanitizeEdgeDotsAndSpaces()
    ensures SupadataNaming.SanitizeCreatorName("..." + ("Creator" + " " + "Name") + "...") == "Creator_Name"
    ensures SupadataNaming.SanitizeCreatorName("  " + ("Creator" + " " + "Name") + "  ") == "Creator_Name"
  {
    PlainCreatorName();
    SanitizeSpace("Creator", "Name");
    SanitizeSurrounded("...", "Creator" + " " + "Name", "...");
    SanitizeSurrounded("  ", "Creator" + " " + "Name", "  ");
    ExpectedNames();
  }

  /** A colon, a space and a question mark around CJK text: "Creator: 海伦子?" becomes "Creator_海伦子". */
  lemma SanitizeComplexMixed()
    ensures SupadataNaming.SanitizeCreatorName("Creator" + ": " + "海伦子" + "?") == "Creator_海伦子"
  {
    PlainCreatorName();
    assert Plain("海伦子");
    assert "Creator" + ": " + "海伦子" + "?" == "Creator" + [':', ' '] + "海伦子" + ['?'];
    SanitizeMixed("Creator", ':', "海伦子", '?');
    ExpectedNames();
  }

  /** No character `re.sub` would remove; spaces are allowed. */
  predicate Safe(x: string)
  {
    forall i :: 0 <= i < |x| ==> !SupadataNaming.IsForbidden(x[i])
  }

  lemma SafeAppend(a: string, b: string)
    requires Safe(a) && Safe(b)
    ensures Safe(a + b)
  {
    forall i | 0 <= i < |a + b|
      ensures !SupadataNaming.IsForbidden((a + b)[i])
    {
      if i >= |a| {
        assert (a + b)[i] == b[i - |a|];
      }
    }
  }

  /** Joining two safe pieces with spaces: still safe, and `replace` works piece by piece. */
  lemma SpaceJoin(a: string, sep: string, b: string)
    requires Safe(a) && Safe(b) && AllIn(sep, {' '})
    ensures Safe(a + sep + b)
    ensures ReplaceSpaces(a + sep + b) == ReplaceSpaces(a) + ReplaceSpaces(sep) + ReplaceSpaces(b)
  {
    assert Safe(sep);
    SafeAppend(a, sep);
    SafeAppend(a + sep, b);
    ReplaceSpacesAppend(a + sep, b);
    ReplaceSpacesAppend(a, sep);
  }

  /** A safe name with no dot, space or underscore at its ends: both sanitisers only replace its spaces. */
  lemma BothReplaceSpaces(s: string)
    requires Safe(s) && s != [] && s[0] !in {'.', ' ', '_'} && s[|s| - 1] !in {'.', ' ', '_'}
    ensures LegacyNaming.SanitizeCreatorName(s) == ReplaceSpaces(s)
    ensures SupadataNaming.SanitizeCreatorName(s) == ReplaceSpaces(s)
  {
    LegacyNaming.SanitizersAgree(s);
  }

  /** A plain piece is safe and has no space to replace. */
  lemma PlainWord(w: string)
    requires Plain(w)
    ensures Safe(w) && ReplaceSpaces(w) == w
  {
    ReplaceSpacesKeeps(w);
  }

  lemma PlainWords()
    ensures Plain("Money") && Plain("or") && Plain("Life") && Plain("美股频道")
    ensures Plain("Content") && Plain("Creator") && Plain("Name")
  {
  }

  lemma Separators()
    ensures AllIn(" ", {' '}) && ReplaceSpaces(" ") == "_"
    ensures AllIn("  ", {' '}) && ReplaceSpaces("  ") == "__"
  {
    assert " "[1..] == [];
    assert "  "[1..] == " ";
  }

  /** "Test Creator" becomes "Test_Creator" in main.py. */
  lemma LegacyTwoWords()
    ensures LegacyNaming.SanitizeCreatorName("Test" + " " + "Creator") == "Test" + "_" + "Creator"
  {
    assert Plain("Test") && Plain("Creator");
    PlainWord("Test");
    PlainWord("Creator");
    Separators();
    SpaceJoin("Test", " ", "Creator");
  }

  /** "Test Creator" becomes "Test_Creator" in main_supadata.py. */
  lemma StrictTwoWords()
    ensures SupadataNaming.SanitizeCreatorName("Test" + " " + "Creator") == "Test" + "_" + "Creator"
  {
    assert Plain("Test") && Plain("Creator");
    SanitizeSpace("Test", "Creator");
  }

  /** Two plain pieces written together are kept as they are by both sanitisers. */
  lemma KeepsPair(a: string, b: string)
    requires Plain(a) && Plain(b)
    ensures LegacyNaming.SanitizeCreatorName(a + b) == a + b
    ensures SupadataNaming.SanitizeCreatorName(a + b) == a + b
  {
    PlainWord(a);
    PlainWord(b);
    SafeAppend(a, b);
    ReplaceSpacesAppend(a, b);
    var s := a + b;
    assert s[0] == a[0] && s[|s| - 1] == b[|b| - 1];
    BothReplaceSpaces(s);
  }

  /** Names with nothing to replace or remove, CJK included, are kept: "CreatorName" and "海伦子Hellen". */
  lemma SanitizeUnchanged()
    ensures LegacyNaming.SanitizeCreatorName("Creator" + "Name") == "Creator" + "Name"
    ensures SupadataNaming.SanitizeCreatorName("Creator" + "Name") == "Creator" + "Name"
    ensures LegacyNaming.SanitizeCreatorName("海伦子" + "Hellen") == "海伦子" + "Hellen"
    ensures SupadataNaming.SanitizeCreatorName("海伦子" + "Hellen") == "海伦子" + "Hellen"
  {
    assert Plain("Creator") && Plain("Name") && Plain("海伦子") && Plain("Hellen");
    KeepsPair("Creator", "Name");
    KeepsPair("海伦子", "Hellen");
  }

  lemma ExpectedSpacedNames()
    ensures "Money" + "_" + "or" + "_" + "Life" + "_" + "美股频道" == "Money_or_Life_美股频道"
    ensures "Content" + "__" + "Creator" + "__" + "Name" == "Content__Creator__Name"
  {
  }

  /** Single spaces between four words, the last one CJK: "Money or Life 美股频道" becomes "Money_or_Life_美股频道" in both scripts. */
  lemma SanitizeSpacedWords()
    ensures var s := "Money" + " " + "or" + " " + "Life" + " " + "美股频道";
      LegacyNaming.SanitizeCreatorName(s) == "Money_or_Life_美股频道" &&
      SupadataNaming.SanitizeCreatorName(s) == "Money_or_Life_美股频道"
  {
    PlainWords();
    Separators();
    PlainWord("Money");
    PlainWord("or");
    PlainWord("Life");
    PlainWord("美股频道");
    var w1 := "Money" + " " + "or";
    SpaceJoin("Money", " ", "or");
    var w2 := w1 + " " + "Life";
    SpaceJoin(w1, " ", "Life");
    var w3 := w2 + " " + "美股频道";
    SpaceJoin(w2, " ", "美股频道");
    assert w3[0] == 'M' && w3[|w3| - 1] == '道';
    BothReplaceSpaces(w3);
    ExpectedSpacedNames();
  }

  /** Each of two double spaces becomes two underscores: "Content  Creator  Name" becomes "Content__Creator__Name" in both scripts. */
  lemma SanitizeDoubleSpaces()
    ensures var s := "Content" + "  " + "Creator" + "  " + "Name";
      LegacyNaming.SanitizeCreatorName(s) == "Content__Creator__Name" &&
      SupadataNaming.SanitizeCreatorName(s) == "Content__Creator__Name"
  {
    PlainWords();
    Separators();
    PlainWord("Content");
    PlainWord("Creator");
    PlainWord("Name");
    var w1 := "Content" + "  " + "Creator";
    SpaceJoin("Content", "  ", "Creator");
    var w2 := w1 + "  " + "Name";
    SpaceJoin(w1, "  ", "Name");
    assert w2[0] == 'C' && w2[|w2| - 1] == 'e';
    BothReplaceSpaces(w2);
    ExpectedSpacedNames();
  }

  lemma SanitizeOnlyForbidden()
    ensures SupadataNaming.SanitizeCreatorName(":::") == "Unknown"
  {
    StripKeeps(":::", SupadataNaming.OuterEdge);
    assert SupadataNaming.Clean(":::") == "";
  }

  lemma SanitizeOnlyDots()
    ensures SupadataNaming.SanitizeCreatorName("...") == "Unknown"
  {
    assert TrimLeft("...", SupadataNaming.OuterEdge) == "";
  }
}

/** The concrete cases the repository's tests use for dates and file names, proved. */
module NamingExamples {
  import opened Wrappers
  import opened Text
  import opened Dates
  import SupadataNaming
  import LegacyNaming
  import SanitizeExamples

  /** A date written `MM-DD-YYYY` parses as that date. */
  lemma ParsesAs(s: string, d: Date, ms: string, ds: string)
    requires ValidDate(d) && ms in MonthSpellings(d.month) && ds in DaySpellings(d.day)
    requires s == ms + "-" + ds + "-" + Pad4(d.year)
    ensures Strptime(s) == Ok(d)
  {
    StrptimeAccepts(d, ms, ds);
  }

  lemma ParsesPlainDate()
    ensures Strptime("01-15-2026") == Ok(Date(1, 15, 2026))
  {
    assert Pad4(2026) == "2026";
    ParsesAs("01-15-2026", Date(1, 15, 2026), "01", "15");
  }

  /** Writing a date whose fields are given as digits. */
  lemma RenderDigits(d: Date, m1: nat, m2: nat, d1: nat, d2: nat, y1: nat, y2: nat, y3: nat, y4: nat)
    requires m1 < 10 && m2 < 10 && d1 < 10 && d2 < 10 && y1 < 10 && y2 < 10 && y3 < 10 && y4 < 10
    requires d == Date(10 * m1 + m2, 10 * d1 + d2, 100 * (10 * y1 + y2) + (10 * y3 + y4)) && ValidDate(d)
    ensures Render(d) == [DigitChar(m1), DigitChar(m2), DigitChar(d1), DigitChar(d2), DigitChar(y1), DigitChar(y2), DigitChar(y3), DigitChar(y4)]
  {
    Pad2Digits(m1, m2);
    Pad2Digits(d1, d2);
    Split100(10 * y1 + y2, 10 * y3 + y4);
    Pad2Digits(y1, y2);
    Pad2Digits(y3, y4);
  }

  lemma RendersPlainDate()
    ensures Render(Date(1, 15, 2026)) == "01152026"
  {
    RenderDigits(Date(1, 15, 2026), 0, 1, 1, 5, 2, 0, 2, 6);
  }

  lemma AcceptsPlainDate()
    ensures SupadataNaming.FormatDate("01-15-2026") == Ok("01152026")
  {
    ParsesPlainDate();
    RendersPlainDate();
  }

  lemma ParsesLeapDay()
    ensures Strptime("02-29-2024") == Ok(Date(2, 29, 2024))
  {
    assert Pad4(2024) == "2024";
    ParsesAs("02-29-2024", Date(2, 29, 2024), "02", "29");
  }

  lemma LeapDayValid()
    ensures ValidDate(Date(2, 29, 2024))
  {
    assert IsLeapYear(2024);
  }

  lemma RendersLeapDay()
    ensures Render(Date(2, 29, 2024)) == "02292024"
  {
    LeapDayValid();
    RenderDigits(Date(2, 29, 2024), 0, 2, 2, 9, 2, 0, 2, 4);
  }

  /** The leap day "02-29-2024" becomes "02292024" in both scripts. */
  lemma AcceptsLeapDay()
    ensures LegacyNaming.FormatDate("02-29-2024") == Ok("02292024")
    ensures SupadataNaming.FormatDate("02-29-2024") == Ok("02292024")
  {
    ParsesLeapDay();
    RendersLeapDay();
  }

  lemma ParsesShortFields()
    ensures Strptime("1-8-2026") == Ok(Date(1, 8, 2026))
  {
    assert Pad4(2026) == "2026";
    ParsesAs("1-8-2026", Date(1, 8, 2026), "1", "8");
  }

  lemma RendersShortFields()
    ensures Render(Date(1, 8, 2026)) == "01082026"
  {
    RenderDigits(Date(1, 8, 2026), 0, 1, 0, 8, 2, 0, 2, 6);
  }

  /** `strptime` also takes one-digit months and days, so main.py accepts "1-8-2026". */
  lemma AcceptsShortFields()
    ensures LegacyNaming.FormatDate("1-8-2026") == Ok("01082026")
  {
    ParsesShortFields();
    RendersShortFields();
  }

  /** main.py's name for a video, from the pieces it is made of. */
  lemma LegacyFilenameOf(date: string, creator: string, id: string, d: string, c: string)
    requires LegacyNaming.FormatDate(date) == Ok(d) && LegacyNaming.SanitizeCreatorName(creator) == c
    ensures LegacyNaming.GenerateFilename(date, creator, id) == Ok(d + "_" + c + "_" + id + ".txt")
  {
  }

  /** main_supadata.py's name for a video, from the pieces it is made of. */
  lemma StrictFilenameOf(date: string, creator: string, id: string, d: string, c: string)
    requires SupadataNaming.FormatDate(date) == Ok(d) && SupadataNaming.SanitizeCreatorName(creator) == c
    ensures SupadataNaming.GenerateFilename(date, creator, id) == Ok(d + "_" + c + "_" + id + ".txt")
  {
  }

  /** A `MM-DD-YYYY` date, given as its fields, becomes `MMDDYYYY`. */
  lemma FormatsAs(ms: string, ds: string, ys: string, d: Date, r: string)
    requires ValidDate(d) && ms in MonthSpellings(d.month) && ds in DaySpellings(d.day) && ys == Pad4(d.year)
    requires Render(d) == r
    ensures LegacyNaming.FormatDate(ms + "-" + ds + "-" + ys) == Ok(r)
    ensures SupadataNaming.FormatDate(ms + "-" + ds + "-" + ys) == Ok(r)
  {
    ParsesAs(ms + "-" + ds + "-" + ys, d, ms, ds);
  }

  lemma RendersJanuary8()
    ensures ValidDate(Date(1, 8, 2026)) && Render(Date(1, 8, 2026)) == "01082026" && Pad4(2026) == "2026"
  {
    RendersShortFields();
  }

  lemma RendersDecember19()
    ensures ValidDate(Date(12, 19, 2025)) && Render(Date(12, 19, 2025)) == "12192025" && Pad4(2025) == "2025"
  {
    RenderDigits(Date(12, 19, 2025), 1, 2, 1, 9, 2, 0, 2, 5);
  }

  lemma RendersJune14()
    ensures ValidDate(Date(6, 14, 2025)) && Render(Date(6, 14, 2025)) == "06142025" && Pad4(2025) == "2025"
  {
    RenderDigits(Date(6, 14, 2025), 0, 6, 1, 4, 2, 0, 2, 5);
  }

  lemma RendersDecember25()
    ensures ValidDate(Date(12, 25, 2025)) && Render(Date(12, 25, 2025)) == "12252025" && Pad4(2025) == "2025"
  {
    RenderDigits(Date(12, 25, 2025), 1, 2, 2, 5, 2, 0, 2, 5);
  }

  lemma RendersSeptember1()
    ensures ValidDate(Date(9, 1, 2025)) && Render(Date(9, 1, 2025)) == "09012025" && Pad4(2025) == "2025"
  {
    RenderDigits(Date(9, 1, 2025), 0, 9, 0, 1, 2, 0, 2, 5);
  }

  /** Both `format_date`s turn "01-08-2026", "12-19-2025", "06-14-2025" and "09-01-2025" into their eight digits. */
  lemma FormatDateExamples()
    ensures LegacyNaming.FormatDate("01" + "-" + "08" + "-" + "2026") == Ok("01082026")
    ensures SupadataNaming.FormatDate("01" + "-" + "08" + "-" + "2026") == Ok("01082026")
    ensures LegacyNaming.FormatDate("12" + "-" + "19" + "-" + "2025") == Ok("12192025")
    ensures SupadataNaming.FormatDate("12" + "-" + "19" + "-" + "2025") == Ok("12192025")
    ensures LegacyNaming.FormatDate("06" + "-" + "14" + "-" + "2025") == Ok("06142025")
    ensures SupadataNaming.FormatDate("06" + "-" + "14" + "-" + "2025") == Ok("06142025")
    ensures LegacyNaming.FormatDate("09" + "-" + "01" + "-" + "2025") == Ok("09012025")
    ensures SupadataNaming.FormatDate("09" + "-" + "01" + "-" + "2025") == Ok("09012025")
  {
    RendersJanuary8();
    FormatsAs("01", "08", "2026", Date(1, 8, 2026), "01082026");
    RendersDecember19();
    FormatsAs("12", "19", "2025", Date(12, 19, 2025), "12192025");
    RendersJune14();
    FormatsAs("06", "14", "2025", Date(6, 14, 2025), "06142025");
    RendersSeptember1();
    FormatsAs("09", "01", "2025", Date(9, 1, 2025), "09012025");
  }

  lemma ExpectedBasic()
    ensures "01082026" + "_" + ("Test" + "_" + "Creator") + "_" + "abc123" + ".txt" == "01082026_Test_Creator_abc123.txt"
  {
  }

  lemma ExpectedChinese()
    ensures "12192025" + "_" + ("海伦子" + "Hellen") + "_" + "inXOHNc_UUo" + ".txt" == "12192025_海伦子Hellen_inXOHNc_UUo.txt"
  {
  }

  lemma ExpectedWords()
    ensures "06142025" + "_" + "Money_or_Life_美股频道" + "_" + "t7XX6-pon8M" + ".txt" == "06142025_Money_or_Life_美股频道_t7XX6-pon8M.txt"
  {
  }

  lemma ExpectedStrict()
    ensures "12252025" + "_" + ("Test" + "_" + "Creator") + "_" + "abc123" + ".txt" == "12252025_Test_Creator_abc123.txt"
  {
  }

  /** main.py names "Test Creator"'s video "abc123" of 01-08-2026 `01082026_Test_Creator_abc123.txt`. */
  lemma LegacyFilenameBasic()
    ensures LegacyNaming.GenerateFilename("01" + "-" + "08" + "-" + "2026", "Test" + " " + "Creator", "abc123") ==
      Ok("01082026_Test_Creator_abc123.txt")
  {
    RendersJanuary8();
    FormatsAs("01", "08", "2026", Date(1, 8, 2026), "01082026");
    SanitizeExamples.LegacyTwoWords();
    LegacyFilenameOf("01" + "-" + "08" + "-" + "2026", "Test" + " " + "Creator", "abc123", "01082026", "Test" + "_" + "Creator");
    ExpectedBasic();
  }

  /** A CJK creator name passes into main.py's file name unchanged: `12192025_海伦子Hellen_inXOHNc_UUo.txt`. */
  lemma LegacyFilenameChinese()
    ensures LegacyNaming.GenerateFilename("12" + "-" + "19" + "-" + "2025", "海伦子" + "Hellen", "inXOHNc_UUo") ==
      Ok("12192025_海伦子Hellen_inXOHNc_UUo.txt")
  {
    RendersDecember19();
    FormatsAs("12", "19", "2025", Date(12, 19, 2025), "12192025");
    SanitizeExamples.SanitizeUnchanged();
    LegacyFilenameOf("12" + "-" + "19" + "-" + "2025", "海伦子" + "Hellen", "inXOHNc_UUo", "12192025", "海伦子" + "Hellen");
    ExpectedChinese();
  }

  /** A multi-word creator name is joined by underscores in main.py's file name: `06142025_Money_or_Life_美股频道_t7XX6-pon8M.txt`. */
  lemma LegacyFilenameWords()
    ensures LegacyNaming.GenerateFilename("06" + "-" + "14" + "-" + "2025", "Money" + " " + "or" + " " + "Life" + " " + "美股频道", "t7XX6-pon8M") ==
      Ok("06142025_Money_or_Life_美股频道_t7XX6-pon8M.txt")
  {
    RendersJune14();
    FormatsAs("06", "14", "2025", Date(6, 14, 2025), "06142025");
    SanitizeExamples.SanitizeSpacedWords();
    LegacyFilenameOf("06" + "-" + "14" + "-" + "2025", "Money" + " " + "or" + " " + "Life" + " " + "美股频道", "t7XX6-pon8M",
      "06142025", "Money_or_Life_美股频道");
    ExpectedWords();
  }

  /** main_supadata.py names "Test Creator"'s video "abc123" of 12-25-2025 `12252025_Test_Creator_abc123.txt`. */
  lemma StrictFilenameBasic()
    ensures SupadataNaming.GenerateFilename("12" + "-" + "25" + "-" + "2025", "Test" + " " + "Creator", "abc123") ==
      Ok("12252025_Test_Creator_abc123.txt")
  {
    RendersDecember25();
    FormatsAs("12", "25", "2025", Date(12, 25, 2025), "12252025");
    SanitizeExamples.StrictTwoWords();
    StrictFilenameOf("12" + "-" + "25" + "-" + "2025", "Test" + " " + "Creator", "abc123", "12252025", "Test" + "_" + "Creator");
    ExpectedStrict();
  }

  lemma RejectsMonth13()
    ensures Strptime("13-01-2025") == Err(NoMatch)
  {
    assert "13-01-2025" == "13" + "-" + "01-2025";
    assert MonthField("13") == None;
    UnreadMonth("13", "01-2025");
  }

  /** A first field that is not a month makes `strptime` reject the whole text. */
  lemma UnreadMonth(a: string, b: string)
    requires NoDash(a) && MonthField(a) == None
    ensures Strptime(a + "-" + b) == Err(NoMatch)
  {
    FirstDashAfter(a, b);
    var s := a + "-" + b;
    assert s[..|a|] == a;
  }

  lemma StrictRejectsMonth13()
    ensures SupadataNaming.FormatDate("13-01-2025") == Err(SupadataNaming.InvalidDateMessage("13-01-2025"))
  {
    RejectsMonth13();
  }

  lemma Reads2025()
    ensures |"2025"| == 4 && AllDigits("2025") && ReadNatural("2025") == 2025
  {
    ReadFour("2025");
  }

  lemma FieldsOfFebruary30()
    ensures MonthField("02") == Some(2) && DayField("30") == Some(30)
  {
  }

  lemma February2025()
    ensures DaysInMonth(2, 2025) == 28
  {
  }

  lemma RejectsFebruary30()
    ensures Strptime("02-30-2025") == Err(DayOutOfRange)
  {
    assert "02-30-2025" == "02" + "-" + "30-2025";
    assert "30-2025" == "30" + "-" + "2025";
    FirstDashAfter("02", "30-2025");
    FirstDashAfter("30", "2025");
    Reads2025();
    FieldsOfFebruary30();
    February2025();
    StrptimeOf("02", "30-2025", "30", "2025", 2, 30, 2025);
  }

  lemma RejectsIsoOrder()
    ensures Strptime("2025-12-19") == Err(NoMatch)
  {
    FirstDashAfter("2025", "12-19");
    assert "2025-12-19"[..4] == "2025";
  }

  /** The strict `format_date` refuses "2025-12-19" with its own message, which names the expected `MM-DD-YYYY`. */
  lemma StrictRejectsIsoOrder()
    ensures SupadataNaming.FormatDate("2025-12-19") == Err(SupadataNaming.InvalidDateMessage("2025-12-19"))
  {
    RejectsIsoOrder();
  }
}
