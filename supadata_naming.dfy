/**
 * File-name derivation of main_supadata.py: `format_date`,
 * `sanitize_creator_name` (the strict version) and `generate_filename`.
 */
module SupadataNaming {
  import opened Wrappers
  import opened Text
  import opened Dates

  /** The characters `strip('. ')` removes at the ends of the raw name. */
  const OuterEdge: set<char> := {'.', ' '}
  /** The characters `strip('._')` removes at the ends of the cleaned name. */
  const InnerEdge: set<char> := {'.', '_'}

  /** The message `format_date` raises its `ValueError` with. */
  function InvalidDateMessage(s: string): (m: string)
    ensures IsPrefix("Invalid date format", m) && IsSuffix("expected MM-DD-YYYY", m)
  {
    "Invalid date format '" + s + "': expected MM-DD-YYYY"
  }

  /**
   * `format_date`: `MM-DD-YYYY` to `MMDDYYYY`; any `ValueError` of `strptime` is
   * replaced by one whose message names the input and the expected layout.
   */
  function FormatDate(s: string): (r: Result<string, string>)
    ensures r.Ok? <==> Strptime(s).Ok?
    ensures r.Ok? ==> ValidDate(Strptime(s).value) && r.value == Render(Strptime(s).value)
    ensures r.Err? ==> r.error == InvalidDateMessage(s)
  {
    match Reformat(s)
    case Ok(t) => Ok(t)
    case Err(_) => Err(InvalidDateMessage(s))
  }

  /** The characters of the regular expression class `[<>:"/\\|?*\x00-\x1f]`. */
  predicate IsForbidden(c: char)
  {
    c == '<' || c == '>' || c == ':' || c == '"' || c == '/' || c == '\\' || c == '|' ||
    c == '?' || c == '*' || c as int < 0x20
  }

  /** `re.sub(r'[<>:"/\\|?*\x00-\x1f]', '', s)`: drops the forbidden characters, keeping the rest in order. */
  function RemoveForbidden(s: string): (r: string)
    ensures |r| <= |s|
    ensures forall i :: 0 <= i < |r| ==> !IsForbidden(r[i]) && r[i] in s
    ensures (forall i :: 0 <= i < |s| ==> !IsForbidden(s[i])) ==> r == s
  {
    if s == [] then []
    else if IsForbidden(s[0]) then RemoveForbidden(s[1..])
    else [s[0]] + RemoveForbidden(s[1..])
  }

  /** Replacing spaces and then dropping forbidden characters: what is left between the two strips. */
  function Clean(s: string): (r: string)
    ensures forall i :: 0 <= i < |r| ==> !IsForbidden(r[i]) && r[i] != ' '
  {
    RemoveForbidden(ReplaceSpaces(s))
  }

  /** `sanitize_creator_name`: a creator name made safe to use inside a file name. */
  function SanitizeCreatorName(s: string): (r: string)
    ensures r != []
    ensures forall i :: 0 <= i < |r| ==> !IsForbidden(r[i]) && r[i] != ' '
    ensures r[0] !in InnerEdge && r[|r| - 1] !in InnerEdge
  {
    var c := Clean(Strip(s, OuterEdge));
    var n := Strip(c, InnerEdge);
    if n == [] then UnknownIsSafe(); Unknown else StripKeepsSafe(c, InnerEdge); n
  }

  /** What `strip` keeps of a safe name is safe. */
  lemma StripKeepsSafe(c: string, cs: set<char>)
    requires forall i :: 0 <= i < |c| ==> !IsForbidden(c[i]) && c[i] != ' '
    ensures forall i :: 0 <= i < |Strip(c, cs)| ==> !IsForbidden(Strip(c, cs)[i]) && Strip(c, cs)[i] != ' '
  {
    var x, z := StripParts(c, cs);
    var r := Strip(c, cs);
    forall i | 0 <= i < |r|
      ensures !IsForbidden(r[i]) && r[i] != ' '
    {
      assert r[i] == (x + (r + z))[|x| + i];
    }
  }

  /** The name used when nothing of the creator's name survives. */
  const Unknown: string := "Unknown"

  lemma UnknownIsSafe()
    ensures Unknown != [] && Unknown[0] !in InnerEdge && Unknown[|Unknown| - 1] !in InnerEdge
    ensures forall i :: 0 <= i < |Unknown| ==> !IsForbidden(Unknown[i]) && Unknown[i] != ' '
  {
    assert Unknown == ['U', 'n', 'k', 'n', 'o', 'w', 'n'];
  }

  /** `generate_filename`: `MMDDYYYY_Creator_id.txt`; it raises exactly when `format_date` does. */
  function GenerateFilename(date: string, creator: string, id: string): (r: Result<string, string>)
    ensures r.Ok? <==> FormatDate(date).Ok?
    ensures r.Err? ==> r.error == InvalidDateMessage(date)
  {
    match FormatDate(date)
    case Ok(d) => Ok(d + "_" + SanitizeCreatorName(creator) + "_" + id + ".txt")
    case Err(e) => Err(e)
  }

  /** `Clean` works character by character, so it distributes over concatenation. */
  lemma {:induction false} CleanAppend(a: string, b: string)
    ensures Clean(a + b) == Clean(a) + Clean(b)
  {
    ReplaceSpacesAppend(a, b);
    RemoveForbiddenAppend(ReplaceSpaces(a), ReplaceSpaces(b));
  }

  lemma {:induction false} RemoveForbiddenAppend(a: string, b: string)
    ensures RemoveForbidden(a + b) == RemoveForbidden(a) + RemoveForbidden(b)
  {
    if a == [] {
      assert a + b == b;
    } else {
      assert (a + b)[0] == a[0] && (a + b)[1..] == a[1..] + b;
      RemoveForbiddenAppend(a[1..], b);
    }
  }

  /** What the first strip removes (dots and spaces) comes out of `Clean` as dots and underscores. */
  lemma {:induction false} CleanOfEdge(x: string)
    requires AllIn(x, OuterEdge)
    ensures AllIn(Clean(x), InnerEdge)
  {
    if x != [] {
      assert x == [x[0]] + x[1..];
      CleanAppend([x[0]], x[1..]);
      CleanOfEdge(x[1..]);
      assert Clean([x[0]]) == (if x[0] == ' ' then "_" else ".");
    }
  }

  /**
   * The first `strip('. ')` changes nothing: the name is the cleaned input with
   * dots and underscores stripped from its ends (so every character that is
   * kept, CJK included, stays in its place and order), or `"Unknown"` when
   * nothing is left.
   */
  lemma SanitizeIsStrippedClean(s: string)
    ensures SanitizeCreatorName(s) ==
      (if Strip(Clean(s), InnerEdge) == [] then Unknown else Strip(Clean(s), InnerEdge))
  {
    var m := Strip(s, OuterEdge);
    var x, z := StripParts(s, OuterEdge);
    CleanAppend(x + m, z);
    CleanAppend(x, m);
    CleanOfEdge(x);
    CleanOfEdge(z);
    StripSurrounded(Clean(x), Clean(m), Clean(z), InnerEdge);
  }

  /** A name that is already safe and has no dot, space or underscore at its ends is kept as it is. */
  lemma SanitizeKeeps(r: string)
    requires r != [] && r[0] !in InnerEdge && r[|r| - 1] !in InnerEdge
    requires forall i :: 0 <= i < |r| ==> !IsForbidden(r[i]) && r[i] != ' '
    ensures SanitizeCreatorName(r) == r
  {
    StripKeeps(r, OuterEdge);
    ReplaceSpacesKeeps(r);
    assert Clean(r) == r;
    StripKeeps(r, InnerEdge);
  }

  /** Sanitising a sanitised name changes nothing. */
  lemma SanitizeIdempotent(s: string)
    ensures SanitizeCreatorName(SanitizeCreatorName(s)) == SanitizeCreatorName(s)
  {
    SanitizeKeeps(SanitizeCreatorName(s));
  }

  /** The pieces of `d_c_id.txt` sit where the format puts them. */
  lemma LayoutOf(d: string, c: string, id: string)
    requires |d| == 8
    ensures var r := d + "_" + c + "_" + id + ".txt";
      |r| == 14 + |c| + |id| && r[..8] == d && r[8] == '_' &&
      r[9..9 + |c|] == c && r[9 + |c|] == '_' &&
      r[10 + |c|..10 + |c| + |id|] == id && r[|r| - 4..] == ".txt"
  {
    var r := d + "_" + c + "_" + id + ".txt";
    assert r == d + ("_" + (c + ("_" + (id + ".txt"))));
    assert r[9..] == c + ("_" + (id + ".txt"));
    assert r[10 + |c|..] == id + ".txt";
  }

  /**
   * The layout of a generated name: the eight date digits, `_`, the
   * sanitised creator, `_`, the video id and `.txt`.
   */
  lemma FilenameLayout(date: string, creator: string, id: string)
    requires GenerateFilename(date, creator, id).Ok?
    ensures var r := GenerateFilename(date, creator, id).value;
      var c := SanitizeCreatorName(creator);
      |r| == 14 + |c| + |id| &&
      r[..8] == Render(Strptime(date).value) && r[8] == '_' &&
      r[9..9 + |c|] == c && r[9 + |c|] == '_' &&
      r[10 + |c|..10 + |c| + |id|] == id && r[|r| - 4..] == ".txt"
  {
    LayoutOf(FormatDate(date).value, SanitizeCreatorName(creator), id);
  }

  /** Different video ids with the same date and creator give different names. */
  lemma FilenameInjective(date: string, creator: string, id1: string, id2: string)
    requires GenerateFilename(date, creator, id1).Ok?
    requires GenerateFilename(date, creator, id1) == GenerateFilename(date, creator, id2)
    ensures id1 == id2
  {
    var p := FormatDate(date).value + "_" + SanitizeCreatorName(creator) + "_";
    var r := GenerateFilename(date, creator, id1).value;
    assert r == p + id1 + ".txt" == p + id2 + ".txt";
    assert |id1| == |id2|;
    assert id1 == r[|p|..|p| + |id1|];
    assert id2 == r[|p|..|p| + |id2|];
  }
}
