/**
 * File-name derivation of main.py: `format_date` (no message of its own),
 * `sanitize_creator_name` (spaces only) and `generate_filename`.
 */
module LegacyNaming {
  import opened Wrappers
  import opened Text
  import opened Dates
  import SupadataNaming

  /** `format_date`: `MM-DD-YYYY` to `MMDDYYYY`; `strptime`'s own `ValueError` propagates. */
  function FormatDate(s: string): (r: Result<string, StrptimeError>)
    ensures r.Ok? <==> Strptime(s).Ok?
    ensures r.Ok? ==> ValidDate(Strptime(s).value) && r.value == Render(Strptime(s).value)
    ensures r.Err? ==> r.error == Strptime(s).error
  {
    Reformat(s)
  }

  /** `sanitize_creator_name`: every space becomes `_`; nothing else changes. */
  function SanitizeCreatorName(s: string): (r: string)
    ensures |r| == |s|
    ensures forall i :: 0 <= i < |r| ==> r[i] != ' '
    ensures forall i :: 0 <= i < |s| && s[i] != ' ' ==> r[i] == s[i]
  {
    ReplaceSpaces(s)
  }

  /** `generate_filename`: `MMDDYYYY_Creator_id.txt`; it raises exactly when `format_date` does. */
  function GenerateFilename(date: string, creator: string, id: string): (r: Result<string, StrptimeError>)
    ensures r.Ok? <==> Strptime(date).Ok?
    ensures r.Err? ==> r.error == Strptime(date).error
  {
    match FormatDate(date)
    case Ok(d) => Ok(d + "_" + SanitizeCreatorName(creator) + "_" + id + ".txt")
    case Err(e) => Err(e)
  }

  /** Replacing spaces a second time changes nothing. */
  lemma SanitizeIdempotent(s: string)
    ensures SanitizeCreatorName(SanitizeCreatorName(s)) == SanitizeCreatorName(s)
  {
  }

  /**
   * The layout of a generated name: it starts with the eight date digits and
   * `_`, carries the name with spaces replaced, and ends with `_`, the id and `.txt`.
   */
  lemma FilenameLayout(date: string, creator: string, id: string)
    requires GenerateFilename(date, creator, id).Ok?
    ensures var r := GenerateFilename(date, creator, id).value;
      var c := SanitizeCreatorName(creator);
      |r| == 14 + |creator| + |id| &&
      r[..8] == Render(Strptime(date).value) && r[8] == '_' &&
      r[9..9 + |c|] == c && r[9 + |c|] == '_' &&
      IsSuffix("_" + id + ".txt", r)
  {
    var c := SanitizeCreatorName(creator);
    SupadataNaming.LayoutOf(FormatDate(date).value, c, id);
    var r := GenerateFilename(date, creator, id).value;
    assert r[|r| - |"_" + id + ".txt"|..] == [r[9 + |c|]] + r[10 + |c|..];
  }

  /** Different video ids with the same date and creator give different names. */
  lemma FilenameInjective(date: string, creator: string, id1: string, id2: string)
    requires GenerateFilename(date, creator, id1).Ok?
    requires GenerateFilename(date, creator, id1) == GenerateFilename(date, creator, id2)
    ensures id1 == id2
  {
    var p := FormatDate(date).value + "_" + SanitizeCreatorName(creator) + "_";
    var r := GenerateFilename(date, creator, id1).value;
    assert r == p + id1 + ".txt" == p + id2 + ".txt";
    assert |id1| == |id2|;
    assert id1 == r[|p|..|p| + |id1|];
    assert id2 == r[|p|..|p| + |id2|];
  }

  /**
   * For a name with no forbidden character and no dot, space or underscore at
   * either end, the strict sanitiser of main_supadata.py agrees with this one.
   */
  lemma SanitizersAgree(s: string)
    requires s != [] && s[0] !in {'.', ' ', '_'} && s[|s| - 1] !in {'.', ' ', '_'}
    requires forall i :: 0 <= i < |s| ==> !SupadataNaming.IsForbidden(s[i])
    ensures SupadataNaming.SanitizeCreatorName(s) == SanitizeCreatorName(s)
  {
    StripKeeps(s, SupadataNaming.OuterEdge);
    var r := ReplaceSpaces(s);
    assert SupadataNaming.Clean(s) == r;
    StripKeeps(r, SupadataNaming.InnerEdge);
  }
}
