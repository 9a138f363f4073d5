/** The avatar initials shown for a display name: on the post card (`getInitials(name: string)`)
    and on both profile pages, which first map a missing or empty name to the empty string. */
module Initials {
  import opened Wrappers
  import opened Text

  /** The template text of `part[0]`: the first character, or "undefined" for an empty part. */
  function FirstOrUndefined(part: string): string {
    if part == "" then "undefined" else [part[0]]
  }

  function Min(a: int, b: int): int {
    if a < b then a else b
  }

  /** The post card's `getInitials`. */
  function GetInitials(name: string): string {
    var parts := Split(name, ' ');
    if |parts| > 1 then ToUpper(FirstOrUndefined(parts[0]) + FirstOrUndefined(parts[|parts| - 1]))
    else ToUpper(name[..Min(2, |name|)])
  }

  /** The profile pages' `getInitials`: null, undefined and the empty name give the empty string. */
  function ProfileInitials(name: Option<string>): string {
    if name.None? || name.value == "" then "" else GetInitials(name.value)
  }

  /** A name without a space gives its first two characters (or fewer), upper-cased. */
  lemma {:induction false} SingleWordInitials(name: string)
    requires ' ' !in name
    ensures GetInitials(name) == ToUpper(name[..Min(2, |name|)])
    ensures |GetInitials(name)| == Min(2, |name|)
  {
    SplitNoSep(name, ' ');
  }

  /** A name with a space gives the first character before the first space and the first character
      after the last space, upper-cased; when both parts are non-empty that is two characters. */
  lemma {:induction false} MultiWordInitials(name: string, first: string, restOfFirst: string, initOfLast: string, last: string)
    requires name == first + " " + restOfFirst && ' ' !in first
    requires name == initOfLast + " " + last && ' ' !in last
    ensures GetInitials(name) == ToUpper(FirstOrUndefined(first) + FirstOrUndefined(last))
    ensures first != "" && last != "" ==> GetInitials(name) == ToUpper([first[0], last[0]])
  {
    SplitFirst(first, ' ', restOfFirst);
    SplitLast(initOfLast, ' ', last);
    assert first + " " + restOfFirst == first + [' '] + restOfFirst;
    assert initOfLast + " " + last == initOfLast + [' '] + last;
  }

  /** An empty last part, as in "Ann ", spells out "undefined". */
  lemma TrailingSpaceSpellsUndefined()
    ensures GetInitials("Ann ") == "AUNDEFINED"
  {
    MultiWordInitials("Ann ", "Ann", "", "Ann", "");
    assert FirstOrUndefined("Ann") + FirstOrUndefined("") == "Aundefined";
  }

  /** The profile pages agree with the post card on every present name, and give "" for a missing one. */
  lemma ProfileInitialsAgree(name: Option<string>)
    ensures name.None? ==> ProfileInitials(name) == ""
    ensures name.Some? ==> ProfileInitials(name) == GetInitials(name.value)
  {
    if name.Some? && name.value == "" {
      SingleWordInitials("");
    }
  }
}
