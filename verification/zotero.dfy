/** The Zotero item shape the sync reads, and the two pure helpers of the Zotero
    client: author-list formatting and year extraction. The client's HTTP calls are
    not modelled here; their results reach the sync run as inputs. */
module Zotero {
  import opened JsStrings

  /** A creator has either a single display `name` or first/last name parts; any of
      them may be absent. */
  datatype Creator = Creator(name: Option<string>, firstName: Option<string>, lastName: Option<string>)

  datatype Tag = Tag(tag: string)

  /** The fields of an item's `data` record the sync reads; every one may be absent. */
  datatype ItemData = ItemData(
    title: Option<string>,
    creators: Option<seq<Creator>>,
    date: Option<string>,
    publicationTitle: Option<string>,
    url: Option<string>,
    doi: Option<string>,
    abstractNote: Option<string>,
    tags: Option<seq<Tag>>)

  /** An item as the collection listing returns it: a stable key and its data. */
  datatype Item = Item(key: string, data: ItemData)

  const UNKNOWN_AUTHOR := "Unknown Author"

  /** One creator's display name: the `name` field when it is non-empty, otherwise
      the first and last name parts (absent parts read as "") joined by a space,
      with whitespace trimmed from both ends. */
  function DisplayName(c: Creator): string {
    if c.name.Some? && c.name.value != "" then c.name.value
    else Trim(OrElse(c.firstName, "") + " " + OrElse(c.lastName, ""))
  }

  function DisplayNames(cs: seq<Creator>): (names: seq<string>)
    ensures |names| == |cs|
    ensures forall i :: 0 <= i < |cs| ==> names[i] == DisplayName(cs[i])
  {
    seq(|cs|, i requires 0 <= i < |cs| => DisplayName(cs[i]))
  }

  /** `formatAuthors`: "Unknown Author" for an absent or empty creator list, otherwise
      the creators' display names in order, separated by ", ". */
  function FormatAuthors(creators: Option<seq<Creator>>): (r: string)
    ensures creators.None? || creators.value == [] ==> r == UNKNOWN_AUTHOR
    ensures creators.Some? && |creators.value| == 1 ==> r == DisplayName(creators.value[0])
  {
    if creators.None? || |creators.value| == 0 then UNKNOWN_AUTHOR
    else Join(", ", DisplayNames(creators.value))
  }

  /** A creator with a non-empty `name` is shown by that name, whatever its parts. */
  lemma DisplayNameByName(c: Creator)
    requires c.name.Some? && c.name.value != ""
    ensures DisplayName(c) == c.name.value
  {
  }

  /** A creator with no usable name field and no name parts is shown as "". */
  lemma DisplayNameWithoutParts(c: Creator)
    requires c.name.None? || c.name.value == ""
    requires c.firstName.None? || c.firstName.value == ""
    requires c.lastName.None? || c.lastName.value == ""
    ensures DisplayName(c) == ""
  {
    TrimOfAllWhitespace(" ");
  }

  /** Name parts with no surrounding whitespace are shown as "first last". */
  lemma DisplayNameFromParts(c: Creator, first: string, last: string)
    requires c.name.None? || c.name.value == ""
    requires c.firstName == Some(first) && c.lastName == Some(last)
    requires first != "" && last != "" && IsTrimmed(first) && IsTrimmed(last)
    ensures DisplayName(c) == first + " " + last
  {
    var s := first + " " + last;
    assert s[0] == first[0] && s[|s| - 1] == last[|last| - 1];
    TrimOfTrimmed(s);
  }

  /** Adding a creator at the end adds ", " and its display name at the end. */
  lemma FormatAuthorsSnoc(cs: seq<Creator>, c: Creator)
    requires cs != []
    ensures FormatAuthors(Some(cs + [c])) == FormatAuthors(Some(cs)) + ", " + DisplayName(c)
  {
    assert DisplayNames(cs + [c]) == DisplayNames(cs) + [DisplayName(c)];
    JoinSnoc(", ", DisplayNames(cs), DisplayName(c));
  }

  /** Two creators are shown as their two display names separated by ", ". */
  lemma FormatAuthorsPair(a: Creator, b: Creator)
    ensures FormatAuthors(Some([a, b])) == DisplayName(a) + ", " + DisplayName(b)
  {
    var names := DisplayNames([a, b]);
    assert names == [DisplayName(a), DisplayName(b)];
    assert names[1..] == [DisplayName(b)];
    assert Join(", ", names[1..]) == DisplayName(b);
    assert Join(", ", names) == DisplayName(a) + ", " + DisplayName(b);
  }

  /** A creator with a full name followed by one with first/last parts: the name is
      kept as it is and the parts are joined by exactly one space, with no period
      inserted (so "A. Smith" and "J"/"Doe" give "A. Smith, J Doe"). */
  lemma FormatAuthorsNameThenParts(name: string, first: string, last: string)
    requires name != ""
    requires first != "" && last != "" && IsTrimmed(first) && IsTrimmed(last)
    ensures FormatAuthors(Some([Creator(Some(name), None, None), Creator(None, Some(first), Some(last))]))
            == name + ", " + (first + " " + last)
  {
    var b := Creator(None, Some(first), Some(last));
    DisplayNameFromParts(b, first, last);
    FormatAuthorsPair(Creator(Some(name), None, None), b);
  }

  predicate IsDigit(c: char) {
    '0' <= c <= '9'
  }

  /** `/\d{4}/` matches at position `i` of `s`. */
  predicate YearAt(s: string, i: nat) {
    i + 4 <= |s| && IsDigit(s[i]) && IsDigit(s[i + 1]) && IsDigit(s[i + 2]) && IsDigit(s[i + 3])
  }

  /** The leftmost position at or after `from` where four consecutive digits start. */
  function FindYear(s: string, from: nat): (r: Option<nat>)
    ensures r.Some? ==> from <= r.value && YearAt(s, r.value)
    ensures r.Some? ==> forall j: nat :: from <= j < r.value ==> !YearAt(s, j)
    ensures r.None? ==> forall j: nat :: from <= j ==> !YearAt(s, j)
    decreases |s| - from
  {
    if from + 4 > |s| then None
    else if YearAt(s, from) then Some(from)
    else FindYear(s, from + 1)
  }

  /** `extractYear`: "" for an absent or empty date; otherwise the first run of four
      consecutive digits, or the date unchanged when it holds no such run. */
  function ExtractYear(date: Option<string>): (r: string)
    ensures date.None? || date.value == "" ==> r == ""
    ensures date.Some? ==>
              forall i: nat :: YearAt(date.value, i) ==> |r| == 4 && forall k :: 0 <= k < 4 ==> IsDigit(r[k])
    ensures date.Some? ==>
              forall i: nat :: (YearAt(date.value, i) && forall j: nat :: j < i ==> !YearAt(date.value, j)) ==>
                r == date.value[i..i + 4]
    ensures date.Some? && date.value != "" && (forall i: nat :: !YearAt(date.value, i)) ==> r == date.value
  {
    if date.None? || date.value == "" then ""
    else
      match FindYear(date.value, 0)
      case Some(i) => date.value[i..i + 4]
      case None => date.value
  }

  /** An ISO date yields its year. */
  lemma ExtractYearIsoDate()
    ensures ExtractYear(Some("2023-05-10")) == "2023"
  {
    assert YearAt("2023-05-10", 0);
  }

  /** The digit run need not be at the start, and a longer run yields its first four digits. */
  lemma ExtractYearInText()
    ensures ExtractYear(Some("circa 1990s")) == "1990"
  {
    var s := "circa 1990s";
    assert YearAt(s, 6);
    forall j | 0 <= j < 6 ensures !YearAt(s, j) {
      assert !IsDigit(s[5]);
    }
  }

  /** A date with no four-digit run is returned as it is. */
  lemma ExtractYearWithoutDigits()
    ensures ExtractYear(Some("n.d.")) == "n.d."
  {
  }
}
