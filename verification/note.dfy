/** How the sync run turns one Zotero item into the note it sends to Craft: the title
    it reports, the metadata fields, the `#tag` list and the markdown template. */
module Note {
  import opened JsStrings
  import opened Zotero

  const UNTITLED := "Untitled"

  /** The title an item is reported and created under: its title, or "Untitled" when
      the title is absent or empty. */
  function ItemTitle(item: Item): (t: string)
    ensures t != ""
    ensures item.data.title.Some? && item.data.title.value != "" ==> t == item.data.title.value
    ensures item.data.title.None? || item.data.title.value == "" ==> t == UNTITLED
  {
    OrElse(item.data.title, UNTITLED)
  }

  /** The venue, or "". */
  function Journal(item: Item): string {
    OrElse(item.data.publicationTitle, "")
  }

  /** The URL, else the DOI, else "". */
  function Link(item: Item): string {
    OrElse(item.data.url, OrElse(item.data.doi, ""))
  }

  /** The abstract, or "". */
  function AbstractOf(item: Item): string {
    OrElse(item.data.abstractNote, "")
  }

  /** The item's tags; an absent list reads as no tags. */
  function TagsOf(item: Item): seq<Tag> {
    item.data.tags.GetOr([])
  }

  /** A tag as a Craft hashtag: "#" and then the tag with every whitespace run
      replaced by a single "_", so the result holds no whitespace. */
  function FormatTag(tag: string): (r: string)
    ensures |r| >= 1 && r[0] == '#'
    ensures NoWhitespace(r)
  {
    "#" + CollapseWhitespace(tag)
  }

  function FormatTags(tags: seq<Tag>): (r: seq<string>)
    ensures |r| == |tags|
    ensures forall i :: 0 <= i < |tags| ==> r[i] == FormatTag(tags[i].tag)
  {
    seq(|tags|, i requires 0 <= i < |tags| => FormatTag(tags[i].tag))
  }

  /** The hashtags separated by single spaces; "" when there are no tags. */
  function TagLine(tags: seq<Tag>): (r: string)
    ensures tags == [] ==> r == ""
  {
    Join(" ", FormatTags(tags))
  }

  /** A tag without whitespace keeps its text after the "#". */
  lemma FormatTagOfWord(tag: string)
    requires NoWhitespace(tag)
    ensures FormatTag(tag) == "#" + tag
  {
    CollapseWithoutWhitespace(tag);
  }

  /** Two words separated by a run of whitespace become one hashtag joined by a
      single "_" (so "machine learning" becomes "#machine_learning"). */
  lemma FormatTagOfTwoWords(first: string, gap: string, second: string)
    requires NoWhitespace(first) && NoWhitespace(second)
    requires gap != [] && AllWhitespace(gap)
    ensures FormatTag(first + gap + second) == "#" + first + "_" + second
  {
    CollapseRun(first, gap, second);
    CollapseWithoutWhitespace(second);
  }

  /** The tag line splits back, on single spaces, into exactly the hashtags, one per
      source tag and in order, because no hashtag contains whitespace. */
  lemma TagLineSplits(tags: seq<Tag>)
    requires tags != []
    ensures Split(TagLine(tags), ' ') == FormatTags(tags)
  {
    var hs := FormatTags(tags);
    assert [' '] == " ";
    SplitJoin(hs, ' ');
  }

  /** The fields of a rendered note. */
  datatype NoteFields = NoteFields(authors: string, year: string, journal: string, link: string, tagLine: string, summary: string)

  /** The note for an item with the given summary text. The link is the URL when it
      is non-empty, else the DOI when that is non-empty, else ""; the journal is the
      venue when it is non-empty, else "". */
  function NoteOf(item: Item, summary: string): (n: NoteFields)
    ensures n.summary == summary
    ensures n.tagLine == TagLine(TagsOf(item))
    ensures n.authors == FormatAuthors(item.data.creators) && n.year == ExtractYear(item.data.date)
    ensures item.data.url.Some? && item.data.url.value != "" ==> n.link == item.data.url.value
    ensures (item.data.url.None? || item.data.url.value == "") && item.data.doi.Some? && item.data.doi.value != "" ==>
              n.link == item.data.doi.value
    ensures (item.data.url.None? || item.data.url.value == "") && (item.data.doi.None? || item.data.doi.value == "") ==>
              n.link == ""
    ensures item.data.publicationTitle.Some? && item.data.publicationTitle.value != "" ==>
              n.journal == item.data.publicationTitle.value
    ensures item.data.publicationTitle.None? || item.data.publicationTitle.value == "" ==> n.journal == ""
  {
    NoteFields(FormatAuthors(item.data.creators), ExtractYear(item.data.date), Journal(item), Link(item),
         TagLine(TagsOf(item)), summary)
  }

  /** Everything before the summary: the metadata block and the Summary heading. */
  function Metadata(n: NoteFields): string {
    "\n**Authors:** " + n.authors + "\n**Year:** " + n.year + "\n**Journal:** " + n.journal
    + "\n**Link:** " + n.link + "\n**Tags:** " + n.tagLine + "\n\n## Summary\n"
  }

  /** The four empty sections the reader fills in later, each with one empty bullet. */
  const SCAFFOLD := "\n\n## Key Ideas\n- \n\n## Quotes\n- \n\n## Critique\n- \n\n## Related Work\n- \n"

  /** The markdown body: the metadata block, then the Summary section holding exactly
      the summary text, then the scaffold sections. */
  function Render(n: NoteFields): (body: string)
    ensures |body| == |Metadata(n)| + |n.summary| + |SCAFFOLD|
    ensures body[..|Metadata(n)|] == Metadata(n)
    ensures body[|Metadata(n)|..|Metadata(n)| + |n.summary|] == n.summary
    ensures body[|Metadata(n)| + |n.summary|..] == SCAFFOLD
  {
    Metadata(n) + n.summary + SCAFFOLD
  }
}
