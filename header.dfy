/** The top of the profile page: the name in the `h1` and the About
    section's text (linkedin_scraper.py, extract_profile_data). */
module Header {
  import opened Strings
  import opened Wrappers
  import opened Sequences
  import opened Lines

  datatype Name = Name(first: string, last: string)

  /** `first_name = full.split(' ')[0]`, `last_name = ' '.join(full.split(' ')[1:])`:
      without a space the first name is the whole text; with one, the two
      parts joined by a space give the full name back, and the first part
      holds no space. */
  function SplitName(fullName: string): (n: Name)
    ensures ' ' !in fullName ==> n.first == fullName && n.last == ""
    ensures ' ' in fullName ==> n.first + " " + n.last == fullName
    ensures ' ' !in n.first
  {
    var parts := Split(fullName, ' ');
    var i := IndexOf(fullName, ' ');
    if i == |fullName| then
      assert parts == [fullName];
      Name(parts[0], Join(" ", parts[1..]))
    else
      JoinSplit(fullName, ' ');
      JoinCons(" ", parts);
      Name(parts[0], Join(" ", parts[1..]))
  }

  /** A line that opens the About text: exactly `about`, in any case. */
  predicate IsAboutHeading(line: string) {
    Lower(line) == "about"
  }

  /** A line that ends the About text: it mentions `skills`, in any case. */
  predicate MentionsSkills(line: string) {
    Contains(Lower(line), "skills")
  }

  /** The About text's lines: those after the first heading line and before
      the first line mentioning skills; none when a skills line comes
      first or there is no heading. */
  function AboutLines(lines: seq<string>): seq<string> {
    var a, s := FirstWhere(lines, IsAboutHeading), FirstWhere(lines, MentionsSkills);
    if a < s then lines[a + 1..s] else []
  }

  /** The heading line never mentions skills, being too short to. */
  lemma HeadingIsNotSkills(line: string)
    requires IsAboutHeading(line)
    ensures !MentionsSkills(line)
  {
    NotContainsLonger(Lower(line), "skills");
  }

  /** The About loop: walks the lines with an "inside the section" flag and
      stops at the first line mentioning skills; the result is the lines
      between the heading and that line, joined by spaces. */
  method AboutText(lines: seq<string>) returns (about: string)
    ensures about == Join(" ", AboutLines(lines))
  {
    ghost var a, s := FirstWhere(lines, IsAboutHeading), FirstWhere(lines, MentionsSkills);
    var aboutLines: seq<string> := [];
    var inAbout := false;
    var i := 0;
    while i < |lines|
      invariant i <= s
      invariant inAbout <==> a < i
      invariant aboutLines == if inAbout then lines[a + 1..i] else []
    {
      var line := lines[i];
      if IsAboutHeading(line) && !inAbout {
        HeadingIsNotSkills(line);
        inAbout := true;
        i := i + 1;
        continue;
      }
      if MentionsSkills(line) {
        break;
      }
      if inAbout {
        assert lines[a + 1..i + 1] == lines[a + 1..i] + [line];
        aboutLines := aboutLines + [line];
      }
      i := i + 1;
    }
    assert aboutLines == AboutLines(lines);
    about := Join(" ", aboutLines);
  }

  /** `profile['about']`: the About text of the section's non-blank lines,
      or '' when the section cannot be read. */
  method ExtractAbout(sectionText: Option<string>) returns (about: string)
    ensures sectionText.None? ==> about == ""
    ensures sectionText.Some? ==> about == Join(" ", AboutLines(NonBlankLines(sectionText.value)))
  {
    if sectionText.None? {
      return "";
    }
    about := AboutText(NonBlankLines(sectionText.value));
  }
}
