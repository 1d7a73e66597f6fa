/** The two publication extractors (linkedin_scraper.py): the short list on
    the profile page and the full list on the details page, which also
    filters out the "recommended profiles" blocks sharing its markup. */
module PublicationsSection {
  import opened Strings
  import opened Wrappers
  import opened Sequences
  import opened Lines
  import opened Records

  /** A profile-page item: title, then publisher and date when there are
      that many lines. */
  function PublicationOf(lines: seq<string>): Option<Publication> {
    if lines == [] then None
    else
      Some(Publication(lines[0],
        if |lines| > 1 then Some(lines[1]) else None,
        if |lines| > 2 then Some(lines[2]) else None))
  }

  function ProfilePublication(text: string): Option<Publication> {
    PublicationOf(NonBlankLines(text))
  }

  /** The body of the profile-page loop: one item's record, if it has a line. */
  method ReadProfileItem(text: string) returns (record: Option<Publication>)
    ensures record == ProfilePublication(text)
  {
    var lines := NonBlankLines(text);
    record := None;
    if lines != [] {
      var title := lines[0];
      var publisher := if |lines| > 1 then Some(lines[1]) else None;
      var date := if |lines| > 2 then Some(lines[2]) else None;
      record := Some(Publication(title, publisher, date));
    }
  }

  /** `extract_publications`: one record per item with a non-blank line, in order. */
  method ExtractPublications(items: seq<string>) returns (records: seq<Publication>)
    ensures records == Collect(items, ProfilePublication)
  {
    records := [];
    for i := 0 to |items|
      invariant records == Collect(items[..i], ProfilePublication)
    {
      CollectStep(items, i, ProfilePublication);
      var record := ReadProfileItem(items[i]);
      if record.Some? {
        records := records + [record.value];
      }
    }
    CollectWhole(items, ProfilePublication);
  }

  /** A line that starts with the middle dot, as "· 3rd" in a profile card. */
  predicate IsBulleted(line: string) {
    StartsWith(line, "\U{00B7}")
  }

  /** A details-page item. It is dropped when it has no lines, when its
      first line mentions "More profiles" or when its third line is
      bulleted; a kept item has its first line as title, and a bulleted
      line is never taken as publisher or date. */
  function FullPublicationOf(lines: seq<string>): (r: Option<Publication>)
    ensures r.None? <==> lines == [] || Contains(lines[0], "More profiles") || (|lines| > 2 && IsBulleted(lines[2]))
    ensures r.Some? ==> r.value.title == lines[0]
    ensures r.Some? && r.value.publisher.Some? ==> !IsBulleted(r.value.publisher.value)
    ensures r.Some? && r.value.date.Some? ==> !IsBulleted(r.value.date.value)
  {
    if lines == [] then None
    else if Contains(lines[0], "More profiles") then None
    else if |lines| > 2 && IsBulleted(lines[2]) then None
    else
      Some(Publication(lines[0],
        if |lines| > 1 && !IsBulleted(lines[1]) then Some(lines[1]) else None,
        if |lines| > 2 && !IsBulleted(lines[2]) then Some(lines[2]) else None))
  }

  function DetailsPublication(text: string): Option<Publication> {
    FullPublicationOf(NonBlankLines(text))
  }

  /** On an ordinary publication (first line without "More profiles", no
      bulleted line among the first three) the details page yields the
      same record as the profile page. */
  lemma DetailsAgreeWithProfile(lines: seq<string>)
    requires lines != [] && !Contains(lines[0], "More profiles")
    requires forall k :: 0 <= k < |lines| && k < 3 ==> !IsBulleted(lines[k])
    ensures FullPublicationOf(lines) == PublicationOf(lines)
  {
  }

  /** The body of the details-page loop: one item's record, if it is kept. */
  method ReadDetailsItem(text: string) returns (record: Option<Publication>)
    ensures record == DetailsPublication(text)
  {
    var lines := NonBlankLines(text);
    if lines == [] {
      return None;
    }
    if Contains(lines[0], "More profiles") {
      return None;
    }
    if |lines| > 2 && IsBulleted(lines[2]) {
      return None;
    }
    var publisher := if |lines| > 1 && !IsBulleted(lines[1]) then Some(lines[1]) else None;
    var date := if |lines| > 2 && !IsBulleted(lines[2]) then Some(lines[2]) else None;
    return Some(Publication(lines[0], publisher, date));
  }

  /** `extract_full_publications` after the page has loaded: the kept items
      in order; nothing when the details page or its list cannot be reached. */
  method ExtractFullPublications(items: Option<seq<string>>) returns (records: seq<Publication>)
    ensures items.None? ==> records == []
    ensures items.Some? ==> records == Collect(items.value, DetailsPublication)
  {
    records := [];
    if items.None? {
      return;
    }
    var lis := items.value;
    for i := 0 to |lis|
      invariant records == Collect(lis[..i], DetailsPublication)
    {
      CollectStep(lis, i, DetailsPublication);
      var record := ReadDetailsItem(lis[i]);
      if record.Some? {
        records := records + [record.value];
      }
    }
    CollectWhole(lis, DetailsPublication);
  }

  /** Every record of the full list has a non-empty title that does not
      mention "More profiles" and a publisher that is not bulleted, and
      there are no more records than list items. */
  lemma FullPublicationsWellFormed(items: seq<string>)
    ensures |Collect(items, DetailsPublication)| <= |items|
    ensures forall p :: p in Collect(items, DetailsPublication) ==>
      p.title != "" && !Contains(p.title, "More profiles")
      && (p.publisher.Some? ==> !IsBulleted(p.publisher.value))
  {
    forall p | p in Collect(items, DetailsPublication)
      ensures p.title != "" && !Contains(p.title, "More profiles")
      ensures p.publisher.Some? ==> !IsBulleted(p.publisher.value)
    {
      CollectMember(items, DetailsPublication, p);
      var i :| 0 <= i < |items| && DetailsPublication(items[i]) == Some(p);
      var lines := NonBlankLines(items[i]);
      assert IsCleanLine(lines[0]);
    }
  }
}
