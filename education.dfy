/** The Education section (linkedin_scraper.py, extract_education): the
    same front-popping as Experience, but `degree` and `date` are keys that
    exist only when their token does. */
module EducationSection {
  import opened Strings
  import opened Wrappers
  import opened Sequences
  import opened Lines
  import opened Records

  /** The positional rule, stated by index: school, then degree and date
      when there are that many tokens, then the description from the
      fourth token on ('' when there is none). No tokens, no record. */
  function EducationOf(tokens: seq<string>): Option<Education> {
    if tokens == [] then None
    else
      Some(Education(tokens[0],
        if |tokens| > 1 then Some(tokens[1]) else None,
        if |tokens| > 2 then Some(tokens[2]) else None,
        if |tokens| > 3 then Join(" ", tokens[3..]) else ""))
  }

  function Present(o: Option<string>): seq<string> {
    if o.Some? then [o.value] else []
  }

  /** Reading the school and the keys that exist back in order gives the
      first tokens (at most three), and the description joins the rest;
      `degree` exists exactly with a second token, `date` with a third. */
  lemma EducationRoundTrip(tokens: seq<string>)
    requires tokens != []
    ensures EducationOf(tokens).Some?
    ensures var e := EducationOf(tokens).value;
      var n := 1 + |Present(e.degree)| + |Present(e.date)|;
      && n <= |tokens|
      && [e.school] + Present(e.degree) + Present(e.date) == tokens[..n]
      && e.description == Join(" ", tokens[n..])
    ensures EducationOf(tokens).value.degree.Some? <==> |tokens| >= 2
    ensures EducationOf(tokens).value.date.Some? <==> |tokens| >= 3
  {
    var e := EducationOf(tokens).value;
    if |tokens| == 1 {
      assert tokens[..1] == [tokens[0]];
    } else if |tokens| == 2 {
      assert tokens[..2] == [tokens[0], tokens[1]];
    } else {
      assert tokens[..3] == [tokens[0], tokens[1], tokens[2]];
    }
  }

  /** One list item: the cleaned `all_texts` is popped from the front. */
  method ParseEducation(tokens: seq<string>) returns (item: Option<Education>)
    ensures item == EducationOf(tokens)
  {
    var texts := tokens;
    if texts == [] {
      return None;
    }
    var school := texts[0];
    texts := texts[1..];
    var degree := None;
    if texts != [] {
      degree := Some(texts[0]);
      texts := texts[1..];
    }
    var date := None;
    if texts != [] {
      date := Some(texts[0]);
      texts := texts[1..];
    }
    var description := "";
    if texts != [] {
      assert texts == tokens[3..];
      description := Join(" ", texts);
    }
    item := Some(Education(school, degree, date, description));
  }

  /** An item's `aria-hidden` span texts, cleaned, make at most one record. */
  function EducationFromItem(spans: seq<string>): Option<Education> {
    EducationOf(Clean(spans))
  }

  /** The section loop: items without any non-blank text are skipped, the
      others appended in order. */
  method ExtractEducation(items: seq<seq<string>>) returns (records: seq<Education>)
    ensures records == Collect(items, EducationFromItem)
  {
    records := [];
    for i := 0 to |items|
      invariant records == Collect(items[..i], EducationFromItem)
    {
      CollectStep(items, i, EducationFromItem);
      var item := ParseEducation(Clean(items[i]));
      if item.Some? {
        records := records + [item.value];
      }
    }
    CollectWhole(items, EducationFromItem);
  }
}
