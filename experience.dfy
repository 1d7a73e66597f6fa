/** The Experience section (linkedin_scraper.py, extract_experience): each
    list item's span texts are cleaned, then consumed from the front. */
module ExperienceSection {
  import opened Strings
  import opened Wrappers
  import opened Sequences
  import opened Lines
  import opened Records

  /** A token that carries a duration ("· 2 yrs") rather than a place. */
  predicate LooksLikeDuration(token: string) {
    Contains(token, "\U{00B7}") || Contains(token, "yr")
  }

  /** The token at position `k`, or '' when there are fewer tokens. */
  function TokenAt(tokens: seq<string>, k: nat): string {
    if k < |tokens| then tokens[k] else ""
  }

  /** The positional rule, stated by index: title, company and date are the
      first three tokens; the fourth is the location unless it looks like a
      duration; every later token goes to the description. No tokens, no
      record. */
  function ExperienceOf(tokens: seq<string>): Option<Experience> {
    if tokens == [] then None
    else
      var hasLocation := |tokens| > 3 && !LooksLikeDuration(tokens[3]);
      var rest := if hasLocation then 4 else if |tokens| < 3 then |tokens| else 3;
      Some(Experience(tokens[0], TokenAt(tokens, 1), TokenAt(tokens, 2),
        if hasLocation then tokens[3] else "", Join(" ", tokens[rest..])))
  }

  /** The fields a record took from the front of its tokens, in order. */
  function Consumed(e: Experience): seq<string> {
    [e.title]
      + (if e.company != "" then [e.company] else [])
      + (if e.date != "" then [e.date] else [])
      + (if e.location != "" then [e.location] else [])
  }

  /** Reading a record's filled fields back in order gives a prefix of the
      tokens, and the description is the rest joined by spaces; the
      location is filled exactly when a fourth token exists and does not
      look like a duration. */
  lemma ExperienceRoundTrip(tokens: seq<string>)
    requires tokens != []
    requires forall k :: 0 <= k < |tokens| ==> tokens[k] != ""
    ensures ExperienceOf(tokens).Some?
    ensures |Consumed(ExperienceOf(tokens).value)| <= |tokens|
    ensures Consumed(ExperienceOf(tokens).value) == tokens[..|Consumed(ExperienceOf(tokens).value)|]
    ensures ExperienceOf(tokens).value.description == Join(" ", tokens[|Consumed(ExperienceOf(tokens).value)|..])
    ensures ExperienceOf(tokens).value.location != "" <==> |tokens| > 3 && !LooksLikeDuration(tokens[3])
    ensures ExperienceOf(tokens).value.title == tokens[0]
    ensures ExperienceOf(tokens).value.company == TokenAt(tokens, 1)
    ensures ExperienceOf(tokens).value.date == TokenAt(tokens, 2)
    ensures |Consumed(ExperienceOf(tokens).value)|
      == if |tokens| > 3 && !LooksLikeDuration(tokens[3]) then 4 else if |tokens| < 3 then |tokens| else 3
  {
    var e := ExperienceOf(tokens).value;
    var n := |tokens|;
    if n == 1 {
      assert Consumed(e) == [tokens[0]];
    } else if n == 2 {
      assert Consumed(e) == [tokens[0], tokens[1]];
    } else if n == 3 || LooksLikeDuration(tokens[3]) {
      assert Consumed(e) == [tokens[0], tokens[1], tokens[2]];
    } else {
      assert Consumed(e) == [tokens[0], tokens[1], tokens[2], tokens[3]];
    }
  }

  /** One list item: the cleaned `all_texts` is popped from the front,
      field by field, and what is left becomes the description. */
  method ParseExperience(tokens: seq<string>) returns (item: Option<Experience>)
    ensures item == ExperienceOf(tokens)
  {
    var texts := tokens;
    if texts == [] {
      return None;
    }
    var title := texts[0];
    texts := texts[1..];
    var company := "";
    if texts != [] {
      company := texts[0];
      texts := texts[1..];
    }
    var date := "";
    if texts != [] {
      date := texts[0];
      texts := texts[1..];
    }
    assert texts == tokens[if |tokens| < 3 then |tokens| else 3..];
    var location := "";
    if texts != [] && !LooksLikeDuration(texts[0]) {
      location := texts[0];
      texts := texts[1..];
      assert texts == tokens[4..];
    }
    item := Some(Experience(title, company, date, location, Join(" ", texts)));
  }

  /** A list item of the section: whether it holds the caption span that
      marks a real entry, and its `aria-hidden` span texts. */
  datatype ExperienceItem = ExperienceItem(hasCaption: bool, spans: seq<string>)

  function ExperienceFromItem(li: ExperienceItem): Option<Experience> {
    if li.hasCaption then ExperienceOf(Clean(li.spans)) else None
  }

  /** The section loop: items without the caption span or without any
      non-blank text are skipped, the others appended in order. */
  method ExtractExperience(items: seq<ExperienceItem>) returns (records: seq<Experience>)
    ensures records == Collect(items, ExperienceFromItem)
  {
    records := [];
    for i := 0 to |items|
      invariant records == Collect(items[..i], ExperienceFromItem)
    {
      var li := items[i];
      CollectStep(items, i, ExperienceFromItem);
      if !li.hasCaption {
        continue;
      }
      var item := ParseExperience(Clean(li.spans));
      if item.Some? {
        records := records + [item.value];
      }
    }
    CollectWhole(items, ExperienceFromItem);
  }
}
