/** The Languages section (linkedin_scraper.py, extract_languages): the
    site repeats a value as accessible and as visual text, so the lines
    are deduplicated before the first two are read. */
module LanguagesSection {
  import opened Wrappers
  import opened Sequences
  import opened Lines
  import opened Records

  /** The first distinct line is the language, the second the proficiency
      or "Not specified". No lines, no record. */
  function LanguageOf(lines: seq<string>): Option<Language> {
    var distinct := Dedup(lines);
    if distinct == [] then None
    else Some(Language(distinct[0], if |distinct| > 1 then distinct[1] else "Not specified"))
  }

  function LanguageFromText(text: string): Option<Language> {
    LanguageOf(NonBlankLines(text))
  }

  /** The language is the first line, and the proficiency defaults to
      "Not specified" exactly when every line repeats it. */
  lemma LanguageIsFirstLine(lines: seq<string>)
    requires lines != []
    ensures LanguageOf(lines).Some? && LanguageOf(lines).value.language == lines[0]
    ensures (forall k :: 0 <= k < |lines| ==> lines[k] == lines[0]) ==>
      LanguageOf(lines).value.proficiency == "Not specified"
  {
    DedupHead(lines);
    if forall k :: 0 <= k < |lines| ==> lines[k] == lines[0] {
      DedupConstant(lines);
    }
  }

  /** The proficiency is the first line that differs from the language. */
  lemma ProficiencyIsFirstOtherLine(lines: seq<string>, j: nat)
    requires j < |lines| && lines[j] != lines[0]
    requires forall k :: 0 <= k < j ==> lines[k] == lines[0]
    ensures LanguageOf(lines) == Some(Language(lines[0], lines[j]))
  {
    DedupSecond(lines, j);
  }

  /** A repeated language line is read once: English, English, Native gives
      English with proficiency Native. */
  lemma RepeatedLanguageExample()
    ensures LanguageOf(["English", "English", "Native"]) == Some(Language("English", "Native"))
  {
    ProficiencyIsFirstOtherLine(["English", "English", "Native"], 2);
  }

  /** The body of the section loop for one item's inner text. */
  method ReadLanguage(text: string) returns (record: Option<Language>)
    ensures record == LanguageFromText(text)
  {
    var lines := NonBlankLines(text);
    var distinct := Dedup(lines);
    record := None;
    if distinct != [] {
      var proficiency := if |distinct| > 1 then distinct[1] else "Not specified";
      record := Some(Language(distinct[0], proficiency));
    }
  }

  /** The section loop: one record per item with a non-blank line, in order. */
  method ExtractLanguages(items: seq<string>) returns (records: seq<Language>)
    ensures records == Collect(items, LanguageFromText)
  {
    records := [];
    for i := 0 to |items|
      invariant records == Collect(items[..i], LanguageFromText)
    {
      CollectStep(items, i, LanguageFromText);
      var record := ReadLanguage(items[i]);
      if record.Some? {
        records := records + [record.value];
      }
    }
    CollectWhole(items, LanguageFromText);
  }
}
