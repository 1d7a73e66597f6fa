/** The line-cleaning comprehension every extractor starts with:
    `[t.strip() for t in texts if t.strip()]`, applied either to a list of
    span texts or to an element's inner text split at newlines. */
module Lines {
  import opened Strings
  import opened Wrappers
  import opened Sequences

  /** A text kept in its stripped form, or dropped when it is blank. */
  function NonBlank(t: string): Option<string> {
    var s := Strip(t);
    if s == "" then None else Some(s)
  }

  /** A line as cleaning leaves it: non-empty and already stripped. */
  predicate IsCleanLine(line: string) {
    line != "" && Strip(line) == line
  }

  predicate IsClean(lines: seq<string>) {
    forall k :: 0 <= k < |lines| ==> IsCleanLine(lines[k])
  }

  /** Stripping twice strips nothing more. */
  lemma StripIdempotent(s: string)
    ensures Strip(Strip(s)) == Strip(s)
  {
    StripUnchanged(Strip(s));
  }

  /** `[t.strip() for t in texts if t.strip()]`. */
  function Clean(texts: seq<string>): (r: seq<string>)
    ensures |r| <= |texts|
    ensures IsClean(r)
  {
    var r := Collect(texts, NonBlank);
    assert IsClean(r) by {
      forall k | 0 <= k < |r|
        ensures IsCleanLine(r[k])
      {
        CollectMember(texts, NonBlank, r[k]);
        var i :| 0 <= i < |texts| && NonBlank(texts[i]) == Some(r[k]);
        StripIdempotent(texts[i]);
      }
    }
    r
  }

  /** The non-blank, stripped lines of an element's inner text. */
  function NonBlankLines(text: string): (r: seq<string>)
    ensures IsClean(r)
  {
    Clean(Split(text, '\n'))
  }

  /** Cleaning is done line by line: cleaning a concatenation concatenates
      the cleaned parts. */
  lemma CleanAppend(xs: seq<string>, ys: seq<string>)
    ensures Clean(xs + ys) == Clean(xs) + Clean(ys)
  {
    CollectAppend(xs, ys, NonBlank);
  }

  /** Cleaning already-clean lines changes nothing. */
  lemma {:induction false} CleanIdempotent(lines: seq<string>)
    requires IsClean(lines)
    ensures Clean(lines) == lines
    decreases |lines|
  {
    if lines != [] {
      var init, last := lines[..|lines| - 1], lines[|lines| - 1];
      assert init + [last] == lines;
      CleanIdempotent(init);
      assert NonBlank(last) == Some(last);
      CollectSnoc(init, last, NonBlank);
    }
  }
}
