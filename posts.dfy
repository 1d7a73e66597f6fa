/** Post cards of the activity feed (linkedin_scraper.py, extract_posts):
    the first text block is the author's commentary, any further blocks
    are the reposted text, one per line. */
module PostsSection {
  import opened Strings
  import opened Wrappers
  import opened Sequences
  import opened Records

  /** `[t.strip() for t in texts]`. */
  function StripAll(texts: seq<string>): (r: seq<string>)
    ensures |r| == |texts|
    ensures forall k :: 0 <= k < |texts| ==> r[k] == Strip(texts[k])
  {
    seq(|texts|, k requires 0 <= k < |texts| => Strip(texts[k]))
  }

  /** A card with no text block yields nothing; otherwise the stripped first
      block is the commentary and, with more blocks, `re_post` holds the
      others stripped and joined by newlines. */
  function PostOf(texts: seq<string>): Option<Post> {
    if texts == [] then None
    else Some(Post(Strip(texts[0]), if |texts| > 1 then Some(Join("\n", StripAll(texts[1..]))) else None))
  }

  /** When no reposted block spans several lines, splitting `re_post` at
      newlines gives back the stripped blocks one by one. */
  lemma RepostRoundTrip(texts: seq<string>)
    requires |texts| > 1
    requires forall k :: 1 <= k < |texts| ==> '\n' !in Strip(texts[k])
    ensures PostOf(texts).Some? && PostOf(texts).value.rePost.Some?
    ensures Split(PostOf(texts).value.rePost.value, '\n') == StripAll(texts[1..])
  {
    var blocks := StripAll(texts[1..]);
    assert forall k :: 0 <= k < |blocks| ==> '\n' !in blocks[k] by {
      forall k | 0 <= k < |blocks| ensures '\n' !in blocks[k] {
        assert blocks[k] == Strip(texts[k + 1]);
      }
    }
    SplitJoin(blocks, '\n');
  }

  /** The card loop: one post per card with at least one text block, in order. */
  method ExtractPosts(cards: seq<seq<string>>) returns (posts: seq<Post>)
    ensures posts == Collect(cards, PostOf)
  {
    posts := [];
    for i := 0 to |cards|
      invariant posts == Collect(cards[..i], PostOf)
    {
      CollectStep(cards, i, PostOf);
      var texts := cards[i];
      if texts != [] {
        var rePost := if |texts| > 1 then Some(Join("\n", StripAll(texts[1..]))) else None;
        posts := posts + [Post(Strip(texts[0]), rePost)];
      }
    }
    CollectWhole(cards, PostOf);
  }
}
