/** The comments extractor that runs inside the comments activity page
    (linkedin_scraper.py, extract_comments_with_post_context): for every
    card it keeps the comments the profile owner wrote, each with the
    card's post text, timestamp and post author. */
module CommentsSection {
  import opened Strings
  import opened Wrappers
  import opened Sequences
  import opened Records

  /** One comment element: its text and, when it sits inside a list item,
      the hrefs of the profile links (`a[href*='/in/']`) of that item. */
  datatype CommentElement = CommentElement(text: string, container: Option<seq<string>>)

  /** One card: its post text, time and author elements (`None` when absent)
      and its comment elements in document order. */
  datatype CommentCard = CommentCard(
    postText: Option<string>, timestamp: Option<string>, postAuthor: Option<string>,
    comments: seq<CommentElement>)

  /** isAuthoredByUser: the comment has an enclosing list item that links
      to the owner's profile, i.e. some profile-link href contains
      `/in/` followed by the owner's slug. */
  predicate AuthoredBy(el: CommentElement, slug: string) {
    el.container.Some? &&
    exists k :: 0 <= k < |el.container.value| && LinksToProfile(el.container.value[k], slug)
  }

  /** A profile link (its href contains `/in/`) whose href contains
      `/in/` followed by the slug. */
  predicate LinksToProfile(href: string, slug: string) {
    Contains(href, "/in/") && Contains(href, "/in/" + slug)
  }

  /** The record pushed for one comment element, if any: none for a comment
      of someone else or a blank one; otherwise the trimmed comment and the
      card's trimmed context, `null` where the card lacks the element. */
  function CommentOf(card: CommentCard, el: CommentElement, slug: string): Option<Comment> {
    if !AuthoredBy(el, slug) || JsTrim(el.text) == [] then None
    else Some(Comment(JsTrim(el.text), MapOption(card.postText, JsTrim),
                      MapOption(card.timestamp, JsTrim), MapOption(card.postAuthor, JsTrim)))
  }

  /** The per-element step on one card, as a function value. */
  function CommentBuilder(card: CommentCard, slug: string): CommentElement -> Option<Comment> {
    el => CommentOf(card, el, slug)
  }

  /** The records one card contributes, in the order of its elements. */
  function CardComments(card: CommentCard, slug: string): seq<Comment> {
    Collect(card.comments, CommentBuilder(card, slug))
  }

  /** The whole result: the cards' contributions in card order. */
  function CommentsOf(cards: seq<CommentCard>, slug: string): seq<Comment> {
    if cards == [] then []
    else CommentsOf(cards[..|cards| - 1], slug) + CardComments(cards[|cards| - 1], slug)
  }

  /** The record the extractor pushes for one element, if any. */
  method ReadComment(card: CommentCard, el: CommentElement, slug: string) returns (comment: Option<Comment>)
    ensures comment == CommentOf(card, el, slug)
  {
    comment := None;
    if AuthoredBy(el, slug) {
      var commentText := JsTrim(el.text);
      if commentText != [] {
        var postText := if card.postText.Some? then Some(JsTrim(card.postText.value)) else None;
        var timestamp := if card.timestamp.Some? then Some(JsTrim(card.timestamp.value)) else None;
        var postAuthor := if card.postAuthor.Some? then Some(JsTrim(card.postAuthor.value)) else None;
        comment := Some(Comment(commentText, postText, timestamp, postAuthor));
      }
    }
  }

  /** The inner forEach over one card's comment elements. */
  method ReadCard(card: CommentCard, slug: string) returns (found: seq<Comment>)
    ensures found == CardComments(card, slug)
  {
    var elements := card.comments;
    var build := CommentBuilder(card, slug);
    found := [];
    for j := 0 to |elements|
      invariant found == Collect(elements[..j], build)
    {
      var el := elements[j];
      CollectStep(elements, j, build);
      var comment := ReadComment(card, el, slug);
      if comment.Some? {
        found := found + [comment.value];
      }
    }
    CollectWhole(elements, build);
  }

  /** The extractor's outer forEach over the cards. */
  method ExtractComments(cards: seq<CommentCard>, slug: string) returns (results: seq<Comment>)
    ensures results == CommentsOf(cards, slug)
  {
    results := [];
    for i := 0 to |cards|
      invariant results == CommentsOf(cards[..i], slug)
    {
      assert cards[..i + 1][..i] == cards[..i];
      var found := ReadCard(cards[i], slug);
      results := results + found;
    }
    assert cards[..|cards|] == cards;
  }

  /** A record is among one card's records exactly when one of the card's
      elements builds it. */
  lemma CardCommentsMember(card: CommentCard, slug: string, c: Comment)
    ensures c in CardComments(card, slug) <==>
      exists j :: 0 <= j < |card.comments| && CommentOf(card, card.comments[j], slug) == Some(c)
  {
    CollectMember(card.comments, CommentBuilder(card, slug), c);
  }

  /** A record of several cards comes from the cards before the last or from the last. */
  lemma CommentsOfUnfold(cards: seq<CommentCard>, slug: string, c: Comment)
    requires cards != []
    ensures c in CommentsOf(cards, slug) <==>
      c in CommentsOf(cards[..|cards| - 1], slug) || c in CardComments(cards[|cards| - 1], slug)
  {
  }

  /** The card a record of the result comes from. */
  lemma {:induction false} CardOf(cards: seq<CommentCard>, slug: string, c: Comment) returns (i: nat)
    requires c in CommentsOf(cards, slug)
    ensures i < |cards| && c in CardComments(cards[i], slug)
    decreases |cards|
  {
    var init := cards[..|cards| - 1];
    CommentsOfUnfold(cards, slug, c);
    if c in CommentsOf(init, slug) {
      i := CardOf(init, slug, c);
      assert cards[i] == init[i];
    } else {
      i := |cards| - 1;
    }
  }

  /** Every record of a card is in the result. */
  lemma {:induction false} InCardOf(cards: seq<CommentCard>, slug: string, c: Comment, i: nat)
    requires i < |cards| && c in CardComments(cards[i], slug)
    ensures c in CommentsOf(cards, slug)
    decreases |cards|
  {
    CommentsOfUnfold(cards, slug, c);
    if i < |cards| - 1 {
      var init := cards[..|cards| - 1];
      assert init[i] == cards[i];
      InCardOf(init, slug, c, i);
    }
  }

  /** A record is in the result exactly when some card contributes it. */
  lemma CardsMember(cards: seq<CommentCard>, slug: string, c: Comment)
    ensures c in CommentsOf(cards, slug) <==>
      exists i :: 0 <= i < |cards| && c in CardComments(cards[i], slug)
  {
    if c in CommentsOf(cards, slug) {
      var i := CardOf(cards, slug, c);
    }
    if exists i :: 0 <= i < |cards| && c in CardComments(cards[i], slug) {
      var i :| 0 <= i < |cards| && c in CardComments(cards[i], slug);
      InCardOf(cards, slug, c, i);
    }
  }

  /** A record is in the result exactly when some element of some card
      builds it. */
  lemma CommentsMember(cards: seq<CommentCard>, slug: string, c: Comment)
    ensures c in CommentsOf(cards, slug) <==>
      exists i, j :: 0 <= i < |cards| && 0 <= j < |cards[i].comments| &&
        CommentOf(cards[i], cards[i].comments[j], slug) == Some(c)
  {
    CardsMember(cards, slug, c);
    forall i | 0 <= i < |cards|
      ensures c in CardComments(cards[i], slug) <==>
        exists j :: 0 <= j < |cards[i].comments| && CommentOf(cards[i], cards[i].comments[j], slug) == Some(c)
    {
      CardCommentsMember(cards[i], slug, c);
    }
  }

  /** Every kept comment was written by the owner and is non-blank and trimmed. */
  lemma CommentsAreOwnersAndTrimmed(cards: seq<CommentCard>, slug: string, c: Comment)
    requires c in CommentsOf(cards, slug)
    ensures exists i, j ::
      0 <= i < |cards| && 0 <= j < |cards[i].comments| &&
      AuthoredBy(cards[i].comments[j], slug) && c.commentText == JsTrim(cards[i].comments[j].text)
    ensures c.commentText != []
  {
    CommentsMember(cards, slug, c);
  }

  /** The owner test is a substring test: a link to any profile whose slug
      extends the owner's (`/in/jane` against `/in/jane-doe`) counts as the
      owner's own. */
  lemma LongerSlugAlsoMatches(href: string, slug: string, more: string)
    requires Contains(href, "/in/" + slug + more)
    ensures LinksToProfile(href, slug)
  {
    ContainsPrefixOf(href, "/in/" + slug, more);
    assert "/in/" + slug + more == "/in/" + (slug + more);
    ContainsPrefixOf(href, "/in/", slug + more);
  }

  /** With an empty slug (a profile URL without `/in/`), every comment that
      sits next to any profile link counts as the owner's. */
  lemma EmptySlugMatchesEveryProfileLink(href: string)
    requires Contains(href, "/in/")
    ensures LinksToProfile(href, "")
  {
    assert "/in/" + "" == "/in/";
  }

  /** A comment whose list item links only to another member's profile is
      not kept. */
  lemma OtherAuthorDropped()
    ensures CommentOf(CommentCard(Some("post"), Some("1d"), Some("Acme"), []),
                      CommentElement("Nice!", Some(["/in/john-smith/"])),
                      "jane-doe") == None
  {
    OnlyLinkIsOther();
    var el := CommentElement("Nice!", Some(["/in/john-smith/"]));
    assert !AuthoredBy(el, "jane-doe") by {
      assert el.container.value == ["/in/john-smith/"];
    }
  }

  /** "/in/john-smith/" does not contain "/in/jane-doe". */
  lemma OnlyLinkIsOther()
    ensures !LinksToProfile("/in/john-smith/", "jane-doe")
  {
    var href: string := "/in/john-smith/";
    var sub: string := "/in/jane-doe";
    assert "/in/" + "jane-doe" == sub;
    forall i: nat
      ensures !MatchesAt(href, sub, i)
    {
      if i + |sub| <= |href| {
        assert href[i..i + |sub|][4] != 'j' || href[i..i + |sub|][5] != 'a';
      }
    }
    NotContainsAnywhere(href, sub);
  }

  /** The owner's own comment is kept with the card's trimmed context. */
  lemma OwnerCommentKept()
    ensures var el := CommentElement("Nice!", Some(["/in/jane-doe/"]));
      CommentOf(CommentCard(Some("post"), None, Some("Acme"), []), el, "jane-doe")
        == Some(Comment("Nice!", Some("post"), None, Some("Acme")))
  {
    OwnerLink();
    JsTrimUnchanged("Nice!");
    JsTrimUnchanged("post");
    JsTrimUnchanged("Acme");
    AuthoredByFirstLink(CommentElement("Nice!", Some(["/in/jane-doe/"])), "jane-doe");
  }

  /** "/in/jane-doe/" links to "jane-doe". */
  lemma OwnerLink()
    ensures LinksToProfile("/in/jane-doe/", "jane-doe")
  {
    var href: string := "/in/jane-doe/";
    assert "/in/" + "jane-doe" == href[..12];
    assert href[..4] == "/in/";
    ContainsAt(href, "/in/", 0);
    ContainsAt(href, "/in/" + "jane-doe", 0);
  }

  /** An element whose first link is to the profile is the owner's. */
  lemma AuthoredByFirstLink(el: CommentElement, slug: string)
    requires el.container.Some? && el.container.value != []
    requires LinksToProfile(el.container.value[0], slug)
    ensures AuthoredBy(el, slug)
  {
  }
}
