/** Reaction cards (linkedin_scraper.py, extract_reactions): only the first
    cards visible without scrolling are read, at most `reactions_limit`. */
module ReactionsSection {
  import opened Strings
  import opened Wrappers
  import opened Sequences
  import opened Records
  import opened Settings

  /** One card: the text of its actor line and of its content block, each
      `None` when the card has no such element. */
  datatype ReactionCard = ReactionCard(actorText: Option<string>, content: Option<string>)

  /** The actor line says that someone liked or celebrated the post. */
  predicate AnnouncesReaction(actor: string) {
    Contains(actor, "likes this") || Contains(actor, "celebrates this")
  }

  /** `liked_by` is the actor line's text before its first space, set only
      when the line announces a reaction; `content` is the stripped content
      text. A card with neither is dropped. */
  function ReactionOf(card: ReactionCard): Option<Reaction> {
    var likedBy :=
      if card.actorText.Some? && AnnouncesReaction(card.actorText.value)
      then Some(Split(card.actorText.value, ' ')[0]) else None;
    var content := MapOption(card.content, Strip);
    if likedBy.None? && content.None? then None else Some(Reaction(likedBy, content))
  }

  /** `liked_by` is present exactly when the actor line announces a
      reaction, and it is that line's first word: it holds no space, and the
      line is either that word or starts with it followed by a space. */
  lemma LikedByIsFirstWord(card: ReactionCard)
    requires card.actorText.Some? && AnnouncesReaction(card.actorText.value)
    ensures ReactionOf(card).Some? && ReactionOf(card).value.likedBy.Some?
    ensures var actor, who := card.actorText.value, ReactionOf(card).value.likedBy.value;
      ' ' !in who && (actor == who || StartsWith(actor, who + " "))
  {
    var actor := card.actorText.value;
    var parts := Split(actor, ' ');
    JoinSplit(actor, ' ');
    if |parts| > 1 {
      JoinCons(" ", parts);
    }
  }

  /** Without an announcing actor line there is no `liked_by`. */
  lemma NoLikedByWithoutAnnouncement(card: ReactionCard)
    requires card.actorText.None? || !AnnouncesReaction(card.actorText.value)
    ensures ReactionOf(card).None? || ReactionOf(card).value.likedBy.None?
  {
  }

  /** The number of cards that are read. */
  function CardsRead(cards: seq<ReactionCard>): nat {
    if |cards| < ReactionsLimit then |cards| else ReactionsLimit
  }

  /** The body of the card loop: reads one card's actor line and content. */
  method ReadCard(card: ReactionCard) returns (reaction: Option<Reaction>)
    ensures reaction == ReactionOf(card)
  {
    var likedBy := None;
    if card.actorText.Some? {
      var actor := card.actorText.value;
      if Contains(actor, "likes this") || Contains(actor, "celebrates this") {
        likedBy := Some(Split(actor, ' ')[0]);
      }
    }
    var content := None;
    if card.content.Some? {
      content := Some(Strip(card.content.value));
    }
    reaction := if likedBy.Some? || content.Some? then Some(Reaction(likedBy, content)) else None;
  }

  /** The card loop over `post_cards[:reactions_limit]`: the reactions of
      the first cards in order, never more than the limit. */
  method ExtractReactions(cards: seq<ReactionCard>) returns (reactions: seq<Reaction>)
    ensures reactions == Collect(cards[..CardsRead(cards)], ReactionOf)
    ensures |reactions| <= ReactionsLimit
  {
    var visible := cards[..CardsRead(cards)];
    reactions := [];
    for i := 0 to |visible|
      invariant reactions == Collect(visible[..i], ReactionOf)
    {
      var card := visible[i];
      CollectStep(visible, i, ReactionOf);
      var reaction := ReadCard(card);
      if reaction.Some? {
        reactions := reactions + [reaction.value];
      }
    }
    CollectWhole(visible, ReactionOf);
  }
}
