/** The fixed limits a scraper is constructed with (linkedin_scraper.py,
    LinkedInScraper.__init__) and the thresholds of its scroll loops. */
module Settings {
  /** `max_scroll_rounds`: the comments page is scrolled at most this often. */
  const MaxScrollRounds: nat := 30

  /** The comments loop stops after this many unchanged heights in a row. */
  const CommentStagnationLimit: nat := 2

  /** The posts and publications loops stop after this many unchanged heights in a row. */
  const FeedStagnationLimit: nat := 10

  /** `reactions_limit`: at most this many reaction cards are read. */
  const ReactionsLimit: nat := 20
}
