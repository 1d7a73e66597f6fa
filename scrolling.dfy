/** The scroll loops that load more cards before a page is read
    (linkedin_scraper.py: extract_comments_with_post_context,
    extract_posts and extract_full_publications). Each round scrolls,
    waits and reads the page height; the loop stops once the height has
    not changed for a number of rounds in a row. The readings are given
    as a sequence, one per round. */
module Scrolling {
  import opened Settings

  /** Round `i` left the height unchanged: its reading equals the height
      remembered from the round before, which is 0 before the first round. */
  predicate Stagnant(heights: seq<nat>, i: nat)
    requires i < |heights|
  {
    heights[i] == if i == 0 then 0 else heights[i - 1]
  }

  /** Round `i` closes a run of `limit` stagnant rounds. */
  predicate SettledAt(heights: seq<nat>, i: nat, limit: nat)
    requires i < |heights|
  {
    limit <= i + 1 && forall k :: i + 1 - limit <= k <= i ==> Stagnant(heights, k)
  }

  /** The stagnation counter after `n` rounds: the number of stagnant
      rounds in a row at the end of the first `n`. */
  function RunLength(heights: seq<nat>, n: nat): (r: nat)
    requires n <= |heights|
    ensures r <= n
  {
    if n == 0 then 0
    else if Stagnant(heights, n - 1) then RunLength(heights, n - 1) + 1
    else 0
  }

  /** The counter reaches the limit exactly when the last round closes a
      run of that many stagnant rounds. */
  lemma {:induction false} RunLengthSettled(heights: seq<nat>, i: nat, limit: nat)
    requires i < |heights| && limit >= 1
    ensures RunLength(heights, i + 1) >= limit <==> SettledAt(heights, i, limit)
    decreases i
  {
    if !Stagnant(heights, i) {
      assert !SettledAt(heights, i, limit);
    } else if limit == 1 {
      assert SettledAt(heights, i, limit) by {
        forall k | i + 1 - limit <= k <= i
          ensures Stagnant(heights, k)
        {
          assert k == i;
        }
      }
    } else if i == 0 {
      assert RunLength(heights, 1) == 1;
    } else {
      RunLengthSettled(heights, i - 1, limit - 1);
      if SettledAt(heights, i, limit) {
        assert SettledAt(heights, i - 1, limit - 1) by {
          forall k | i - (limit - 1) <= k <= i - 1
            ensures Stagnant(heights, k)
          {
          }
        }
      }
      if SettledAt(heights, i - 1, limit - 1) {
        assert SettledAt(heights, i, limit) by {
          forall k | i + 1 - limit <= k <= i
            ensures Stagnant(heights, k)
          {
            if k < i {
              assert i - 1 + 1 - (limit - 1) <= k <= i - 1;
            }
          }
        }
      }
    }
  }

  /** The comments loop: at most `max_scroll_rounds` rounds, leaving the
      loop in the round where the second stagnant round in a row is seen.
      Returns how many rounds ran. */
  method ScrollComments(heights: seq<nat>) returns (rounds: nat)
    requires |heights| >= MaxScrollRounds
    ensures CommentStagnationLimit <= rounds <= MaxScrollRounds
    ensures forall i :: 0 <= i < rounds - 1 ==> !SettledAt(heights, i, CommentStagnationLimit)
    ensures rounds < MaxScrollRounds ==> SettledAt(heights, rounds - 1, CommentStagnationLimit)
  {
    var lastHeight := 0;
    var stagnantRounds := 0;
    for iteration := 0 to MaxScrollRounds
      invariant lastHeight == if iteration == 0 then 0 else heights[iteration - 1]
      invariant stagnantRounds == RunLength(heights, iteration)
      invariant forall i :: 0 <= i < iteration ==> !SettledAt(heights, i, CommentStagnationLimit)
    {
      var newHeight := heights[iteration];
      if newHeight == lastHeight {
        stagnantRounds := stagnantRounds + 1;
      } else {
        stagnantRounds := 0;
      }
      RunLengthSettled(heights, iteration, CommentStagnationLimit);
      if stagnantRounds >= CommentStagnationLimit {
        return iteration + 1;
      }
      lastHeight := newHeight;
    }
    rounds := MaxScrollRounds;
  }

  /** How the posts and publications loop ends: after a number of rounds,
      or, in the model only, when the readings run out first. */
  datatype ScrollOutcome = Settled(rounds: nat) | OutOfReadings

  /** The posts and full-publications loop: no bound on the rounds; it
      leaves after ten stagnant rounds in a row. `last_height` changes
      only when the height does, which keeps it equal to the previous
      reading. */
  method ScrollFeed(heights: seq<nat>) returns (outcome: ScrollOutcome)
    ensures outcome.Settled? ==>
      FeedStagnationLimit <= outcome.rounds <= |heights| &&
      SettledAt(heights, outcome.rounds - 1, FeedStagnationLimit) &&
      forall i :: 0 <= i < outcome.rounds - 1 ==> !SettledAt(heights, i, FeedStagnationLimit)
    ensures outcome.OutOfReadings? ==>
      forall i :: 0 <= i < |heights| ==> !SettledAt(heights, i, FeedStagnationLimit)
  {
    var lastHeight := 0;
    var scrollAttempts := 0;
    var round := 0;
    while scrollAttempts < FeedStagnationLimit
      invariant round <= |heights|
      invariant lastHeight == if round == 0 then 0 else heights[round - 1]
      invariant scrollAttempts == RunLength(heights, round)
      invariant forall i :: 0 <= i < round - 1 ==> !SettledAt(heights, i, FeedStagnationLimit)
      invariant round > 0 ==> (scrollAttempts >= FeedStagnationLimit <==> SettledAt(heights, round - 1, FeedStagnationLimit))
      decreases |heights| - round
    {
      if round == |heights| {
        return OutOfReadings;
      }
      var newHeight := heights[round];
      if newHeight == lastHeight {
        scrollAttempts := scrollAttempts + 1;
      } else {
        lastHeight := newHeight;
        scrollAttempts := 0;
      }
      RunLengthSettled(heights, round, FeedStagnationLimit);
      round := round + 1;
    }
    outcome := Settled(round);
  }

  /** Heights 100, 200, 200, 200: the comments loop leaves in the fourth
      round, the second in a row without growth. */
  lemma GrowThenStallExample()
    ensures var heights: seq<nat> := [100, 200, 200, 200];
      SettledAt(heights, 3, CommentStagnationLimit) &&
      forall i :: 0 <= i < 3 ==> !SettledAt(heights, i, CommentStagnationLimit)
  {
    var heights: seq<nat> := [100, 200, 200, 200];
    assert !Stagnant(heights, 0) && !Stagnant(heights, 1);
  }
}
