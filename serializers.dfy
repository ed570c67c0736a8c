/**
 * `ElectionListSerializer.get_status` (backend/authentication/serializers.py):
 * the label an election carries in listings, computed from its window and
 * the current instant.
 */
module Serializers {
  import opened Models

  const Archive: string := "archive"
  const Upcoming: string := "upcoming"
  const Active: string := "active"

  /** The voting-window test of the vote handler: `start <= now <= end`, both ends inclusive. */
  predicate InVotingWindow(e: Election, now: Instant) {
    e.start <= now <= e.end
  }

  /** Ended elections are "archive" first, then not-yet-started ones are "upcoming", the rest "active". */
  function GetStatus(e: Election, now: Instant): (r: string)
    ensures r == Archive || r == Upcoming || r == Active
    ensures r == Archive <==> e.end < now
    ensures r == Upcoming <==> now <= e.end && now < e.start
    ensures r == Active <==> InVotingWindow(e, now)
  {
    if e.end < now then Archive
    else if e.start > now then Upcoming
    else Active
  }

  /** An election whose end has passed is "archive" even if its start still lies ahead. */
  lemma ArchiveWinsOverUpcoming(e: Election, now: Instant)
    requires e.end < now < e.start
    ensures GetStatus(e, now) == Archive
  {
  }

  /** At the very instant an election ends it is still "active": the window is closed on the right. */
  lemma ActiveAtBothEnds(e: Election)
    requires e.start <= e.end
    ensures GetStatus(e, e.start) == Active && GetStatus(e, e.end) == Active
    ensures GetStatus(e, e.end + 1) == Archive
    ensures GetStatus(e, e.start - 1) == Upcoming
  {
  }
}
