/** The guard that decides whether a webhook may change a row it found. */
module UpdateGuard {
  import opened Wrappers
  import opened Domain

  /** Not revoked, not strictly older by event time, not moving the expiry back (unless revoking),
      and a permitted transition. */
  predicate ShouldApplyUpdate(existing: Option<Row>, incomingStatus: Status, incomingExpiresAt: Option<Time>,
      incomingEventAt: Option<Time>)
  {
    if existing.None? then true
    else
      var row := existing.value;
      if row.status == Revoked then false
      else if row.lastEventAt.Some? && incomingEventAt.Some? && incomingEventAt.value < row.lastEventAt.value then false
      else if incomingStatus != Revoked && row.expiresAt.Some? && incomingExpiresAt.Some?
              && incomingExpiresAt.value < row.expiresAt.value then false
      else if !CanTransition(row.status, incomingStatus) then false
      else true
  }

  /** So along permitted transitions every update to another status than active uses up rank, and one to
      active gives back at most three; nothing leaves revoked, and nothing enters inactive. */
  lemma TransitionsSpendRank(from: Status, to: Status)
    requires CanTransition(from, to)
    ensures to != Active ==> Rank(to) < Rank(from)
    ensures to == Active ==> Rank(to) <= Rank(from) + 3
    ensures from != Revoked && to != Inactive && from.Valid() && to.Valid()
  {
    TransitionsExactly(from, to);
  }
}
