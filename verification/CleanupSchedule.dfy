/** When the disk cleanup of the fine-tuning broker reaches a task: one sweep at start and then
  every twelve hours, each over a window of whole days. */
module CleanupSchedule {

  const DAY: int := 86400
  const INTERVAL: int := 43200

  /** The midnight before. */
  function Today(now: int): (midnight: int)
    ensures midnight <= now < midnight + 86400 && midnight % 86400 == 0
  {
    now / DAY * DAY
  }

  /** The window of a sweep reaches from twice the retention to the retention before today. */
  predicate Sweeps(retention: nat, now: int, created: int) {
    Today(now) - 2 * retention * DAY <= created <= Today(now) - retention * DAY
  }

  function SweepTime(first: int, k: nat): (time: int)
    ensures time == first + k * 43200
  {
    first + k * INTERVAL
  }

  /** What a sweep removes is at least as old as the retention. */
  lemma SweptIsOldEnough(retention: nat, now: int, created: int)
    requires Sweeps(retention, now, created)
    ensures now - created >= retention * 86400
  {
    assert now / DAY * DAY <= now;
  }

  /** Both ends of the window are swept. */
  lemma WindowEndsAreSwept(retention: nat, now: int)
    ensures Sweeps(retention, now, Today(now) - retention * 86400)
    ensures Sweeps(retention, now, Today(now) - 2 * retention * 86400)
  {
  }

  lemma WindowsMoveOn(retention: nat, first: int, k: nat, created: int)
    requires Sweeps(retention, SweepTime(first, k), created)
    ensures created >= Today(first) - 2 * retention * DAY
  {
    assert first / DAY <= SweepTime(first, k) / DAY;
  }

  lemma DayAfter(first: int, days: nat)
    ensures Today(SweepTime(first, 2 * days)) == Today(first) + days * DAY
  {
    assert SweepTime(first, 2 * days) == first + days * DAY;
    assert (first + days * DAY) / DAY == first / DAY + days;
  }

  /** With a retention of at least a day, the sweeps reach exactly the tasks that were created no
      earlier than the first window opens: no task falls between two windows. */
  lemma SweptIffInReach(retention: nat, first: int, created: int)
    requires retention > 0
    ensures (exists k :: Sweeps(retention, SweepTime(first, k), created))
       <==> created >= Today(first) - 2 * retention * 86400
  {
    if k: nat :| Sweeps(retention, SweepTime(first, k), created) {
      WindowsMoveOn(retention, first, k, created);
    }
    if created >= Today(first) - 2 * retention * DAY {
      var wait := created / DAY + retention + 1 - first / DAY;
      var days := if wait > 0 then wait else 0;
      DayAfter(first, days);
      assert Sweeps(retention, SweepTime(first, 2 * days), created);
    }
  }
}
