// struct timeval and struct timespec as libusb uses them for deadlines (io.c).
module TimevalArithmetic {

  datatype Timeval = Timeval(sec: int, usec: int)
  datatype Timespec = Timespec(sec: int, nsec: int)

  predicate Normal(t: Timeval) {
    t.sec >= 0 && 0 <= t.usec < 1_000_000
  }

  predicate NormalSpec(t: Timespec) {
    t.sec >= 0 && 0 <= t.nsec < 1_000_000_000
  }

  const ZERO := Timeval(0, 0)

  // timerisset; an unset deadline means "never"
  predicate IsSet(t: Timeval) {
    t.sec != 0 || t.usec != 0
  }

  // The comparison of add_to_flying_list and handle_timeouts_locked
  predicate Later(a: Timeval, b: Timeval) {
    a.sec > b.sec || (a.sec == b.sec && a.usec > b.usec)
  }

  // timersub
  function Subtract(a: Timeval, b: Timeval): Timeval {
    if a.usec < b.usec then Timeval(a.sec - b.sec - 1, a.usec - b.usec + 1_000_000)
    else Timeval(a.sec - b.sec, a.usec - b.usec)
  }

  // TIMESPEC_TO_TIMEVAL
  function Truncate(t: Timespec): Timeval {
    Timeval(t.sec, t.nsec / 1000)
  }

  function Micros(t: Timeval): int {
    t.sec * 1_000_000 + t.usec
  }

  function Nanos(t: Timespec): int {
    t.sec * 1_000_000_000 + t.nsec
  }

  lemma LaterIsMicros(a: Timeval, b: Timeval)
    requires Normal(a) && Normal(b)
    ensures Later(a, b) <==> Micros(a) > Micros(b)
    ensures a == b <==> Micros(a) == Micros(b)
  {
  }

  lemma SubtractIsMicros(a: Timeval, b: Timeval)
    requires Normal(a) && Normal(b) && !Later(b, a)
    ensures Normal(Subtract(a, b)) && Micros(Subtract(a, b)) == Micros(a) - Micros(b)
  {
  }

  lemma TruncateIsMicros(t: Timespec)
    requires NormalSpec(t)
    ensures Normal(Truncate(t)) && Micros(Truncate(t)) == Nanos(t) / 1000
  {
  }

  // calculate_timeout.  A zero user timeout leaves the stored deadline as it was; otherwise the
  // deadline is the current time plus the timeout, to the microsecond.
  method CalculateTimeout(stored: Timeval, timeout: nat, now: Timespec) returns (deadline: Timeval)
    requires NormalSpec(now)
    ensures timeout == 0 ==> deadline == stored
    ensures timeout != 0 ==>
              && Normal(deadline) && IsSet(deadline)
              && Micros(deadline) == Nanos(now) / 1000 + timeout * 1000
  {
    if timeout == 0 {
      return stored;
    }
    var sec, nsec := now.sec + timeout / 1000, now.nsec + (timeout % 1000) * 1_000_000;
    ghost var total := Nanos(now) + timeout * 1_000_000;
    while nsec >= 1_000_000_000
      invariant sec >= 0 && 0 <= nsec && sec * 1_000_000_000 + nsec == total
    {
      nsec := nsec - 1_000_000_000;
      sec := sec + 1;
    }
    deadline := Truncate(Timespec(sec, nsec));
    TruncateIsMicros(Timespec(sec, nsec));
  }

  // handle_events: the wait given to poll, rounded up to whole milliseconds
  function PollMillis(tv: Timeval): int {
    tv.sec * 1000 + tv.usec / 1000 + (if tv.usec % 1000 != 0 then 1 else 0)
  }

  // What remains until a deadline: zero when the deadline has been reached.
  function Remaining(deadline: Timeval, now: Timeval): Timeval {
    if Later(deadline, now) then Subtract(deadline, now) else ZERO
  }

  // get_next_timeout: the smaller of the remaining time and the caller's limit
  function Shorter(remaining: Timeval, limit: Timeval): Timeval {
    if Later(limit, remaining) then remaining else limit
  }

  lemma RemainingIsMicros(deadline: Timeval, now: Timeval)
    requires Normal(deadline) && Normal(now)
    ensures var r := Remaining(deadline, now);
            && Normal(r)
            && Micros(r) == (if Micros(deadline) > Micros(now) then Micros(deadline) - Micros(now) else 0)
            && (IsSet(r) <==> Later(deadline, now))
  {
    LaterIsMicros(deadline, now);
    if Later(deadline, now) {
      SubtractIsMicros(deadline, now);
    }
  }

  // If poll runs for its full time, the deadline that supplied the wait has been reached: neither
  // truncating the clock to microseconds nor rounding the wait to milliseconds falls short.  The
  // wait is never more than a millisecond too long either.
  lemma FullPollReachesDeadline(deadline: Timeval, before: Timespec, limit: Timeval, after: Timespec)
    requires Normal(deadline) && Normal(limit) && NormalSpec(before) && NormalSpec(after)
    requires Later(deadline, Truncate(before))
    ensures var remaining := Remaining(deadline, Truncate(before));
            var wait := PollMillis(Shorter(remaining, limit));
            && (!Later(remaining, limit) && Nanos(after) >= Nanos(before) + wait * 1_000_000 ==>
                  !Later(deadline, Truncate(after)))
            && wait * 1000 < Micros(remaining) + 1000
  {
    var remaining := Remaining(deadline, Truncate(before));
    var shorter := Shorter(remaining, limit);
    RemainingIsMicros(deadline, Truncate(before));
    ShorterIsMicros(remaining, limit);
    RoundsUp(shorter);
    hide PollMillis, Later, Shorter, Remaining;
    TruncateIsMicros(before);
    TruncateIsMicros(after);
    LaterIsMicros(remaining, limit);
    LaterIsMicros(deadline, Truncate(before));
    LaterIsMicros(deadline, Truncate(after));
  }

  lemma ShorterIsMicros(remaining: Timeval, limit: Timeval)
    requires Normal(remaining) && Normal(limit)
    ensures var shorter := Shorter(remaining, limit);
            && Normal(shorter)
            && Micros(shorter) == (if Micros(limit) > Micros(remaining) then Micros(remaining) else Micros(limit))
  {
    LaterIsMicros(limit, remaining);
  }

  lemma RoundsUp(t: Timeval)
    requires Normal(t)
    ensures Micros(t) <= PollMillis(t) * 1000 < Micros(t) + 1000
  {
  }
}
