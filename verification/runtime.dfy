/**
 * The runtime report at the end of the script: whole seconds split into hours,
 * minutes and seconds by two `divmod` calls. Python's `divmod` floors; with the
 * positive divisors 3600 and 60 Dafny's `/` and `%` agree with it on every integer.
 */
module Runtime {

  datatype Clock = Clock(hours: int, minutes: int, seconds: int)

  function TotalSeconds(c: Clock): int {
    c.hours * 3600 + c.minutes * 60 + c.seconds
  }

  predicate Normal(c: Clock) {
    0 <= c.minutes < 60 && 0 <= c.seconds < 60
  }

  /** `hours, remainder = divmod(t, 3600); minutes, seconds = divmod(remainder, 60)`. */
  function Split(t: int): (c: Clock)
    ensures TotalSeconds(c) == t && Normal(c)
    ensures t >= 0 ==> c.hours >= 0
  {
    var hours, remainder := t / 3600, t % 3600;
    Clock(hours, remainder / 60, remainder % 60)
  }

  /** A normal clock reading is determined by the seconds it stands for. */
  lemma SplitIsUnique(t: int, c: Clock)
    requires TotalSeconds(c) == t && Normal(c)
    ensures c == Split(t)
  {
    var d := Split(t);
    var r1 := c.minutes * 60 + c.seconds;
    var r2 := d.minutes * 60 + d.seconds;
    assert 0 <= r1 < 3600 && 0 <= r2 < 3600;
    assert (c.hours - d.hours) * 3600 == r2 - r1;
    assert c.hours == d.hours;
    assert (c.minutes - d.minutes) * 60 == d.seconds - c.seconds;
    assert c.minutes == d.minutes;
  }
}
