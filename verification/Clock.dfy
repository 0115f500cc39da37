/** Times as tick or microsecond counts: conversions to and from seconds and microseconds. */
module Clock {
  import opened Arith

  const MILLION := 1000000

  datatype Timeval = Timeval(sec: nat, usec: nat)

  /** How times count: processor ticks at a frequency, or microseconds. */
  datatype Build = Ticks(freq: nat) | Micros

  /** A processor that ticks at least once in a microsecond. */
  predicate Fit(b: Build) {
    b.Ticks? ==> b.freq >= MILLION
  }

  /** The truncated number of ticks in a microsecond. */
  function PerUsec(b: Build): (u: nat)
    requires b.Ticks? && Fit(b)
    ensures u >= 1 && MILLION * u <= b.freq < MILLION * (u + 1)
  {
    b.freq / MILLION
  }

  /** PTH_TIME. */
  function Time(b: Build, sec: nat, usec: nat): nat
    requires Fit(b)
  {
    if b.Ticks? then sec * b.freq + usec * PerUsec(b) else sec * MILLION + usec
  }

  /** pth_time_to_timeval. */
  function ToTimeval(b: Build, t: nat): Timeval
    requires Fit(b)
  {
    if b.Micros? then Timeval(t / MILLION, t % MILLION)
    else
      var sec, usec := t / b.freq, t % b.freq / PerUsec(b);
      if usec > MILLION then Timeval(sec + 1, usec - MILLION) else Timeval(sec, usec)
  }

  lemma UsecsFit(b: Build, usec: nat)
    requires b.Ticks? && Fit(b) && usec < MILLION
    ensures usec * PerUsec(b) < b.freq
  {
    var u := PerUsec(b);
    MulMono(u, usec, MILLION - 1);
    MulDist(u, MILLION - 1, 1);
    MulComm(usec, u);
  }

  /** A normalised time survives the way there and back, in spite of the truncation. */
  lemma RoundTrip(b: Build, sec: nat, usec: nat)
    requires Fit(b) && usec < MILLION
    ensures ToTimeval(b, Time(b, sec, usec)) == Timeval(sec, usec)
  {
    if b.Ticks? {
      var u := PerUsec(b);
      UsecsFit(b, usec);
      MulComm(sec, b.freq);
      ModUnique(Time(b, sec, usec), b.freq, sec, usec * u);
      MulComm(usec, u);
      ModUnique(usec * u, u, usec, 0);
    }
  }

  lemma RawUsecs(b: Build, t: nat)
    requires b.Ticks? && Fit(b)
    ensures t % b.freq / PerUsec(b) < 2 * MILLION
  {
    var u := PerUsec(b);
    DivDef(t, b.freq);
    MulDist(u, MILLION, MILLION);
    MulComm(u, MILLION);
    MulMono(MILLION, 1, u);
    DivBound(t % b.freq, u, 2 * MILLION);
  }

  /** The microseconds never exceed a million; when the remainder reaches it the time is not normalised. */
  lemma UsecBound(b: Build, t: nat)
    requires Fit(b)
    ensures ToTimeval(b, t).usec <= MILLION
    ensures ToTimeval(b, t).usec == MILLION <==> b.Ticks? && t % b.freq / PerUsec(b) == MILLION
  {
    if b.Ticks? {
      RawUsecs(b, t);
    }
  }

  lemma MillionReached(b: Build, u: nat)
    requires b.Ticks? && Fit(b) && u == PerUsec(b) && b.freq % MILLION != 0
    ensures ToTimeval(b, MILLION * u).usec == MILLION
  {
    var t := MILLION * u;
    DivDef(b.freq, MILLION);
    MulComm(MILLION, u);
    DivDef(t, b.freq);
    ModUnique(t, u, MILLION, 0);
  }

  lemma MillionMissed(b: Build, t: nat)
    requires b.Ticks? && Fit(b) && b.freq % MILLION == 0
    ensures ToTimeval(b, t).usec != MILLION
  {
    var u := PerUsec(b);
    UsecBound(b, t);
    DivDef(b.freq, MILLION);
    DivDef(t, b.freq);
    MulComm(MILLION, u);
    DivBound(t % b.freq, u, MILLION);
  }

  /** Such times exist exactly for frequencies that are no whole number of ticks per microsecond. */
  lemma UnnormalisedIff(b: Build)
    requires b.Ticks? && Fit(b)
    ensures (exists t :: ToTimeval(b, t).usec == MILLION) <==> b.freq % MILLION != 0
  {
    if b.freq % MILLION != 0 {
      MillionReached(b, PerUsec(b));
    } else {
      forall t ensures ToTimeval(b, t).usec != MILLION {
        MillionMissed(b, t);
      }
    }
  }

  // ---- times of day ----

  ghost predicate Before(a: Timeval, b: Timeval) {
    a.sec < b.sec || (a.sec == b.sec && a.usec < b.usec)
  }

  predicate Normal(a: Timeval) {
    a.usec < MILLION
  }

  /** The distance of a time of day from the baseline, normalised. */
  function Offset(base: Timeval, tv: Timeval): (d: Timeval)
    requires Normal(base) && Normal(tv) && !Before(tv, base)
    ensures Normal(d)
  {
    if tv.usec < base.usec then Timeval(tv.sec - base.sec - 1, tv.usec + MILLION - base.usec)
    else Timeval(tv.sec - base.sec, tv.usec - base.usec)
  }

  /** pth_TOD_time: the tick count of a time of day, from the tick count of the baseline on. */
  function TodTime(b: Build, base: Timeval, ticks: nat, tv: Timeval): nat
    requires Fit(b) && Normal(base) && Normal(tv) && !Before(tv, base)
  {
    if b.Micros? then Time(b, tv.sec, tv.usec)
    else ticks + Time(b, Offset(base, tv).sec, Offset(base, tv).usec)
  }

  lemma TimeGrows(b: Build, x: Timeval, y: Timeval)
    requires Fit(b) && Normal(x) && Normal(y) && Before(x, y)
    ensures Time(b, x.sec, x.usec) < Time(b, y.sec, y.usec)
  {
    if b.Ticks? {
      var u := PerUsec(b);
      UsecsFit(b, x.usec);
      if x.sec < y.sec {
        MulMono(b.freq, x.sec + 1, y.sec);
        MulDist(b.freq, x.sec, 1);
        MulComm(b.freq, x.sec);
        MulComm(b.freq, y.sec);
      } else {
        MulMono(u, x.usec + 1, y.usec);
        MulDist(u, x.usec, 1);
        MulComm(u, x.usec);
        MulComm(u, y.usec);
      }
    }
  }

  /** Later times of day have strictly larger counts. */
  lemma TodTimeGrows(b: Build, base: Timeval, ticks: nat, x: Timeval, y: Timeval)
    requires Fit(b) && Normal(base) && Normal(x) && Normal(y) && !Before(x, base) && Before(x, y)
    ensures TodTime(b, base, ticks, x) < TodTime(b, base, ticks, y)
  {
    if b.Micros? {
      TimeGrows(b, x, y);
    } else {
      TimeGrows(b, Offset(base, x), Offset(base, y));
    }
  }
}
