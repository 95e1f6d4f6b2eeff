/** What the background loops achieve: the rotation settles, the refresh misses nothing it could have read. */
module Background {
  import opened Types
  import opened Cache
  import opened Runtime

  // ---- known values stay known ----

  lemma {:induction false} AbsorbKeeps(v: Values, reports: seq<Report>, n: ReadName)
    requires Paired(v)
    ensures Paired(Absorb(v, reports))
    ensures Known(v, n).Some? ==> Known(Absorb(v, reports), n).Some?
    decreases |reports|
  {
    if reports != [] {
      ApplyTouchesOwnName(v, reports[0]);
      AbsorbKeeps(Apply(v, reports[0]), reports[1..], n);
    }
  }

  lemma TurnKeeps(v: Values, name: ReadName, turn: Turn, n: ReadName)
    requires Paired(v)
    ensures Paired(AfterTurn(v, name, turn))
    ensures Known(v, n).Some? || (n == name && Delivers(n, turn)) ==> Known(AfterTurn(v, name, turn), n).Some?
  {
    AbsorbKeeps(v, turn.others, n);
    var w := Absorb(v, turn.others);
    if Delivers(name, turn) {
      ApplyTouchesOwnName(w, turn.reply.report);
    }
  }

  // ---- the rotation ----

  lemma {:induction false} RotatedKeeps(v: Values, world: World, m: nat, n: nat, name: ReadName)
    requires Paired(v) && m <= n
    ensures Paired(Rotated(v, world, n))
    ensures Known(Rotated(v, world, m), name).Some? ==> Known(Rotated(v, world, n), name).Some?
    decreases n
  {
    if m < n {
      RotatedKeeps(v, world, m, n - 1, name);
      TurnKeeps(Rotated(v, world, n - 1), ROTATION[(n - 1) % 14], world(n - 1, ROTATION[(n - 1) % 14]), name);
    } else if n > 0 {
      RotatedKeeps(v, world, n - 1, n - 1, name);
      TurnKeeps(Rotated(v, world, n - 1), ROTATION[(n - 1) % 14], world(n - 1, ROTATION[(n - 1) % 14]), name);
    }
  }

  /** The gating value at place g of the rotation is read within its first k visits. */
  ghost predicate ReadWithin(world: World, g: nat, k: nat)
    requires g < 14
  {
    exists j: nat :: j < k && DeliversAt(world, g, j)
  }

  /** The visit number j of place g delivers a value. */
  ghost predicate DeliversAt(world: World, g: nat, j: nat)
    requires g < 14
  {
    Delivers(ROTATION[g], world(14 * j + g, ROTATION[g]))
  }

  lemma DeliveredIsKnown(v: Values, world: World, i: nat)
    requires Paired(v) && Delivers(ROTATION[i % 14], world(i, ROTATION[i % 14]))
    ensures Known(Rotated(v, world, i + 1), ROTATION[i % 14]).Some?
  {
    RotatedKeeps(v, world, i, i, ROTATION[i % 14]);
    TurnKeeps(Rotated(v, world, i), ROTATION[i % 14], world(i, ROTATION[i % 14]), ROTATION[i % 14]);
  }

  lemma VisitIsKnown(v: Values, world: World, g: nat, j: nat, n: nat)
    requires Paired(v) && g < 14 && DeliversAt(world, g, j) && n > 14 * j + g
    ensures Known(Rotated(v, world, n), ROTATION[g]).Some?
  {
    var i := 14 * j + g;
    assert i % 14 == g;
    DeliveredIsKnown(v, world, i);
    RotatedKeeps(v, world, i + 1, n, ROTATION[g]);
  }

  /** If each of the seven gating values is read within its first k visits, every wait from read number
      14(k - 1) + 8 on is the steady one, whatever the seven other reads and all other tasks do. */
  lemma RotationSettles(v: Values, world: World, k: nat, n: nat, hours: Option<real>)
    requires Paired(v) && k >= 1 && n >= 14 * (k - 1) + 8
    requires forall g: nat | 1 <= g <= 7 :: ReadWithin(world, g, k)
    ensures HaveAll(Rotated(v, world, n)) && Interval(Rotated(v, world, n), hours) == PollSeconds(hours)
  {
    RotatedKeeps(v, world, n, n, BoltState);
    forall g: nat | 1 <= g <= 7 ensures Known(Rotated(v, world, n), ROTATION[g]).Some? {
      assert ReadWithin(world, g, k);
      var j: nat :| j < k && DeliversAt(world, g, j);
      assert 14 * j + g < n;
      VisitIsKnown(v, world, g, j, n);
    }
    var w := Rotated(v, world, n);
    assert Known(w, ROTATION[1]).Some? && Known(w, ROTATION[2]).Some? && Known(w, ROTATION[3]).Some?
        && Known(w, ROTATION[4]).Some? && Known(w, ROTATION[5]).Some? && Known(w, ROTATION[6]).Some?
        && Known(w, ROTATION[7]).Some?;
    HaveAllMeansKnown(w);
  }

  /** Once steady, always steady: the loop never returns to its short interval. */
  lemma SteadyForEver(v: Values, world: World, m: nat, n: nat)
    requires Paired(v) && m <= n && HaveAll(Rotated(v, world, m))
    ensures HaveAll(Rotated(v, world, n))
  {
    RotatedKeeps(v, world, m, m, BoltState);
    HaveAllMeansKnown(Rotated(v, world, m));
    forall name | name in GATING ensures Known(Rotated(v, world, n), name).Some? {
      RotatedKeeps(v, world, m, n, name);
    }
    RotatedKeeps(v, world, n, n, BoltState);
    HaveAllMeansKnown(Rotated(v, world, n));
  }

  // ---- the refresh ----

  function Gaps(ticks: seq<Tick>): nat {
    if ticks == [] then 0 else (if ticks[0].Gap? then 1 else 0) + Gaps(ticks[1..])
  }

  /** Reads begun at or after the moment the stop flag went up. */
  function LateReads(ticks: seq<Tick>, at: nat, stop: nat): nat {
    if ticks == [] then 0
    else (if ticks[0].Attempt? && at >= stop then 1 else 0) + LateReads(ticks[1..], at + 1, stop)
  }

  lemma {:induction false} LateReadsAppend(a: seq<Tick>, b: seq<Tick>, at: nat, stop: nat)
    ensures LateReads(a + b, at, stop) == LateReads(a, at, stop) + LateReads(b, at + |a|, stop)
    decreases |a|
  {
    if a == [] {
      assert a + b == b;
    } else {
      LateReadsAppend(a[1..], b, at + 1, stop);
      assert (a + b)[1..] == a[1..] + b;
    }
  }

  lemma {:induction false} GapsAppend(a: seq<Tick>, b: seq<Tick>)
    ensures Gaps(a + b) == Gaps(a) + Gaps(b)
    decreases |a|
  {
    if a == [] {
      assert a + b == b;
    } else {
      GapsAppend(a[1..], b);
      assert (a + b)[1..] == a[1..] + b;
    }
  }

  /** A pass that starts a read after the stop flag went up does nothing after it. */
  lemma {:induction false} PassHeedsStop(names: seq<ReadName>, gap: bool, at: nat, stop: nat)
    ensures var ticks := PassTicks(names, gap, at, stop);
            LateReads(ticks, at, stop) <= 1
            && (LateReads(ticks, at, stop) == 1 ==> at + |ticks| >= stop)
    decreases |names|
  {
    if names != [] && at < stop {
      var head := ReadTicks(names[0], gap);
      var rest := PassTicks(names[1..], true, at + |head|, stop);
      PassHeedsStop(names[1..], true, at + |head|, stop);
      LateReadsAppend(head, rest, at, stop);
      ReadTicksLate(names[0], gap, at, stop);
    }
  }

  lemma ReadTicksLate(n: ReadName, gap: bool, at: nat, stop: nat)
    requires at < stop
    ensures LateReads(ReadTicks(n, gap), at, stop) == (if at + |ReadTicks(n, gap)| > stop then 1 else 0)
  {
    assert LateReads([Attempt(n)], at + 1, stop) == if at + 1 >= stop then 1 else 0;
    assert [Gap, Attempt(n)][1..] == [Attempt(n)];
  }

  /** A pass the stop flag does not cut short attempts every name in order. */
  lemma {:induction false} FullPass(names: seq<ReadName>, gap: bool, at: nat, stop: nat)
    requires at + 2 * |names| <= stop
    ensures var ticks := PassTicks(names, gap, at, stop);
            Attempts(ticks) == names && |ticks| <= 2 * |names|
            && Gaps(ticks) == if names == [] || gap then |names| else |names| - 1
    decreases |names|
  {
    if names != [] {
      var head := ReadTicks(names[0], gap);
      var rest := PassTicks(names[1..], true, at + |head|, stop);
      FullPass(names[1..], true, at + |head|, stop);
      ReadTicksAttempts(names[0], gap);
      AttemptsAppend(head, rest);
      GapsAppend(head, rest);
      ReadTicksGaps(names[0], gap);
    }
  }

  lemma ReadTicksGaps(n: ReadName, gap: bool)
    ensures Gaps(ReadTicks(n, gap)) == if gap then 1 else 0
  {
    assert Gaps([Attempt(n)]) == 0;
    assert [Gap, Attempt(n)][1..] == [Attempt(n)];
  }

  lemma {:induction false} MissingIsUnread(names: seq<ReadName>, v: Values)
    ensures |Missing(names, v)| <= |names|
    ensures forall n :: n in Missing(names, v) <==> n in names && IsUnread(v, n)
    decreases |names|
  {
    if names != [] {
      MissingIsUnread(names[1..], v);
      assert names == [names[0]] + names[1..];
    }
  }

  /** What a pass read it knows afterwards, and it forgets nothing. */
  lemma {:induction false} ReadAllKnows(v: Values, names: seq<ReadName>, world: World, k: nat, n: ReadName)
    requires Paired(v)
    ensures Paired(ReadAll(v, names, world, k))
    ensures Known(v, n).Some? ==> Known(ReadAll(v, names, world, k), n).Some?
    ensures forall i | 0 <= i < |names| && names[i] == n && Delivers(n, world(k + i, n)) ::
              Known(ReadAll(v, names, world, k), n).Some?
    decreases |names|
  {
    if names != [] {
      var v1 := AfterTurn(v, names[0], world(k, names[0]));
      TurnKeeps(v, names[0], world(k, names[0]), n);
      ReadAllKnows(v1, names[1..], world, k + 1, n);
      forall i | 0 <= i < |names| && names[i] == n && Delivers(n, world(k + i, n))
        ensures Known(ReadAll(v, names, world, k), n).Some?
      {
        if i > 0 {
          assert names[1..][i - 1] == n && k + i == (k + 1) + (i - 1);
        }
      }
    }
  }

  /** An unstopped refresh attempts all fifteen names in order, then exactly those still unread, with
      14 + |missing| gaps. */
  lemma RefreshCoversAll(v: Values, world: World, stop: nat)
    requires stop >= 60
    ensures var (once, again, _) := Refreshed(v, world, stop);
            var missing := Missing(REFRESH_ORDER, ReadAll(v, REFRESH_ORDER, world, 0));
            Attempts(once) == REFRESH_ORDER && Attempts(again) == missing
            && Gaps(once + again) == 14 + |missing|
  {
    var (once, again, _) := Refreshed(v, world, stop);
    FullPass(REFRESH_ORDER, false, 0, stop);
    var missing := Missing(REFRESH_ORDER, ReadAll(v, REFRESH_ORDER, world, 0));
    MissingIsUnread(REFRESH_ORDER, ReadAll(v, REFRESH_ORDER, world, 0));
    FullPass(missing, true, |once|, stop);
    GapsAppend(once, again);
  }

  /** A name is left unread by an unstopped refresh only if both of its attempts failed. */
  lemma UnreadMeansTwoFailures(v: Values, world: World, stop: nat, n: ReadName)
    requires Paired(v) && stop >= 60 && n in REFRESH_ORDER
    requires IsUnread(Refreshed(v, world, stop).2, n)
    ensures var missing := Missing(REFRESH_ORDER, ReadAll(v, REFRESH_ORDER, world, 0));
            && n in missing
            && (forall i | 0 <= i < 15 && REFRESH_ORDER[i] == n :: !Delivers(n, world(i, n)))
            && (forall i | 0 <= i < |missing| && missing[i] == n :: !Delivers(n, world(15 + i, n)))
  {
    RefreshCoversAll(v, world, stop);
    var v1 := ReadAll(v, REFRESH_ORDER, world, 0);
    var missing := Missing(REFRESH_ORDER, v1);
    ReadAllKnows(v, REFRESH_ORDER, world, 0, n);
    ReadAllKnows(v1, missing, world, 15, n);
    UnreadIffUnknown(ReadAll(v1, missing, world, 15), n);
    UnreadIffUnknown(v1, n);
    MissingIsUnread(REFRESH_ORDER, v1);
  }

  /** Whenever the stop flag goes up, at most one more read starts in the whole refresh. */
  lemma RefreshHeedsStop(v: Values, world: World, stop: nat)
    ensures var (once, again, _) := Refreshed(v, world, stop);
            LateReads(once + again, 0, stop) <= 1
  {
    var (once, again, _) := Refreshed(v, world, stop);
    var missing := Missing(REFRESH_ORDER, ReadAll(v, Attempts(once), world, 0));
    PassHeedsStop(REFRESH_ORDER, false, 0, stop);
    PassHeedsStop(missing, true, |once|, stop);
    LateReadsAppend(once, again, 0, stop);
  }
}
