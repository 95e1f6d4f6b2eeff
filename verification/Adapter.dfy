/** The client adapter: one BLE session for each attempt, always hung up, and no blind retries of actuations. */
module Adapter {
  import opened Types
  import opened Ltmk

  /** An exception raised by the Bluetooth or protocol library. */
  datatype Fault = Fault(invalidAuth: bool, loginPhase: bool, connection: bool)

  /** How an awaited library call ends; None is a library call that brought no answer. */
  datatype Wake<T> = Fine(value: Option<T>) | Boom(fault: Fault) | CancelHere

  /** How an adapter call ends. */
  datatype Ended<T> = Returned(value: Option<T>) | Raised(error: Error) | WasCancelled

  /** How one session goes up to its release: its end, and how far it had come. */
  datatype Course<T> = Course(end: Wake<T>, connected: bool, started: bool)

  /** What a session does that an observer of the radio can see. */
  datatype Act = Connect | Run | Disconnect | Rest

  function Rejected(f: Fault): bool {
    f.invalidAuth || f.loginPhase
  }

  /** The error a failed actuation, enrol or language change is reported as. */
  function Classify(f: Fault, started: bool): Error {
    if Rejected(f) then AuthenticationError
    else if !started && f.connection then BluetoothUnavailableError
    else OperationError
  }

  /** The acts of one session: nothing, or a connection hung up exactly once, after at most one run. */
  predicate OneSession(acts: seq<Act>) {
    acts == [] || acts == [Connect, Disconnect] || acts == [Connect, Run, Disconnect]
  }

  /** What a session that takes this course is seen to do: whatever was connected is hung up. */
  function Seen<T>(course: Course<T>): (acts: seq<Act>)
    requires course.started ==> course.connected
    ensures OneSession(acts) && (Disconnect in acts <==> course.connected)
  {
    if course.started then [Connect, Run, Disconnect]
    else if course.connected then [Connect, Disconnect]
    else []
  }

  /** The length of the session or rest at the front of a history (0 when there is none). */
  function Head(acts: seq<Act>): nat
    ensures Head(acts) <= |acts|
  {
    if acts == [] then 0
    else if acts[0].Rest? then 1
    else if acts[0].Connect? && |acts| >= 2 && acts[1].Disconnect? then 2
    else if acts[0].Connect? && |acts| >= 3 && acts[1].Run? && acts[2].Disconnect? then 3
    else 0
  }

  /** Sessions one after another, with rests between them. */
  predicate Sessions(acts: seq<Act>) {
    acts == [] || (Head(acts) > 0 && Sessions(acts[Head(acts)..]))
  }

  /** The rest taken before another attempt when n were made. */
  function GapAfter(n: nat): seq<Act> {
    if 0 < n < BLE_READ_ATTEMPTS then [Rest] else []
  }

  function Count(acts: seq<Act>, a: Act): nat {
    if acts == [] then 0 else (if acts[0] == a then 1 else 0) + Count(acts[1..], a)
  }

  lemma {:induction false} CountAppend(a: seq<Act>, b: seq<Act>, x: Act)
    ensures Count(a + b, x) == Count(a, x) + Count(b, x)
    decreases |a|
  {
    if a == [] {
      assert a + b == b;
    } else {
      CountAppend(a[1..], b, x);
      assert (a + b)[1..] == a[1..] + b;
    }
  }

  lemma {:induction false} SessionsAppend(a: seq<Act>, b: seq<Act>)
    requires Sessions(a) && Sessions(b)
    ensures Sessions(a + b)
    decreases |a|
  {
    if a == [] {
      assert a + b == b;
    } else {
      var n := Head(a);
      SessionsAppend(a[n..], b);
      assert (a + b)[n..] == a[n..] + b;
    }
  }

  /** Every connection is hung up exactly once, and no session runs more than one library call. */
  lemma {:induction false} SessionsConserve(acts: seq<Act>)
    requires Sessions(acts)
    ensures Count(acts, Connect) == Count(acts, Disconnect) && Count(acts, Run) <= Count(acts, Connect)
    decreases |acts|
  {
    if acts != [] {
      var n := Head(acts);
      SessionsConserve(acts[n..]);
      assert acts == acts[..n] + acts[n..];
      CountAppend(acts[..n], acts[n..], Connect);
      CountAppend(acts[..n], acts[n..], Disconnect);
      CountAppend(acts[..n], acts[n..], Run);
      HeadCounts(acts[..n]);
    }
  }

  lemma HeadCounts(head: seq<Act>)
    requires head != [] && Head(head) == |head|
    ensures Count(head, Connect) == Count(head, Disconnect) && Count(head, Run) <= Count(head, Connect) <= 1
    ensures head[0].Rest? ==> Count(head, Connect) == 0
  {
    forall x ensures Count(head, x) == if |head| == 1 then Count([Rest], x)
                                       else if |head| == 2 then Count([Connect], x) + Count([Disconnect], x)
                                       else Count([Connect], x) + Count([Run], x) + Count([Disconnect], x)
    {
      if |head| == 1 {
        assert head == [Rest];
      } else if |head| == 2 {
        assert head == [Connect] + [Disconnect];
        CountAppend([Connect], [Disconnect], x);
      } else {
        assert head == [Connect] + ([Run] + [Disconnect]);
        CountAppend([Connect], [Run] + [Disconnect], x);
        CountAppend([Run], [Disconnect], x);
      }
    }
  }

  /** The cloud account an adapter may log in with. */
  datatype Account = Account(account: string, password: string, region: string)

  lemma OneIsSessions(acts: seq<Act>)
    requires OneSession(acts) || acts == [Rest]
    ensures Sessions(acts) && Count(acts, Connect) <= if acts == [Rest] then 0 else 1
  {
    if acts != [] {
      assert Head(acts) == |acts| && acts[|acts|..] == [];
      HeadCounts(acts);
    }
  }

  class BleClientAdapter<T> {
    const auth: Option<Account>
    var ltmk: Option<Key>
    const world: nat -> Wake<T>             // how the awaited call at each moment ends
    const path: nat -> bool              // whether a connectable path is known at each moment
    const setup: nat -> Option<Fault>    // whether building the protocol client raises at each moment
    var now: nat
    var acts: seq<Act>

    /** The caller supplies a cloud account, a session master key, or both. */
    constructor (auth: Option<Account>, ltmk: Option<Key>,
                 world: nat -> Wake<T>, path: nat -> bool, setup: nat -> Option<Fault>)
      requires auth.Some? || ltmk.Some?
      ensures this.auth == auth && this.ltmk == ltmk
      ensures this.world == world && this.path == path && this.setup == setup && now == 0 && acts == []
    {
      this.auth, this.ltmk := auth, ltmk;
      this.world, this.path, this.setup := world, path, setup;
      now, acts := 0, [];
    }

    /** Switch to local sessions with a key fetched once from the cloud (None: the fetch failed). A key
        that is already held is never replaced or lost. */
    method EnableOffline(fetched: Option<Key>) returns (offline: bool)
      modifies this`ltmk
      ensures offline <==> ltmk.Some?
      ensures old(ltmk).Some? ==> ltmk == old(ltmk)
      ensures old(ltmk).None? ==> ltmk == if auth.Some? then fetched else None
    {
      if ltmk.Some? {
        return true;
      }
      if auth.None? || fetched.None? {
        return false;
      }
      ltmk := fetched;
      offline := true;
    }

    /** The acts since an earlier moment. */
    function Since(before: seq<Act>): (since: seq<Act>)
      requires before <= acts
      reads this
    {
      acts[|before|..]
    }

    method Await() returns (wake: Wake<T>)
      modifies this`now
      ensures wake == world(old(now)) && now == old(now) + 1
    {
      wake := world(now);
      now := now + 1;
    }

    /** The session dialled at moment t: dialling fails, or the protocol client cannot be built, or the
        library call is made and ends in its own way. */
    function CourseAt(t: nat): (course: Course<T>)
      ensures course.started ==> course.connected
      ensures course.end.Fine? ==> course.started
    {
      if !world(t).Fine? then Course(world(t), false, false)
      else if setup(t + 1).Some? then Course(Boom(setup(t + 1).value), true, false)
      else Course(world(t + 1), true, true)
    }

    /** The moment a connected session dialled at moment t is released. */
    function Release(t: nat): nat {
      if CourseAt(t).started then t + 2 else t + 1
    }

    /** One confirmed actuation: connect, run once, read the reported position, release. An enrol and a
        language change go the same way. A cancellation during the release is not swallowed. */
    method Operate() returns (r: Ended<T>)
      modifies this`now, this`acts
      ensures old(acts) <= acts && OneSession(Since(old(acts)))
      ensures !path(old(now)) ==> r == Raised(BluetoothUnavailableError) && acts == old(acts)
      ensures path(old(now)) ==> Since(old(acts)) == Seen(CourseAt(old(now)))
      ensures path(old(now)) && CourseAt(old(now)).connected && world(Release(old(now))).CancelHere? ==>
                r == WasCancelled
      ensures path(old(now)) && !(CourseAt(old(now)).connected && world(Release(old(now))).CancelHere?) ==>
                var course := CourseAt(old(now));
                && (course.end.Fine? ==> r == Returned(course.end.value))
                && (course.end.Boom? ==> r == Raised(Classify(course.end.fault, course.started)))
                && (course.end.CancelHere? ==> r == WasCancelled)
    {
      if !path(now) {
        return Raised(BluetoothUnavailableError);
      }
      var dial := Await();
      if dial.Boom? {
        return Raised(Classify(dial.fault, false));
      } else if dial.CancelHere? {
        return WasCancelled;
      }
      acts := acts + [Connect];
      var fault := setup(now);
      if fault.Some? {
        r := Raised(Classify(fault.value, false));
      } else {
        acts := acts + [Run];
        var ran := Await();
        match ran
        case Fine(value) => r := Returned(value);
        case Boom(f) => r := Raised(Classify(f, true));
        case CancelHere => r := WasCancelled;
      }
      acts := acts + [Disconnect];
      var hung := Await();
      if hung.CancelHere? {
        r := WasCancelled;
      }
    }

    /** One real-time listen. Unlike an actuation it ends in an operation error however the connection
        fails, and a cancellation that arrives during the release is swallowed. */
    method ListenRealtime() returns (r: Ended<T>)
      modifies this`now, this`acts
      ensures old(acts) <= acts && OneSession(Since(old(acts)))
      ensures !path(old(now)) ==> r == Raised(BluetoothUnavailableError) && acts == old(acts)
      ensures path(old(now)) ==>
                var course := CourseAt(old(now));
                && Since(old(acts)) == Seen(course)
                && (course.end.Fine? ==> r == Returned(None))
                && (course.end.Boom? ==> r == Raised(Classify(course.end.fault, true)))
                && (course.end.CancelHere? <==> r == WasCancelled)
    {
      if !path(now) {
        return Raised(BluetoothUnavailableError);
      }
      var dial := Await();
      if dial.Boom? {
        return Raised(if Rejected(dial.fault) then AuthenticationError else OperationError);
      } else if dial.CancelHere? {
        return WasCancelled;
      }
      acts := acts + [Connect];
      var fault := setup(now);
      if fault.Some? {
        r := Raised(if Rejected(fault.value) then AuthenticationError else OperationError);
      } else {
        acts := acts + [Run];
        var streamed := Await();
        match streamed
        case Fine(_) => r := Returned(None);
        case Boom(f) => r := Raised(if Rejected(f) then AuthenticationError else OperationError);
        case CancelHere => r := WasCancelled;
      }
      acts := acts + [Disconnect];
      var _ := Await();
    }

    /** How a read begun at moment t ends, what it is seen to do, and when it is over. */
    function ReadEnd(t: nat): Ended<T> {
      if !path(t) then Returned(None)
      else match CourseAt(t).end
        case Fine(value) => Returned(value)
        case Boom(fault) => if Rejected(fault) then Raised(AuthenticationError) else Returned(None)
        case CancelHere => WasCancelled
    }

    function ReadActs(t: nat): (seen: seq<Act>)
      ensures OneSession(seen)
    {
      if path(t) then Seen(CourseAt(t)) else []
    }

    function ReadOver(t: nat): nat {
      if !path(t) then t else if CourseAt(t).connected then Release(t) + 1 else t + 1
    }

    /** The moment attempt number i of a retried read begins; a gap takes one moment. */
    function Begins(t: nat, i: nat): nat {
      if i == 0 then t else ReadOver(Begins(t, i - 1)) + 1
    }

    /** What n attempts are seen to do, with a rest between every two of them. */
    function RetryActs(t: nat, n: nat): seq<Act> {
      if n == 0 then [] else RetryActs(t, n - 1) + GapAfter(n - 1) + ReadActs(Begins(t, n - 1))
    }

    /** One session around a reader: None when it cannot connect or the reader fails, an error only for
        rejected credentials. Nothing that happens during the release changes the result. */
    method OneRead() returns (r: Ended<T>)
      modifies this`now, this`acts
      ensures r == ReadEnd(old(now)) && acts == old(acts) + ReadActs(old(now)) && now == ReadOver(old(now))
      ensures r.Raised? ==> r.error == AuthenticationError
      ensures r.Returned? && r.value.Some? ==> Since(old(acts)) == [Connect, Run, Disconnect]
    {
      if !path(now) {
        return Returned(None);
      }
      var dial := Await();
      if dial.Boom? {
        return if Rejected(dial.fault) then Raised(AuthenticationError) else Returned(None);
      } else if dial.CancelHere? {
        return WasCancelled;
      }
      acts := acts + [Connect];
      var fault := setup(now);
      if fault.Some? {
        r := if Rejected(fault.value) then Raised(AuthenticationError) else Returned(None);
      } else {
        acts := acts + [Run];
        var ran := Await();
        match ran
        case Fine(value) => r := Returned(value);
        case Boom(f) => r := if Rejected(f) then Raised(AuthenticationError) else Returned(None);
        case CancelHere => r := WasCancelled;
      }
      acts := acts + [Disconnect];
      var _ := Await();
    }

    /** The reconnect gap between two attempts; it may be cancelled. */
    method Nap() returns (woken: bool)
      modifies this`now, this`acts
      ensures now == old(now) + 1 && acts == old(acts) + [Rest] && (woken <==> !world(old(now)).CancelHere?)
    {
      acts := acts + [Rest];
      var nap := Await();
      woken := !nap.CancelHere?;
    }

    /** Attempt i of a read begun at moment t ends without an error and brings nothing useful. */
    predicate Fruitless(t: nat, i: nat, useful: Option<T> -> bool) {
      var end := ReadEnd(Begins(t, i));
      end.Returned? && !useful(end.value)
    }

    predicate AllFruitless(t: nat, n: nat, useful: Option<T> -> bool) {
      n == 0 || (AllFruitless(t, n - 1, useful) && Fruitless(t, n - 1, useful))
    }

    /** One read, retried while it brings nothing useful; also returns the number of attempts. Only an
        attempt's own end is returned, unless the gap after it is cancelled. */
    method ReadRetry(useful: Option<T> -> bool) returns (r: Ended<T>, n: nat)
      modifies this`now, this`acts
      ensures 1 <= n <= BLE_READ_ATTEMPTS && AllFruitless(old(now), n - 1, useful)
      ensures n < BLE_READ_ATTEMPTS && Fruitless(old(now), n - 1, useful) ==>
                r == WasCancelled && acts == old(acts) + RetryActs(old(now), n) + [Rest]
      ensures n == BLE_READ_ATTEMPTS || !Fruitless(old(now), n - 1, useful) ==>
                r == ReadEnd(Begins(old(now), n - 1)) && acts == old(acts) + RetryActs(old(now), n)
    {
      ghost var t := now;
      n, r := 0, Returned(None);
      for attempt := 0 to BLE_READ_ATTEMPTS
        invariant n == attempt && AllFruitless(t, n, useful)
        invariant n < BLE_READ_ATTEMPTS ==> now == Begins(t, n)
        invariant n > 0 ==> r == ReadEnd(Begins(t, n - 1))
        invariant acts == old(acts) + RetryActs(t, n) + GapAfter(n)
      {
        r := OneRead();
        RetryActsStep(old(acts), t, n);
        n := attempt + 1;
        if !r.Returned? || useful(r.value) {
          return;
        }
        if attempt < BLE_READ_ATTEMPTS - 1 {
          var woken := Nap();
          if !woken {
            r := WasCancelled;
            return;
          }
        }
      }
    }

    lemma RetryActsStep(base: seq<Act>, t: nat, n: nat)
      ensures base + RetryActs(t, n) + GapAfter(n) + ReadActs(Begins(t, n)) == base + RetryActs(t, n + 1)
    {
    }

    /** A retried read opens at most one session an attempt, and hangs every one of them up. */
    lemma {:induction false} RetryConserves(t: nat, n: nat)
      ensures Sessions(RetryActs(t, n))
      ensures Count(RetryActs(t, n), Disconnect) == Count(RetryActs(t, n), Connect) <= n
      decreases n
    {
      if n > 0 {
        RetryConserves(t, n - 1);
        var before, gap, read := RetryActs(t, n - 1), GapAfter(n - 1), ReadActs(Begins(t, n - 1));
        OneIsSessions(gap);
        OneIsSessions(read);
        SessionsAppend(before, gap);
        SessionsAppend(before + gap, read);
        CountAppend(before, gap, Connect);
        CountAppend(before + gap, read, Connect);
      }
      SessionsConserve(RetryActs(t, n));
    }

    /** A settings write: a single attempt whose reply must not be empty. */
    method SendWrite() returns (r: Ended<T>)
      modifies this`now, this`acts
      ensures old(acts) <= acts && OneSession(Since(old(acts)))
      ensures r.Returned? ==> r.value.Some? && Since(old(acts)) == [Connect, Run, Disconnect]
      ensures r.Raised? ==> r.error == AuthenticationError || r.error == OperationError
      ensures !path(old(now)) ==> r == Raised(OperationError)
      ensures path(old(now)) ==>
                var course := CourseAt(old(now));
                && (course.end.CancelHere? <==> r == WasCancelled)
                && (course.end.Fine? && course.end.value.Some? <==> r.Returned?)
                && (course.end.Boom? && Rejected(course.end.fault) <==> r == Raised(AuthenticationError))
    {
      r := OneRead();
      if r == Returned(None) {
        r := Raised(OperationError);
      }
    }
  }

  /** What a credential read hands on: an empty table counts as no answer. */
  function HandedOn(rows: Option<seq<string>>): Option<seq<string>> {
    if rows == Some([]) then None else rows
  }

  predicate HasRows(rows: Option<seq<string>>) {
    rows.Some? && rows.value != []
  }

  /** Reads the credential table: an attempt that brings no row is retried, and a table without rows is
      never handed on. Also returns the number of attempts. */
  method ReadUserTable(client: BleClientAdapter<seq<string>>) returns (r: Ended<seq<string>>, n: nat)
    modifies client`now, client`acts
    ensures r.Returned? && r.value.Some? ==> r.value.value != []
    ensures 1 <= n <= BLE_READ_ATTEMPTS && client.AllFruitless(old(client.now), n - 1, HasRows)
    ensures var last := client.ReadEnd(client.Begins(old(client.now), n - 1));
            if n < BLE_READ_ATTEMPTS && client.Fruitless(old(client.now), n - 1, HasRows) then r == WasCancelled
            else if last.Returned? then r == Returned(HandedOn(last.value))
            else r == last
  {
    r, n := client.ReadRetry(HasRows);
    if r == Returned(Some([])) {
      r := Returned(None);
    }
  }
}
