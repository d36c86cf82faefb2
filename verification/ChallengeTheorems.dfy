/** How often one peer can be challenged while the process remembers it. */
module ChallengeTheorems {
  import opened Common
  import opened PairingAuthority
  import opened PairingProofs
  import opened PairingTheorems
  import opened Windows

  const WINDOW: nat := PAIRING_CHALLENGE_WINDOW
  const PER_WINDOW: nat := MAX_PAIRING_CHALLENGES_PER_WINDOW

  /** The peer's record, while a process runs and remembers it. */
  function RecordOf(w: World, p: Peer): Option<PairingRecord> {
    if w.relay.Some? && p in w.relay.value.pairings then Some(w.relay.value.pairings[p]) else None
  }

  predicate Timed(op: Op) {
    op.Reserve? || op.Fail? || op.Pair?
  }

  function Clock(clock: nat, op: Op): nat {
    if Timed(op) then Max(clock, op.now) else clock
  }

  function ClockAfter(clock: nat, ops: seq<Op>): nat
    decreases |ops|
  {
    if ops == [] then clock else ClockAfter(Clock(clock, ops[0]), ops[1..])
  }

  /** One process under a clock that never runs backwards, which never forgets the peer once it knows it. */
  ghost predicate Remembers(w: World, ops: seq<Op>, p: Peer, clock: nat)
    decreases |ops|
  {
    ops == [] ||
    (&& !ops[0].Boot? && !ops[0].Crash?
     && (Timed(ops[0]) ==> clock <= ops[0].now)
     && (RecordOf(w, p).Some? ==> RecordOf(Step(w, ops[0]).0, p).Some?)
     && Remembers(Step(w, ops[0]).0, ops[1..], p, Clock(clock, ops[0])))
  }

  ghost predicate Challenges(w: World, op: Op, p: Peer) {
    op.Reserve? && op.peer == p && Step(w, op).1 == Flag(true)
  }

  /** When the peer was challenged, appended to what was logged before. */
  ghost function Log(w: World, ops: seq<Op>, p: Peer, before: seq<nat>): seq<nat>
    decreases |ops|
  {
    if ops == [] then before
    else Log(Step(w, ops[0]).0, ops[1..], p, if Challenges(w, ops[0], p) then before + [ops[0].now] else before)
  }

  predicate Rising(times: seq<nat>, clock: nat) {
    Nondecreasing(times) && forall i | 0 <= i < |times| :: times[i] <= clock
  }

  /** What a fixed window at `started` with `count` challenges in it says about the log. */
  predicate Accounts(started: nat, count: nat, times: seq<nat>, clock: nat) {
    && Rising(times, clock) && Spaced(times, 2 * PER_WINDOW, WINDOW) && started <= clock
    && count <= PER_WINDOW && count <= |times|
    && (forall i | 0 <= i < |times| - count :: times[i] <= started)
    && (forall i | |times| - count <= i < |times| :: started <= times[i])
    && (forall i | 0 <= i < |times| - count - PER_WINDOW :: times[i] + WINDOW <= started)
  }

  ghost predicate Tracked(w: World, p: Peer, times: seq<nat>, clock: nat) {
    match RecordOf(w, p)
    case None => times == []
    case Some(record) => Accounts(record.windowStarted, record.challengeCount, times, clock)
  }

  lemma LaterAccounts(started: nat, count: nat, times: seq<nat>, clock: nat, now: nat)
    requires Accounts(started, count, times, clock) && clock <= now
    ensures Accounts(started, count, times, now)
  {
  }

  /** A granted challenge inside the window, or one that reopens it, is accounted for. */
  lemma GrantAccounts(record: PairingRecord, times: seq<nat>, now: nat)
    requires Accounts(record.windowStarted, record.challengeCount, times, now)
    ensures var (next, granted) := TakeChallenge(record, now);
      Accounts(next.windowStarted, next.challengeCount, if granted then times + [now] else times, now)
  {
    var (next, granted) := TakeChallenge(record, now);
    if granted {
      var longer := times + [now];
      assert longer[..|times|] == times;
      forall i, j | 0 <= i && i + 2 * PER_WINDOW <= j < |longer| ensures longer[i] + WINDOW <= longer[j] {
        if j == |times| {
          assert i < |times| - PER_WINDOW;
        }
      }
    }
  }

  /** What the operations other than a granted challenge do to the peer's window: nothing, or open it. */
  lemma OthersKeepWindow(w: World, op: Op, p: Peer)
    requires w.relay.Some? && !op.Boot? && !op.Crash? && !(op.Reserve? && op.peer == p)
    ensures var before, after := RecordOf(w, p), RecordOf(Step(w, op).0, p);
      after.Some? ==>
        if before.Some? then after.value.windowStarted == before.value.windowStarted && after.value.challengeCount == before.value.challengeCount
        else Timed(op) && after.value.windowStarted == op.now && after.value.challengeCount == 0
  {
    var r := w.relay.value;
    if op.Fail? {
      ObserveShape(r, op.peer, op.now, op.stamp);
    } else if op.Reserve? {
      ObserveShape(r, op.peer, op.now, op.stamp);
    } else if op.Pair? {
      MarkPairedCases(r, w.authority, op.peer, op.now, op.stamp, op.faults);
    } else if op.Unpair? {
      RevokeCases(r, w.authority, op.peer, op.stamp, op.faults);
    } else if op.Disconnect? {
      DropShape(r, op.lease);
    }
  }

  /** A reservation for the peer observes it and takes a challenge, or leaves its window alone. */
  lemma ReserveTakes(r: Relay, p: Peer, now: nat, stamp: Option<nat>)
    ensures var (after, granted) := ReserveChallenge(r, p, now, stamp);
      var known := Observe(r, p, now, stamp).0;
      if p !in known.pairings then p !in after.pairings && !granted
      else
        p in after.pairings &&
        var record := known.pairings[p];
        if record.paired then after.pairings[p] == record && !granted
        else after.pairings[p] == TakeChallenge(record, now).0 && granted == TakeChallenge(record, now).1
  {
  }

  lemma ReserveTracks(w: World, op: Op, p: Peer, times: seq<nat>, clock: nat)
    requires w.relay.Some? && op.Reserve? && op.peer == p && clock <= op.now && Tracked(w, p, times, clock)
    ensures Tracked(Step(w, op).0, p, if Challenges(w, op, p) then times + [op.now] else times, op.now)
  {
    var r := w.relay.value;
    ReserveTakes(r, p, op.now, op.stamp);
    ObserveShape(r, p, op.now, op.stamp);
    var known := Observe(r, p, op.now, op.stamp).0;
    if p in r.pairings {
      LaterAccounts(r.pairings[p].windowStarted, r.pairings[p].challengeCount, times, clock, op.now);
    }
    if p in known.pairings {
      GrantAccounts(known.pairings[p], times, op.now);
    }
  }

  lemma StepTracks(w: World, op: Op, p: Peer, times: seq<nat>, clock: nat)
    requires w.relay.Some? && !op.Boot? && !op.Crash? && (Timed(op) ==> clock <= op.now)
    requires RecordOf(w, p).Some? ==> RecordOf(Step(w, op).0, p).Some?
    requires Tracked(w, p, times, clock)
    ensures Tracked(Step(w, op).0, p, if Challenges(w, op, p) then times + [op.now] else times, Clock(clock, op))
  {
    if op.Reserve? && op.peer == p {
      ReserveTracks(w, op, p, times, clock);
    } else {
      OthersKeepWindow(w, op, p);
      if RecordOf(w, p).Some? {
        var record := RecordOf(w, p).value;
        LaterAccounts(record.windowStarted, record.challengeCount, times, clock, Clock(clock, op));
      }
    }
  }

  lemma {:induction false} RunTracks(w: World, ops: seq<Op>, p: Peer, times: seq<nat>, clock: nat)
    requires w.relay.Some? && Remembers(w, ops, p, clock) && Tracked(w, p, times, clock)
    ensures Tracked(Run(w, ops), p, Log(w, ops, p, times), ClockAfter(clock, ops))
    decreases |ops|
  {
    if ops != [] {
      StepTracks(w, ops[0], p, times, clock);
      var n := Step(w, ops[0]).0;
      RunTracks(n, ops[1..], p, if Challenges(w, ops[0], p) then times + [ops[0].now] else times, Clock(clock, ops[0]));
    }
  }

  /**
   * The fixed windows bound every sliding one: a peer that is not forgotten in between is challenged at
   * most six times in any 60 seconds, however its challenges, failures and pairings are interleaved.
   */
  lemma ChallengesAreLimited(w: World, ops: seq<Op>, p: Peer, clock: nat, from: nat)
    requires w.relay.Some? && RecordOf(w, p).None? && Remembers(w, ops, p, clock)
    ensures |InWindow(Log(w, ops, p, []), from, WINDOW)| <= 2 * PER_WINDOW
  {
    RunTracks(w, ops, p, [], clock);
    SpacedWindow(Log(w, ops, p, []), 2 * PER_WINDOW, WINDOW, from);
  }

  /** The other way round: a remembered, unpaired peer is refused only after three challenges in the last 60 seconds. */
  lemma RefusedOnlyAfterThree(w: World, ops: seq<Op>, reserve: Op, clock: nat)
    requires reserve.Reserve? && w.relay.Some? && RecordOf(w, reserve.peer).None? && Remembers(w, ops, reserve.peer, clock)
    requires Run(w, ops).relay.Some? && RecordOf(Run(w, ops), reserve.peer).Some? && !RecordOf(Run(w, ops), reserve.peer).value.paired
    requires Step(Run(w, ops), reserve).1 == Flag(false) && ClockAfter(clock, ops) <= reserve.now
    ensures var times := Log(w, ops, reserve.peer, []);
      PER_WINDOW <= |times| && forall i | |times| - PER_WINDOW <= i < |times| :: times[i] <= reserve.now < times[i] + WINDOW
  {
    RunTracks(w, ops, reserve.peer, [], clock);
    ReserveTakes(Run(w, ops).relay.value, reserve.peer, reserve.now, reserve.stamp);
    ObserveShape(Run(w, ops).relay.value, reserve.peer, reserve.now, reserve.stamp);
  }

  /** The bound is reached: three challenges at the end of a window and three at the start of the next. */
  lemma SixInOneWindow(record: PairingRecord, start: nat)
    requires record.windowStarted == start && record.challengeCount == 0
    ensures var last, next := start + WINDOW - 1, start + WINDOW;
      var r3 := TakeChallenge(TakeChallenge(TakeChallenge(record, last).0, last).0, last).0;
      var r6 := TakeChallenge(TakeChallenge(TakeChallenge(r3, next).0, next).0, next);
      && !TakeChallenge(r3, last).1
      && r6.1
      && !TakeChallenge(r6.0, next).1
  {
  }

  // ---------------------------------------------------------------- forgetting

  /** A connected, unpaired and unrevoked peer whose window opened at `start`. */
  predicate Connected(w: World, p: Peer, start: nat, count: nat) {
    && w.relay.Some?
    && var r := w.relay.value;
    && p in r.pairings && !Listed(r.pairings[p]) && r.pairings[p].windowStarted == start && r.pairings[p].challengeCount == count
    && p in r.active && Lease(p, r.active[p]) in r.leases
    && !r.shutdown && |r.leases| <= r.maxConnections && |r.pairings| <= r.MaxPairingRecords()
    && r.nextAttempt < U64_MAX && ConnectionGeneration(r.epoch, r.nextGeneration).Some?
  }

  lemma ChallengeOnce(w: World, p: Peer, start: nat, count: nat, now: nat, stamp: Option<nat>)
    requires Connected(w, p, start, count) && start <= now
    ensures var (n, answer) := Step(w, Reserve(p, now, stamp));
      if now - start >= WINDOW then answer == Flag(true) && Connected(n, p, now, 1)
      else if count < PER_WINDOW then answer == Flag(true) && Connected(n, p, start, count + 1)
      else answer == Flag(false) && Connected(n, p, start, count)
  {
    var r := w.relay.value;
    var next := TakeChallenge(r.pairings[p], now).0;
    assert r.pairings[p := next].Keys == r.pairings.Keys;
  }

  lemma LogGrant(w: World, op: Op, rest: seq<Op>, p: Peer, before: seq<nat>)
    requires Challenges(w, op, p)
    ensures Log(w, [op] + rest, p, before) == Log(Step(w, op).0, rest, p, before + [op.now])
  {
    assert ([op] + rest)[1..] == rest;
  }

  lemma ThreeChallenges(w: World, p: Peer, start: nat, count: nat, now: nat, stamp: Option<nat>, rest: seq<Op>, before: seq<nat>)
    requires Connected(w, p, start, count) && start <= now
    requires now - start >= WINDOW || count == 0
    ensures var op := Reserve(p, now, stamp);
      var n := Step(Step(Step(w, op).0, op).0, op).0;
      && Connected(n, p, if now - start >= WINDOW then now else start, PER_WINDOW)
      && Log(w, [op, op, op] + rest, p, before) == Log(n, rest, p, before + [now, now, now])
  {
    var op, opening := Reserve(p, now, stamp), if now - start >= WINDOW then now else start;
    ChallengeOnce(w, p, start, count, now, stamp);
    var w1 := Step(w, op).0;
    ChallengeOnce(w1, p, opening, 1, now, stamp);
    var w2 := Step(w1, op).0;
    ChallengeOnce(w2, p, opening, 2, now, stamp);
    assert [op, op, op] + rest == [op] + ([op] + ([op] + rest));
    LogGrant(w, op, [op] + ([op] + rest), p, before);
    LogGrant(w1, op, [op] + rest, p, before + [now]);
    LogGrant(w2, op, rest, p, before + [now] + [now]);
    assert before + [now] + [now] + [now] == before + [now, now, now];
  }

  /** Dropping the lease forgets the unlisted peer, window included; it may connect and start a new one at once. */
  lemma ReconnectForgets(w: World, p: Peer, start: nat, count: nat, now: nat, stamp: nat)
    requires Connected(w, p, start, count)
    ensures var dropped := Step(w, Disconnect(Lease(p, w.relay.value.active[p])));
      var connected := Step(dropped.0, Connect(p));
      var again := Step(connected.0, Reserve(p, now, Some(stamp)));
      && RecordOf(dropped.0, p).None?
      && connected.1.Admitted? && connected.1.lease.Some?
      && again.1 == Flag(true)
  {
    var r := w.relay.value;
    var lease := Lease(p, r.active[p]);
    assert |r.leases - {lease}| == |r.leases| - 1;
    assert (r.pairings - {p}).Keys == r.pairings.Keys - {p};
    assert |(r.pairings - {p}).Keys| == |r.pairings.Keys| - 1;
  }

  /** Six challenges across the border of two windows, logged; the lease is the one the peer had. */
  lemma SixChallenges(w: World, p: Peer, start: nat, stamp: nat, rest: seq<Op>)
    requires Connected(w, p, start, 0)
    ensures var last, next := start + WINDOW - 1, start + WINDOW;
      var early, late := Reserve(p, last, Some(stamp)), Reserve(p, next, Some(stamp));
      var w3 := Step(Step(Step(w, early).0, early).0, early).0;
      var w6 := Step(Step(Step(w3, late).0, late).0, late).0;
      && Connected(w6, p, next, PER_WINDOW) && w6.relay.value.active == w.relay.value.active
      && Log(w, [early, early, early] + ([late, late, late] + rest), p, []) == Log(w6, rest, p, [last, last, last, next, next, next])
  {
    var last, next := start + WINDOW - 1, start + WINDOW;
    var early, late := Reserve(p, last, Some(stamp)), Reserve(p, next, Some(stamp));
    var w3 := Step(Step(Step(w, early).0, early).0, early).0;
    ThreeChallenges(w, p, start, 0, last, Some(stamp), [late, late, late] + rest, []);
    ThreeChallenges(w3, p, start, PER_WINDOW, next, Some(stamp), rest, [last, last, last]);
    assert [] + [last, last, last] == [last, last, last];
    assert [last, last, last] + [next, next, next] == [last, last, last, next, next, next];
    SameLease(w, p, early);
    SameLease(w3, p, late);
  }

  lemma SeventhAfterDrop(w: World, p: Peer, start: nat, stamp: nat)
    requires Connected(w, p, start, 0)
    ensures var last, next := start + WINDOW - 1, start + WINDOW;
      var early, late := Reserve(p, last, Some(stamp)), Reserve(p, next, Some(stamp));
      var end := [Disconnect(Lease(p, w.relay.value.active[p])), Connect(p), late];
      Log(w, [early, early, early] + ([late, late, late] + end), p, []) == [last, last, last, next, next, next, next]
  {
    var last, next := start + WINDOW - 1, start + WINDOW;
    var early, late := Reserve(p, last, Some(stamp)), Reserve(p, next, Some(stamp));
    var end := [Disconnect(Lease(p, w.relay.value.active[p])), Connect(p), late];
    SixChallenges(w, p, start, stamp, end);
    var w3 := Step(Step(Step(w, early).0, early).0, early).0;
    var w6 := Step(Step(Step(w3, late).0, late).0, late).0;
    ReconnectForgets(w6, p, next, PER_WINDOW, next, stamp);
    LogOfReconnect(w6, p, end[0], late, [last, last, last, next, next, next]);
    assert [last, last, last, next, next, next] + [next] == [last, last, last, next, next, next, next];
  }

  /** A process is started, the peer connects, and a failed attempt of its opens the window. */
  function Opening(identity: nat, maxConnections: nat, p: Peer, start: nat, stamp: nat): seq<Op> {
    [PlainBoot(identity, maxConnections, start), Connect(p), Fail(p, start, Some(stamp))]
  }

  /** The peer after its connection and failed attempt. */
  function Opened(identity: nat, maxConnections: nat, p: Peer, start: nat, stamp: nat): Relay {
    var r := Started(identity, maxConnections).relay.value;
    r.(active := map[p := TWO_POW_32 + 1], leases := {Lease(p, TWO_POW_32 + 1)}, nextGeneration := 2, nextAttempt := 2,
       pairings := map[p := NewRecord(r, start, stamp).(failedAttempts := 1)])
  }

  lemma OpenedIsConnected(w: World, identity: nat, maxConnections: nat, p: Peer, start: nat, stamp: nat)
    requires maxConnections > 0 && w.relay == Some(Opened(identity, maxConnections, p, start, stamp))
    ensures Connected(w, p, start, 0)
  {
  }

  lemma FailureObserves(r: Relay, p: Peer, start: nat, stamp: nat)
    requires r.pairings == map[] && r.maxConnections > 0 && r.nextAttempt == 1
    ensures RecordFailure(r, p, start, Some(stamp)).0
         == r.(nextAttempt := 2, pairings := map[p := NewRecord(r, start, stamp).(failedAttempts := 1)])
  {
  }

  lemma OpeningConnects(identity: nat, maxConnections: nat, p: Peer, start: nat, stamp: nat, rest: seq<Op>)
    requires identity != 0 && maxConnections > 0
    ensures var ops := Opening(identity, maxConnections, p, start, stamp);
      var w := Step(Step(Step(EMPTY_WORLD, ops[0]).0, ops[1]).0, ops[2]).0;
      && w.relay == Some(Opened(identity, maxConnections, p, start, stamp))
      && Log(EMPTY_WORLD, ops + rest, p, []) == Log(w, rest, p, [])
  {
    var ops := Opening(identity, maxConnections, p, start, stamp);
    FirstBoot(identity, maxConnections, start);
    FirstConnection(identity, maxConnections, p);
    var booted := Started(identity, maxConnections);
    var connected := Step(booted, ops[1]).0;
    FailureObserves(connected.relay.value, p, start, stamp);
    LogSkips(EMPTY_WORLD, ops[0], [ops[1]] + ([ops[2]] + rest), p);
    LogSkips(booted, ops[1], [ops[2]] + rest, p);
    LogSkips(connected, ops[2], rest, p);
    assert ops + rest == [ops[0]] + ([ops[1]] + ([ops[2]] + rest));
  }

  lemma LogSkips(w: World, op: Op, rest: seq<Op>, p: Peer)
    requires !op.Reserve?
    ensures Log(w, [op] + rest, p, []) == Log(Step(w, op).0, rest, p, [])
  {
    assert ([op] + rest)[1..] == rest;
  }

  /**
   * Why the bound needs the peer to be remembered: in a run from nothing, six challenges across the
   * border of two windows, a lease drop and a reconnection, and a seventh is granted within the same 60
   * seconds.
   */
  lemma DropRestartsTheWindow(identity: nat, maxConnections: nat, p: Peer, start: nat, stamp: nat)
    requires identity != 0 && maxConnections > 0
    ensures var last, next := start + WINDOW - 1, start + WINDOW;
      var early, late := Reserve(p, last, Some(stamp)), Reserve(p, next, Some(stamp));
      var end := [Disconnect(Lease(p, TWO_POW_32 + 1)), Connect(p), late];
      Log(EMPTY_WORLD, Opening(identity, maxConnections, p, start, stamp) + ([early, early, early] + ([late, late, late] + end)), p, [])
      == [last, last, last, next, next, next, next]
  {
    var early, late := Reserve(p, start + WINDOW - 1, Some(stamp)), Reserve(p, start + WINDOW, Some(stamp));
    var end := [Disconnect(Lease(p, TWO_POW_32 + 1)), Connect(p), late];
    var ops := Opening(identity, maxConnections, p, start, stamp);
    OpeningConnects(identity, maxConnections, p, start, stamp, [early, early, early] + ([late, late, late] + end));
    var w := Step(Step(Step(EMPTY_WORLD, ops[0]).0, ops[1]).0, ops[2]).0;
    OpenedIsConnected(w, identity, maxConnections, p, start, stamp);
    SeventhAfterDrop(w, p, start, stamp);
  }

  lemma SameLease(w: World, p: Peer, op: Op)
    requires w.relay.Some? && op.Reserve?
    ensures var n := Step(Step(Step(w, op).0, op).0, op).0;
      n.relay.Some? && n.relay.value.active == w.relay.value.active
  {
    ReserveLeavesActive(w, op);
    ReserveLeavesActive(Step(w, op).0, op);
    ReserveLeavesActive(Step(Step(w, op).0, op).0, op);
  }

  lemma ReserveLeavesActive(w: World, op: Op)
    requires w.relay.Some? && op.Reserve?
    ensures Step(w, op).0.relay.Some? && Step(w, op).0.relay.value.active == w.relay.value.active
  {
    ObserveShape(w.relay.value, op.peer, op.now, op.stamp);
  }

  lemma LogOfReconnect(w: World, p: Peer, drop: Op, late: Op, before: seq<nat>)
    requires drop.Disconnect? && late.Reserve? && late.peer == p
    requires Step(Step(Step(w, drop).0, Connect(p)).0, late).1 == Flag(true)
    ensures Log(w, [drop, Connect(p), late], p, before) == before + [late.now]
  {
    var ops := [drop, Connect(p), late];
    assert ops[1..] == [Connect(p), late] && ops[1..][1..] == [late] && ops[1..][1..][1..] == [];
    var connected := Step(Step(w, drop).0, Connect(p)).0;
    assert Log(connected, [late], p, before) == Log(Step(connected, late).0, [], p, before + [late.now]);
  }
}
