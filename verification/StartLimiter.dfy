/** The rolling per-peer start limiter that the bootstrap verifier and the bootstrap runtime share. */
module StartLimiter {
  import opened Common
  import opened Windows

  type Peer = nat

  /** Recent start times of each tracked peer, oldest first. */
  type Starts = map<Peer, seq<nat>>

  const START_WINDOW: nat := 900
  const MAX_PEER_STARTS: nat := 3

  predicate Fresh(started: nat, now: nat) {
    SaturatingSub(now, started) < START_WINDOW
  }

  /** The starts still inside the window, in order. */
  function Retain(history: seq<nat>, now: nat): (kept: seq<nat>)
    ensures |kept| <= |history|
    ensures forall i | 0 <= i < |kept| :: Fresh(kept[i], now)
  {
    if history == [] then []
    else
      var rest := Retain(history[..|history| - 1], now);
      var last := history[|history| - 1];
      if Fresh(last, now) then rest + [last] else rest
  }

  /** Prune every history and forget the peers whose history became empty. */
  function Prune(starts: Starts, now: nat): (pruned: Starts)
    ensures pruned.Keys <= starts.Keys
  {
    map p | p in starts && Retain(starts[p], now) != [] :: Retain(starts[p], now)
  }

  function History(starts: Starts, peer: Peer): seq<nat> {
    if peer in starts then starts[peer] else []
  }

  function Record(starts: Starts, peer: Peer, now: nat): Starts {
    starts[peer := History(starts, peer) + [now]]
  }

  /** The retain loop over one history. */
  method RetainHistory(history: seq<nat>, now: nat) returns (kept: seq<nat>)
    ensures kept == Retain(history, now)
  {
    kept := [];
    for n := 0 to |history|
      invariant kept == Retain(history[..n], now)
    {
      assert history[..n + 1][..n] == history[..n];
      if SaturatingSub(now, history[n]) < START_WINDOW {
        kept := kept + [history[n]];
      }
    }
    assert history[..|history|] == history;
  }

  /** Prunes in place every history, then drops the empty ones. */
  method PruneStarts(starts: Starts, now: nat) returns (pruned: Starts)
    ensures pruned == Prune(starts, now)
  {
    pruned := map[];
    var todo := starts.Keys;
    while todo != {}
      invariant todo <= starts.Keys
      invariant pruned == map p | p in starts && p !in todo && Retain(starts[p], now) != [] :: Retain(starts[p], now)
      decreases |todo|
    {
      var peer :| peer in todo;
      var kept := RetainHistory(starts[peer], now);
      if kept != [] {
        pruned := pruned[peer := kept];
      }
      todo := todo - {peer};
    }
  }

  // ---------------------------------------------------------------- whole histories

  /** One start that passed the limiter. */
  datatype Pass = Pass(peer: Peer, at: nat)

  function TimesOf(log: seq<Pass>, peer: Peer): seq<nat> {
    if log == [] then []
    else
      var rest := TimesOf(log[..|log| - 1], peer);
      if log[|log| - 1].peer == peer then rest + [log[|log| - 1].at] else rest
  }

  /** The kept history is the end of the full one; what was forgotten left the window by `clock`. */
  predicate Follows(kept: seq<nat>, times: seq<nat>, clock: nat) {
    && |kept| <= MAX_PEER_STARTS && |kept| <= |times|
    && kept == times[|times| - |kept|..]
    && Nondecreasing(times) && Spaced(times, MAX_PEER_STARTS, START_WINDOW)
    && (forall i | 0 <= i < |times| :: times[i] <= clock)
    && (forall i | 0 <= i < |times| - |kept| :: times[i] + START_WINDOW <= clock)
  }

  ghost predicate Tracks(starts: Starts, log: seq<Pass>, clock: nat) {
    && (forall p :: Follows(History(starts, p), TimesOf(log, p), clock))
    && (forall p | p in starts :: starts[p] != [])
  }

  lemma SuffixGrows(front: seq<nat>, last: nat, cut: nat)
    requires cut <= |front|
    ensures front[cut..] + [last] == (front + [last])[cut..]
  {
  }

  lemma {:induction false} RetainIsSuffix(history: seq<nat>, now: nat)
    requires Nondecreasing(history)
    ensures var kept := Retain(history, now);
      && kept == history[|history| - |kept|..]
      && forall i | 0 <= i < |history| - |kept| :: !Fresh(history[i], now)
  {
    if history != [] {
      var front, last := history[..|history| - 1], history[|history| - 1];
      assert history == front + [last];
      if Fresh(last, now) {
        RetainIsSuffix(front, now);
        SuffixGrows(front, last, |front| - |Retain(front, now)|);
      } else {
        forall i | 0 <= i < |front| ensures !Fresh(front[i], now) {
          assert history[i] <= last;
        }
        AllStale(front, now);
      }
    }
  }

  lemma {:induction false} AllStale(history: seq<nat>, now: nat)
    requires forall i | 0 <= i < |history| :: !Fresh(history[i], now)
    ensures Retain(history, now) == []
  {
    if history != [] {
      AllStale(history[..|history| - 1], now);
    }
  }

  lemma RetainFollows(kept: seq<nat>, times: seq<nat>, clock: nat, now: nat)
    requires Follows(kept, times, clock) && clock <= now
    ensures Follows(Retain(kept, now), times, now)
  {
    assert forall i | 0 <= i < |kept| :: kept[i] == times[|times| - |kept| + i];
    RetainIsSuffix(kept, now);
    var fresher := Retain(kept, now);
    forall i | 0 <= i < |times| - |fresher| ensures times[i] + START_WINDOW <= now {
      if i >= |times| - |kept| {
        assert !Fresh(kept[i - (|times| - |kept|)], now);
      }
    }
  }

  lemma PruneTracks(starts: Starts, log: seq<Pass>, clock: nat, now: nat)
    requires Tracks(starts, log, clock) && clock <= now
    ensures Tracks(Prune(starts, now), log, now)
  {
    forall p ensures Follows(History(Prune(starts, now), p), TimesOf(log, p), now) {
      RetainFollows(History(starts, p), TimesOf(log, p), clock, now);
    }
  }

  lemma TicksTrack(starts: Starts, log: seq<Pass>, clock: nat, now: nat)
    requires Tracks(starts, log, clock) && clock <= now
    ensures Tracks(starts, log, now)
  {
    forall p ensures Follows(History(starts, p), TimesOf(log, p), now) {
      assert Follows(History(starts, p), TimesOf(log, p), clock);
    }
  }

  lemma TimesOfAppend(log: seq<Pass>, pass: Pass, peer: Peer)
    ensures TimesOf(log + [pass], peer) == if pass.peer == peer then TimesOf(log, peer) + [pass.at] else TimesOf(log, peer)
  {
    assert (log + [pass])[..|log|] == log;
  }

  lemma PassFollows(kept: seq<nat>, times: seq<nat>, now: nat)
    requires Follows(kept, times, now) && |kept| < MAX_PEER_STARTS
    ensures Follows(kept + [now], times + [now], now)
  {
    var longer := times + [now];
    assert (kept + [now]) == longer[|longer| - |kept + [now]|..];
    assert Spaced(longer, MAX_PEER_STARTS, START_WINDOW) by {
      forall i, j | 0 <= i && i + MAX_PEER_STARTS <= j < |longer| ensures longer[i] + START_WINDOW <= longer[j] {
        if j == |times| {
          assert i < |times| - |kept|;
        }
      }
    }
  }

  /** A start may pass when fewer than three are kept after pruning: the full history stays spaced. */
  lemma PassTracks(starts: Starts, log: seq<Pass>, peer: Peer, now: nat)
    requires Tracks(starts, log, now) && |History(starts, peer)| < MAX_PEER_STARTS
    ensures Tracks(Record(starts, peer, now), log + [Pass(peer, now)], now)
  {
    var after, longer := Record(starts, peer, now), log + [Pass(peer, now)];
    forall p ensures Follows(History(after, p), TimesOf(longer, p), now) {
      TimesOfAppend(log, Pass(peer, now), p);
      if p == peer {
        PassFollows(History(starts, p), TimesOf(log, p), now);
      }
    }
  }

  /** Whatever 900-second window is chosen, at most three starts of a peer passed in it. */
  lemma AtMostThreePerWindow(starts: Starts, log: seq<Pass>, clock: nat, peer: Peer, from: nat)
    requires Tracks(starts, log, clock)
    ensures |InWindow(TimesOf(log, peer), from, START_WINDOW)| <= MAX_PEER_STARTS
  {
    assert Follows(History(starts, peer), TimesOf(log, peer), clock);
    SpacedWindow(TimesOf(log, peer), MAX_PEER_STARTS, START_WINDOW, from);
  }
}
