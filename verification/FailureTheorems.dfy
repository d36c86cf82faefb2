/** The budget of failed pairing attempts: what every failure is answered, counted from calls and answers. */
module FailureTheorems {
  import opened Common
  import opened PairingAuthority
  import opened PairingProofs
  import opened PairingTheorems
  import opened ChallengeTheorems

  /** Whether this call starts a new budget: a granted challenge, or a first reported pairing or revocation. */
  ghost predicate Renews(w: World, op: Op, p: Peer) {
    match op
    case Reserve(peer, _, _) => peer == p && Step(w, op).1 == Flag(true)
    case Pair(peer, _, _, _) => peer == p && Step(w, op).1 == Outcome(Ok(true)) && !PairedInMemory(w, p)
    case Unpair(peer, _, _) =>
      && peer == p && !Failed(Step(w, op).1)
      && RecordOf(w, p).Some? && !RecordOf(w, p).value.revoked
    case _ => false
  }

  /**
   * The failures of the peer since its budget began: with its record, a granted challenge, or a pairing or
   * revocation that changed something. Without a record there are none.
   */
  ghost function Tally(w: World, op: Op, p: Peer, failures: nat): nat {
    if RecordOf(Step(w, op).0, p).None? || (w.relay.None? && op.Boot?) || Renews(w, op, p) then 0
    else if op.Fail? && op.peer == p then failures + 1
    else failures
  }

  ghost function Failures(w: World, ops: seq<Op>, p: Peer, failures: nat): nat
    decreases |ops|
  {
    if ops == [] then failures else Failures(Step(w, ops[0]).0, ops[1..], p, Tally(w, ops[0], p, failures))
  }

  ghost predicate Counts(w: World, p: Peer, failures: nat) {
    match RecordOf(w, p)
    case None => failures == 0
    case Some(record) => record.failedAttempts == if failures < MAX_PAIRING_ATTEMPTS then failures else MAX_PAIRING_ATTEMPTS
  }

  lemma {:induction false} RestoredWithoutFailures(relations: seq<Relation>, now: nat)
    ensures forall p | p in PairingsOf(relations, now) :: PairingsOf(relations, now)[p].failedAttempts == 0
  {
    if relations != [] {
      RestoredWithoutFailures(relations[..|relations| - 1], now);
    }
  }

  lemma BootCounts(w: World, op: Op, p: Peer)
    requires w.relay.None? && op.Boot?
    ensures Counts(Step(w, op).0, p, 0)
  {
    if w.authority.record.Some? {
      RestoredWithoutFailures(w.authority.record.value.payload, op.bootNow);
    }
  }

  lemma FailCounts(w: World, op: Op, p: Peer, failures: nat)
    requires w.relay.Some? && op.Fail? && Counts(w, p, failures)
    ensures Counts(Step(w, op).0, p, Tally(w, op, p, failures))
  {
    ObserveShape(w.relay.value, op.peer, op.now, op.stamp);
  }

  lemma ReserveCounts(w: World, op: Op, p: Peer, failures: nat)
    requires w.relay.Some? && op.Reserve? && Counts(w, p, failures)
    ensures Counts(Step(w, op).0, p, Tally(w, op, p, failures))
  {
    ObserveShape(w.relay.value, op.peer, op.now, op.stamp);
    ReserveTakes(w.relay.value, op.peer, op.now, op.stamp);
  }

  lemma PairCounts(w: World, op: Op, p: Peer, failures: nat)
    requires w.relay.Some? && op.Pair? && Counts(w, p, failures)
    ensures Counts(Step(w, op).0, p, Tally(w, op, p, failures))
  {
    MarkPairedCases(w.relay.value, w.authority, op.peer, op.now, op.stamp, op.faults);
  }

  lemma UnpairCounts(w: World, op: Op, p: Peer, failures: nat)
    requires w.relay.Some? && op.Unpair? && Counts(w, p, failures)
    ensures Counts(Step(w, op).0, p, Tally(w, op, p, failures))
  {
    RevokeCases(w.relay.value, w.authority, op.peer, op.stamp, op.faults);
  }

  lemma StepCounts(w: World, op: Op, p: Peer, failures: nat)
    requires Counts(w, p, failures)
    ensures Counts(Step(w, op).0, p, Tally(w, op, p, failures))
  {
    if w.relay.None? {
      if op.Boot? { BootCounts(w, op, p); }
    } else {
      match op
      case Fail(_, _, _) => FailCounts(w, op, p, failures);
      case Reserve(_, _, _) => ReserveCounts(w, op, p, failures);
      case Pair(_, _, _, _) => PairCounts(w, op, p, failures);
      case Unpair(_, _, _) => UnpairCounts(w, op, p, failures);
      case Disconnect(lease) => DropShape(w.relay.value, lease);
      case _ =>
    }
  }

  lemma {:induction false} RunCounts(w: World, ops: seq<Op>, p: Peer, failures: nat)
    requires Counts(w, p, failures)
    ensures Counts(Run(w, ops), p, Failures(w, ops, p, failures))
    decreases |ops|
  {
    if ops != [] {
      StepCounts(w, ops[0], p, failures);
      RunCounts(Step(w, ops[0]).0, ops[1..], p, Tally(w, ops[0], p, failures));
    }
  }

  /**
   * After any run, the next failure of a peer is answered with permission to go on exactly when the peer is
   * or can be remembered and it is not the fifth, or a later one, of the peer's budget.
   */
  lemma FifthFailureIsTheLast(ops: seq<Op>, fail: Op)
    requires fail.Fail? && Run(EMPTY_WORLD, ops).relay.Some?
    ensures var w := Run(EMPTY_WORLD, ops);
      Step(w, fail).1 == Flag(RecordOf(Step(w, fail).0, fail.peer).Some? && Failures(EMPTY_WORLD, ops, fail.peer, 0) + 1 < MAX_PAIRING_ATTEMPTS)
  {
    RunCounts(EMPTY_WORLD, ops, fail.peer, 0);
    ObserveShape(Run(EMPTY_WORLD, ops).relay.value, fail.peer, fail.now, fail.stamp);
  }

  /** A peer that is not remembered is, by its failure, unless the registry is full or its counter or clock fails. */
  lemma FailureIsRemembered(w: World, fail: Op)
    requires fail.Fail? && w.relay.Some?
    ensures var r := w.relay.value;
      RecordOf(Step(w, fail).0, fail.peer).Some? <==>
        fail.peer in r.pairings || (|r.pairings| < r.MaxPairingRecords() && r.nextAttempt < U64_MAX && fail.stamp.Some?)
  {
  }
}
