/** Connection leases and the generations handed to connections, over whole runs and restarts. */
module LeaseTheorems {
  import opened Common
  import opened AuthorityStore
  import opened PairingAuthority
  import opened PairingProofs

  /** Nothing that admission reads or writes has changed. */
  predicate AdmissionUntouched(r: Relay, after: Relay) {
    && after.durable == r.durable && after.epoch == r.epoch && after.maxConnections == r.maxConnections
    && after.nextGeneration == r.nextGeneration && after.leases == r.leases && after.active == r.active
    && after.shutdown == r.shutdown
  }

  lemma PairLeavesAdmission(w: World, op: Op)
    requires w.relay.Some? && op.Pair?
    ensures var n := Step(w, op).0;
      n.fence == w.fence && n.tickets == w.tickets && n.relay.Some? && AdmissionUntouched(w.relay.value, n.relay.value)
  {
    MarkPairedCases(w.relay.value, w.authority, op.peer, op.now, op.stamp, op.faults);
  }

  lemma UnpairLeavesAdmission(w: World, op: Op)
    requires w.relay.Some? && op.Unpair?
    ensures var n := Step(w, op).0;
      n.fence == w.fence && n.tickets == w.tickets && n.relay.Some? && AdmissionUntouched(w.relay.value, n.relay.value)
  {
    RevokeCases(w.relay.value, w.authority, op.peer, op.stamp, op.faults);
  }

  lemma ObserveLeavesAdmission(r: Relay, peer: Peer, now: nat, stamp: Option<nat>)
    ensures AdmissionUntouched(r, Observe(r, peer, now, stamp).0)
  {
  }

  lemma ReserveLeavesAdmission(r: Relay, peer: Peer, now: nat, stamp: Option<nat>)
    ensures AdmissionUntouched(r, ReserveChallenge(r, peer, now, stamp).0)
  {
    ObserveLeavesAdmission(r, peer, now, stamp);
  }

  lemma FailLeavesAdmission(r: Relay, peer: Peer, now: nat, stamp: Option<nat>)
    ensures AdmissionUntouched(r, RecordFailure(r, peer, now, stamp).0)
  {
    ObserveLeavesAdmission(r, peer, now, stamp);
  }

  lemma ChallengeLeavesAdmission(w: World, op: Op)
    requires w.relay.Some? && (op.Reserve? || op.Fail?)
    ensures var n := Step(w, op).0;
      n.fence == w.fence && n.tickets == w.tickets && n.relay.Some? && AdmissionUntouched(w.relay.value, n.relay.value)
  {
    if op.Reserve? {
      ReserveLeavesAdmission(w.relay.value, op.peer, op.now, op.stamp);
    } else {
      FailLeavesAdmission(w.relay.value, op.peer, op.now, op.stamp);
    }
  }

  /** Pairing, revocation and challenge bookkeeping leave admission, the fence and the tickets alone. */
  lemma PairingLeavesAdmission(w: World, op: Op)
    requires w.relay.Some? && (op.Pair? || op.Unpair? || op.Reserve? || op.Fail?)
    ensures var n := Step(w, op).0;
      n.fence == w.fence && n.tickets == w.tickets && n.relay.Some? && AdmissionUntouched(w.relay.value, n.relay.value)
  {
    if op.Pair? { PairLeavesAdmission(w, op); }
    else if op.Unpair? { UnpairLeavesAdmission(w, op); }
    else { ChallengeLeavesAdmission(w, op); }
  }

  // ---------------------------------------------------------------- leases and active entries

  /** Leases and active entries are the same relation, one per peer, within the semaphore. */
  ghost predicate LeaseSound(r: Relay) {
    && (forall l | l in r.leases :: l.peer in r.active && r.active[l.peer] == l.generation)
    && (forall p | p in r.active :: Lease(p, r.active[p]) in r.leases)
    && |r.leases| <= r.maxConnections
  }

  ghost predicate WorldLeaseSound(w: World) {
    w.relay.Some? ==> LeaseSound(w.relay.value)
  }

  lemma AdmitKeepsLeases(r: Relay, peer: Peer)
    requires LeaseSound(r)
    ensures LeaseSound(Admit(r, peer).0)
  {
    var (after, lease) := Admit(r, peer);
    if lease.Some? {
      assert lease.value !in r.leases;
    }
  }

  /** Dropping a lease removes its own entry and no other, together with its own unlisted challenge record. */
  lemma DropRemovesOnlyItsOwn(r: Relay, lease: Lease)
    requires LeaseSound(r) && lease in r.leases
    ensures var after := DropLease(r, lease);
      && LeaseSound(after)
      && after.leases == r.leases - {lease}
      && after.active == r.active - {lease.peer}
      && (forall p | p != lease.peer :: p in after.pairings <==> p in r.pairings)
      && (forall p | p in after.pairings :: p in r.pairings && after.pairings[p] == r.pairings[p])
      && (lease.peer in r.pairings ==> (lease.peer in after.pairings <==> Listed(r.pairings[lease.peer])))
  {
    var after := DropLease(r, lease);
    forall l | l in after.leases ensures l.peer in after.active && after.active[l.peer] == l.generation {
      assert l != lease;
    }
    forall p | p in after.active ensures Lease(p, after.active[p]) in after.leases {
      assert p != lease.peer;
    }
  }

  lemma ConnectKeepsLeases(w: World, op: Op)
    requires WorldLeaseSound(w) && w.relay.Some? && (op.Connect? || op.Disconnect?)
    ensures WorldLeaseSound(Step(w, op).0)
  {
    if op.Connect? {
      AdmitKeepsLeases(w.relay.value, op.peer);
    } else if op.lease in w.relay.value.leases {
      DropRemovesOnlyItsOwn(w.relay.value, op.lease);
    }
  }

  lemma LifecycleKeepsLeases(w: World, op: Op)
    requires WorldLeaseSound(w) && (w.relay.None? || op.Boot? || op.Crash? || op.Shutdown?)
    ensures WorldLeaseSound(Step(w, op).0)
  {
  }

  lemma StepKeepsLeases(w: World, op: Op)
    requires WorldLeaseSound(w)
    ensures WorldLeaseSound(Step(w, op).0)
  {
    if w.relay.None? || op.Boot? || op.Crash? || op.Shutdown? {
      LifecycleKeepsLeases(w, op);
    } else if op.Connect? || op.Disconnect? {
      ConnectKeepsLeases(w, op);
    } else {
      PairingLeavesAdmission(w, op);
    }
  }

  lemma {:induction false} RunKeepsLeases(w: World, ops: seq<Op>)
    requires WorldLeaseSound(w)
    ensures WorldLeaseSound(Run(w, ops))
    decreases |ops|
  {
    if ops != [] {
      StepKeepsLeases(w, ops[0]);
      RunKeepsLeases(Step(w, ops[0]).0, ops[1..]);
    }
  }

  /** In every run: as many active entries as leases, never above the limit, and one lease per peer. */
  lemma LeasesMatchActiveEntries(ops: seq<Op>)
    ensures var w := Run(EMPTY_WORLD, ops);
      w.relay.Some? ==>
        var r := w.relay.value;
        && r.leases == (set p | p in r.active :: Lease(p, r.active[p]))
        && |r.leases| <= r.maxConnections
        && (forall a, b | a in r.leases && b in r.leases && a.peer == b.peer :: a == b)
  {
    RunKeepsLeases(EMPTY_WORLD, ops);
  }

  // ---------------------------------------------------------------- shutdown

  /** The process is shutting down and holds no lease it did not hold before. */
  predicate Draining(w: World, leases: set<Lease>, tickets: seq<Ticket>) {
    w.relay.Some? && w.relay.value.shutdown && w.relay.value.leases <= leases && w.tickets == tickets
  }

  lemma StepDrains(w: World, op: Op, leases: set<Lease>, tickets: seq<Ticket>)
    requires Draining(w, leases, tickets) && !op.Crash?
    ensures Draining(Step(w, op).0, leases, tickets)
    ensures op.Connect? ==> Step(w, op).1 == Admitted(None)
  {
    if op.Pair? || op.Unpair? || op.Reserve? || op.Fail? {
      PairingLeavesAdmission(w, op);
    }
  }

  lemma {:induction false} RunDrains(w: World, ops: seq<Op>, leases: set<Lease>, tickets: seq<Ticket>)
    requires Draining(w, leases, tickets) && forall i | 0 <= i < |ops| :: !ops[i].Crash?
    ensures Draining(Run(w, ops), leases, tickets)
    decreases |ops|
  {
    if ops != [] {
      StepDrains(w, ops[0], leases, tickets);
      RunDrains(Step(w, ops[0]).0, ops[1..], leases, tickets);
    }
  }

  /** After a shutdown the process admits nobody any more, whatever else is called: its leases only drain. */
  lemma ShutdownAdmitsNobody(w: World, ops: seq<Op>, peer: Peer)
    requires w.relay.Some? && forall i | 0 <= i < |ops| :: !ops[i].Crash?
    ensures var n := Run(Step(w, Shutdown).0, ops);
      && n.relay.Some? && n.relay.value.leases <= w.relay.value.leases && n.tickets == w.tickets
      && Step(n, Connect(peer)).1 == Admitted(None)
  {
    var stopped := Step(w, Shutdown).0;
    RunDrains(stopped, ops, w.relay.value.leases, w.tickets);
    StepDrains(Run(stopped, ops), Connect(peer), w.relay.value.leases, w.tickets);
  }

  // ---------------------------------------------------------------- generations

  predicate Small(w: World) {
    w.relay.Some? ==> w.relay.value.epoch < TWO_POW_32 && w.relay.value.nextGeneration < TWO_POW_32
  }

  ghost predicate AllSmall(w: World, ops: seq<Op>)
    decreases |ops|
  {
    Small(w) && (ops == [] || AllSmall(Step(w, ops[0]).0, ops[1..]))
  }

  predicate Before(a: Ticket, b: Ticket) {
    a.epoch < b.epoch || (a.epoch == b.epoch && a.local < b.local)
  }

  ghost predicate TicketsRise(tickets: seq<Ticket>) {
    forall i, j | 0 <= i < j < |tickets| :: Before(tickets[i], tickets[j])
  }

  predicate TicketSound(t: Ticket) {
    t.epoch < TWO_POW_32 && t.local < TWO_POW_32 && ConnectionGeneration(t.epoch, t.local) == Some(t.generation)
  }

  ghost predicate FenceSound(w: World) {
    && (w.fence.record.Some? ==> w.fence.record.value.generation != 0 && w.fence.record.value.payload == w.fence.record.value.generation)
    && TicketsRise(w.tickets)
    && (forall i | 0 <= i < |w.tickets| :: TicketSound(w.tickets[i]) && w.tickets[i].epoch <= GenerationOf(w.fence.record))
    && (w.relay.Some? && w.relay.value.durable ==>
          && w.relay.value.epoch == GenerationOf(w.fence.record)
          && (forall i | 0 <= i < |w.tickets| && w.tickets[i].epoch == w.relay.value.epoch ::
                w.tickets[i].local < w.relay.value.nextGeneration))
  }

  /** A reported fence is a new epoch; an unreported one may burn an epoch but never repeats one. */
  lemma FenceAdvances(file: FileState<nat>, load: Fault, faults: Faults)
    requires file.record.Some? ==> file.record.value.generation != 0 && file.record.value.payload == file.record.value.generation
    ensures var (after, epoch) := InstallFence(file, load, faults);
      && (after.record.Some? ==> after.record.value.generation != 0 && after.record.value.payload == after.record.value.generation)
      && GenerationOf(file.record) <= GenerationOf(after.record)
      && (epoch.Some? ==> epoch.value == GenerationOf(file.record) + 1 == GenerationOf(after.record))
  {
    CommitInstallsSuccessorOrNothing(file, GenerationOf(file.record) + 1, GenerationOf(file.record) + 1, RevisionOf(file.record), faults);
  }

  /** A fence whose generation is zero or not what its payload says is never advanced, and stays as it is. */
  lemma CorruptFenceIsRefused(file: FileState<nat>, load: Fault, faults: Faults)
    requires file.record.Some? && (file.record.value.generation == 0 || file.record.value.payload != file.record.value.generation)
    ensures InstallFence(file, load, faults) == (file, None)
  {
  }

  lemma BootKeepsFence(w: World, op: Op)
    requires FenceSound(w) && op.Boot? && w.relay.None?
    ensures FenceSound(StepBoot(w, op))
  {
    FenceAdvances(w.fence, op.fenceLoad, op.fenceFaults);
    var n := StepBoot(w, op);
    assert n.tickets == w.tickets;
    assert GenerationOf(w.fence.record) <= GenerationOf(n.fence.record);
  }

  lemma TicketsExtend(tickets: seq<Ticket>, ticket: Ticket)
    requires TicketsRise(tickets) && forall i | 0 <= i < |tickets| :: Before(tickets[i], ticket)
    ensures TicketsRise(tickets + [ticket])
  {
  }

  lemma AdmissionKeepsFence(w: World, op: Op)
    requires FenceSound(w) && Small(w) && w.relay.Some? && op.Connect?
    ensures FenceSound(Step(w, op).0)
  {
    var r := w.relay.value;
    var lease := Admit(r, op.peer).1;
    if lease.Some? && r.durable {
      var ticket := Ticket(r.epoch, r.nextGeneration, lease.value.generation);
      TicketsExtend(w.tickets, ticket);
      assert TicketSound(ticket);
    }
  }

  lemma LifecycleLeavesFence(w: World, op: Op)
    requires w.relay.Some? && (op.Disconnect? || op.Shutdown? || op.Crash?)
    ensures var n := Step(w, op).0;
      && n.fence == w.fence && n.tickets == w.tickets
      && (n.relay.Some? ==>
            var r, after := w.relay.value, n.relay.value;
            after.durable == r.durable && after.epoch == r.epoch && after.nextGeneration == r.nextGeneration)
  {
  }

  lemma StepKeepsFence(w: World, op: Op)
    requires FenceSound(w) && Small(w)
    ensures FenceSound(Step(w, op).0)
  {
    if op.Boot? {
      if w.relay.None? { BootKeepsFence(w, op); }
    } else if w.relay.Some? {
      if op.Connect? {
        AdmissionKeepsFence(w, op);
      } else if op.Disconnect? || op.Shutdown? || op.Crash? {
        LifecycleLeavesFence(w, op);
      } else {
        PairingLeavesAdmission(w, op);
      }
    }
  }

  lemma {:induction false} RunKeepsFence(w: World, ops: seq<Op>)
    requires FenceSound(w) && AllSmall(w, ops)
    ensures FenceSound(Run(w, ops))
    decreases |ops|
  {
    if ops != [] {
      StepKeepsFence(w, ops[0]);
      RunKeepsFence(Step(w, ops[0]).0, ops[1..]);
    }
  }

  /** Below 2^32 epochs and 2^32 admissions each, connection generations rise strictly over all restarts. */
  lemma ConnectionGenerationsRise(ops: seq<Op>, i: nat, j: nat)
    requires AllSmall(EMPTY_WORLD, ops)
    requires i < j < |Run(EMPTY_WORLD, ops).tickets|
    ensures var tickets := Run(EMPTY_WORLD, ops).tickets;
      Before(tickets[i], tickets[j]) && tickets[i].generation < tickets[j].generation
  {
    RunKeepsFence(EMPTY_WORLD, ops);
    var tickets := Run(EMPTY_WORLD, ops).tickets;
    assert TicketSound(tickets[i]) && TicketSound(tickets[j]);
    LaterTicketIsGreater(tickets[i], tickets[j]);
  }

  lemma LaterTicketIsGreater(a: Ticket, b: Ticket)
    requires TicketSound(a) && TicketSound(b) && Before(a, b)
    ensures a.generation < b.generation
  {
  }

  /** The shift keeps only the low 32 bits of the epoch: exactly when two admissions share a generation. */
  lemma GenerationsCollideExactlyModulo(e: nat, l: nat, f: nat, k: nat)
    requires l < TWO_POW_32 && k < TWO_POW_32
    ensures ConnectionGeneration(e, l).Some?
    ensures ConnectionGeneration(e, l) == ConnectionGeneration(f, k) <==> l == k && e % TWO_POW_32 == f % TWO_POW_32
  {
    ShiftKeepsLowBits(e);
    ShiftKeepsLowBits(f);
  }

  lemma ShiftKeepsLowBits(e: nat)
    ensures (e * TWO_POW_32) % TWO_POW_64 == (e % TWO_POW_32) * TWO_POW_32
  {
    var q, m := e / TWO_POW_32, e % TWO_POW_32;
    assert e * TWO_POW_32 == q * TWO_POW_64 + m * TWO_POW_32;
    assert m * TWO_POW_32 < TWO_POW_64;
    ModuloOfSum(q, m * TWO_POW_32);
  }

  lemma ModuloOfSum(q: nat, rest: nat)
    requires rest < TWO_POW_64
    ensures (q * TWO_POW_64 + rest) % TWO_POW_64 == rest
  {
  }
}
