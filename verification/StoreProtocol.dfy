/**
 * Many store handles over one record file: the operations of src/authority_store.rs split at every
 * host call, interleaved in any order, with a crash possible between any two calls.
 */
module StoreProtocol {
  import opened Common
  import opened AuthorityStore

  datatype Request<P> =
    | Commit(generation: nat, payload: P, expected: nat)
    | Delete(expected: nat)

  datatype Reply<P> =
    | Committed(revision: nat)
    | Removed(outcome: DeleteOutcome)
    | Loaded(record: Option<StoredRecord<P>>)
    | Failed(error: StoreError)

  datatype Phase<P> =
    | Idle
    | Asked(request: Request<P>)     // arguments accepted, lock file not requested yet
    | Entered(request: Request<P>)   // this handle created the lock file
    | Matched(request: Request<P>)   // the record on file has the expected revision
    | Staged(request: Request<P>)    // the replacement is ready
    | Swapped(request: Request<P>)   // the file was replaced or removed, directory not synced
    | Leaving(reply: Reply<P>)       // outcome decided, lock file not removed yet
    | Probing                        // a load that has not looked for the lock file
    | Reading                        // a load that saw no lock file

  datatype Lock = Free | Held(handle: nat) | Stale

  /** One replacement of the file: the deletion era, the revision it replaced, the new record. */
  datatype Install<P> = Install(era: nat, replaced: nat, record: StoredRecord<P>)

  datatype Return<P> = Return(era: nat, handle: nat, reply: Reply<P>)

  /** The host directory, the handles using it, and the history of installs and returned replies. */
  datatype Host<P> = Host(
    file: Option<StoredRecord<P>>,
    lock: Lock,
    phases: map<nat, Phase<P>>,
    era: nat,
    installs: seq<Install<P>>,
    replies: seq<Return<P>>)

  datatype Action<P> =
    | Begin(handle: nat, request: Request<P>)
    | BeginLoad(handle: nat)
    | TakeLock(handle: nat, fault: Fault)
    | Examine(handle: nat, fault: Fault)
    | Stage(handle: nat, fault: Fault)
    | Swap(handle: nat, fault: Fault)
    | Sync(handle: nat, fault: Fault)
    | Unlock(handle: nat, fails: bool)
    | Probe(handle: nat)
    | Read(handle: nat, fault: Fault)
    | Crash(handle: nat)

  function At<P>(w: Host<P>, h: nat): Phase<P> {
    if h in w.phases then w.phases[h] else Idle
  }

  function Go<P>(w: Host<P>, h: nat, phase: Phase<P>): Host<P> {
    w.(phases := w.phases[h := phase])
  }

  function Finish<P>(w: Host<P>, h: nat, reply: Reply<P>): Host<P> {
    Go(w, h, Idle).(replies := w.replies + [Return(w.era, h, reply)])
  }

  function StepTakeLock<P>(w: Host<P>, h: nat, request: Request<P>, fault: Fault): Host<P> {
    if fault == DirectoryFails || w.lock != Free then Finish(w, h, Failed(Unavailable))
    else if fault == LockFails then Finish(w, h, Failed(PersistenceFailed))
    else if fault == LockLeaks then Finish(w.(lock := Stale), h, Failed(PersistenceFailed))
    else Go(w.(lock := Held(h)), h, Entered(request))
  }

  function StepExamine<P>(w: Host<P>, h: nat, request: Request<P>, fault: Fault): Host<P> {
    if fault == ReadFails then Go(w, h, Leaving(Failed(Unavailable))) else
      match request
      case Commit(_, _, expected) =>
        if RevisionOf(w.file) != expected then Go(w, h, Leaving(Failed(Conflict)))
        else if expected >= U64_MAX then Go(w, h, Leaving(Failed(Unknown)))
        else Go(w, h, Matched(request))
      case Delete(expected) =>
        if w.file.None? then Go(w, h, Leaving(Removed(Missing)))
        else if w.file.value.revision != expected then Go(w, h, Leaving(Failed(Conflict)))
        else Go(w, h, Staged(request))
  }

  function StepSwap<P>(w: Host<P>, h: nat, request: Request<P>, fault: Fault): Host<P> {
    if fault == RenameFails then Go(w, h, Leaving(Failed(Unknown))) else
      match request
      case Commit(generation, payload, expected) =>
        var record := StoredRecord(expected + 1, generation, payload);
        Go(w.(file := Some(record),
              installs := w.installs + [Install(w.era, RevisionOf(w.file), record)]), h, Swapped(request))
      case Delete(_) =>
        Go(w.(file := None, era := w.era + 1), h, Swapped(request))
  }

  function StepSync<P>(w: Host<P>, h: nat, request: Request<P>, fault: Fault): Host<P> {
    if fault == SyncFails then Go(w, h, Leaving(Failed(Unknown)))
    else if request.Commit? then Go(w, h, Leaving(Committed(request.expected + 1)))
    else Go(w, h, Leaving(Removed(Deleted)))
  }

  /** An action whose handle is in another phase leaves the host unchanged. */
  function Step<P>(w: Host<P>, a: Action<P>): Host<P> {
    var h := a.handle;
    match (a, At(w, h))
    case (Begin(_, request), Idle) =>
      if request.Commit? && request.generation == 0 then Finish(w, h, Failed(Invalid)) else Go(w, h, Asked(request))
    case (BeginLoad(_), Idle) => Go(w, h, Probing)
    case (TakeLock(_, fault), Asked(request)) => StepTakeLock(w, h, request, fault)
    case (Examine(_, fault), Entered(request)) => StepExamine(w, h, request, fault)
    case (Stage(_, fault), Matched(request)) =>
      if fault == WriteFails then Go(w, h, Leaving(Failed(PersistenceFailed))) else Go(w, h, Staged(request))
    case (Swap(_, fault), Staged(request)) => StepSwap(w, h, request, fault)
    case (Sync(_, fault), Swapped(request)) => StepSync(w, h, request, fault)
    case (Unlock(_, fails), Leaving(reply)) => Finish(w.(lock := if fails then Stale else Free), h, reply)
    case (Probe(_), Probing) =>
      if w.lock != Free then Finish(w, h, Failed(Unavailable)) else Go(w, h, Reading)
    case (Read(_, fault), Reading) =>
      Finish(w, h, if fault == DirectoryFails || fault == ReadFails then Failed(Unavailable) else Loaded(w.file))
    case (Crash(_), _) =>
      Go(w.(lock := if w.lock == Held(h) then Stale else w.lock), h, Idle)
    case _ => w
  }

  function Run<P>(w: Host<P>, actions: seq<Action<P>>): Host<P>
    decreases |actions|
  {
    if actions == [] then w else Run(Step(w, actions[0]), actions[1..])
  }

  function EmptyHost<P>(): Host<P> {
    Host(None, Free, map[], 0, [], [])
  }

  // ---------------------------------------------------------------- invariants

  predicate Inside<P>(phase: Phase<P>) {
    phase.Entered? || phase.Matched? || phase.Staged? || phase.Swapped? || phase.Leaving?
  }

  /** The lock file names the one handle between its creation and its removal. */
  ghost predicate MutualExclusion<P>(w: Host<P>) {
    forall h {:trigger At(w, h)} :: Inside(At(w, h)) <==> w.lock == Held(h)
  }

  /** What the handle owning the lock knows about the file. */
  ghost predicate OwnerKnows<P>(file: Option<StoredRecord<P>>, phase: Phase<P>) {
    match phase
    case Matched(Commit(_, _, expected)) => RevisionOf(file) == expected && expected < U64_MAX
    case Matched(Delete(_)) => false
    case Staged(Commit(_, _, expected)) => RevisionOf(file) == expected && expected < U64_MAX
    case Staged(Delete(expected)) => file.Some? && file.value.revision == expected
    case Swapped(Commit(generation, payload, expected)) => file == Some(StoredRecord(expected + 1, generation, payload))
    case Swapped(Delete(_)) => file.None?
    case Leaving(Committed(revision)) => RevisionOf(file) == revision
    case Leaving(Loaded(_)) => false
    case _ => true
  }

  ghost predicate OwnerSound<P>(w: Host<P>) {
    w.lock.Held? ==> OwnerKnows(w.file, At(w, w.lock.handle))
  }

  /** The revision the file had just before install `i`. */
  function Predecessor<P>(installs: seq<Install<P>>, i: nat): nat
    requires i < |installs|
  {
    if i == 0 || installs[i - 1].era != installs[i].era then 0 else installs[i - 1].record.revision
  }

  ghost predicate Linked<P>(installs: seq<Install<P>>, i: nat)
    requires i < |installs|
  {
    installs[i].replaced == Predecessor(installs, i) && installs[i].record.revision == installs[i].replaced + 1
  }

  /** Every install continues the chain of its deletion era by exactly one. */
  ghost predicate Chain<P>(installs: seq<Install<P>>) {
    && (forall i {:trigger Linked(installs, i)} | 0 <= i < |installs| :: Linked(installs, i))
    && (forall i, j | 0 <= i < j < |installs| :: installs[i].era <= installs[j].era)
  }

  ghost predicate FileIsLastInstall<P>(w: Host<P>) {
    && (forall i | 0 <= i < |w.installs| :: w.installs[i].era <= w.era)
    && (w.file.Some? ==>
          && |w.installs| > 0
          && w.installs[|w.installs| - 1].era == w.era
          && w.installs[|w.installs| - 1].record == w.file.value)
    && (w.file.None? ==> |w.installs| > 0 ==> w.installs[|w.installs| - 1].era < w.era)
  }

  function Stamp<P>(r: Return<P>): (nat, nat)
    requires r.reply.Committed?
  {
    (r.era, r.reply.revision)
  }

  predicate Earlier(a: (nat, nat), b: (nat, nat)) {
    a.0 < b.0 || (a.0 == b.0 && a.1 < b.1)
  }

  /** Reported revisions rise strictly, within the deletion era in which they were committed. */
  ghost predicate CommitsRise<P>(replies: seq<Return<P>>) {
    forall i, j | 0 <= i < j < |replies| && replies[i].reply.Committed? && replies[j].reply.Committed? ::
      Earlier(Stamp(replies[i]), Stamp(replies[j]))
  }

  /** The owner has installed a commit that is not reported yet. */
  predicate Pending<P>(w: Host<P>) {
    w.lock.Held? &&
    var phase := At(w, w.lock.handle);
    (phase.Swapped? && phase.request.Commit?) || (phase.Leaving? && phase.reply.Committed?)
  }

  /** No reported commit is ahead of the file; a commit not yet reported is ahead of all reported ones. */
  ghost predicate CommitsBounded<P>(w: Host<P>) {
    var here := (w.era, RevisionOf(w.file));
    forall i | 0 <= i < |w.replies| && w.replies[i].reply.Committed? ::
      Earlier(Stamp(w.replies[i]), here) || (!Pending(w) && Stamp(w.replies[i]) == here)
  }

  ghost predicate ReadsAreInstalls<P>(w: Host<P>) {
    forall i | 0 <= i < |w.replies| && w.replies[i].reply.Loaded? && w.replies[i].reply.record.Some? ::
      exists k :: 0 <= k < |w.installs| && w.installs[k].record == w.replies[i].reply.record.value
                  && w.installs[k].era == w.replies[i].era
  }

  ghost predicate Inv<P>(w: Host<P>) {
    && MutualExclusion(w)
    && OwnerSound(w)
    && Chain(w.installs)
    && FileIsLastInstall(w)
    && CommitsRise(w.replies)
    && CommitsBounded(w)
    && ReadsAreInstalls(w)
  }

  lemma GoKeepsOthers<P>(w: Host<P>, h: nat, phase: Phase<P>)
    ensures forall k {:trigger At(Go(w, h, phase), k)} :: At(Go(w, h, phase), k) == if k == h then phase else At(w, k)
  {
  }

  /** One step moves its own handle only. */
  lemma StepMovesOne<P>(w: Host<P>, a: Action<P>)
    ensures forall k {:trigger At(Step(w, a), k)} | k != a.handle :: At(Step(w, a), k) == At(w, k)
  {
  }

  /** Who holds the lock afterwards: the stepping handle exactly when it is inside, otherwise whoever held it. */
  lemma LockFollowsOwner<P>(w: Host<P>, a: Action<P>)
    requires Inside(At(w, a.handle)) <==> w.lock == Held(a.handle)
    ensures var n := Step(w, a);
      && (Inside(At(n, a.handle)) <==> n.lock == Held(a.handle))
      && (forall k | k != a.handle :: n.lock == Held(k) <==> w.lock == Held(k))
  {
  }

  /** The stepping owner still knows the file; the file of another owner is left alone. */
  lemma StepKeepsOwner<P>(w: Host<P>, a: Action<P>)
    requires Inside(At(w, a.handle)) <==> w.lock == Held(a.handle)
    requires w.lock == Held(a.handle) ==> OwnerKnows(w.file, At(w, a.handle))
    ensures var n := Step(w, a);
      && (n.lock == Held(a.handle) ==> OwnerKnows(n.file, At(n, a.handle)))
      && (w.lock != Held(a.handle) ==> n.file == w.file)
  {
  }

  lemma StepKeepsExclusion<P>(w: Host<P>, a: Action<P>)
    requires MutualExclusion(w) && OwnerSound(w)
    ensures MutualExclusion(Step(w, a)) && OwnerSound(Step(w, a))
  {
    StepMovesOne(w, a);
    assert Inside(At(w, a.handle)) <==> w.lock == Held(a.handle);
    LockFollowsOwner(w, a);
    StepKeepsOwner(w, a);
  }

  /** Only a swap by the owner of the lock touches the record. */
  lemma OnlyOwnersSwap<P>(w: Host<P>, a: Action<P>)
    requires MutualExclusion(w)
    ensures var n := Step(w, a);
      if a.Swap? && At(w, a.handle).Staged? then
        w.lock == Held(a.handle) && n == StepSwap(w, a.handle, At(w, a.handle).request, a.fault)
      else
        n.file == w.file && n.era == w.era && n.installs == w.installs
  {
    assert Inside(At(w, a.handle)) <==> w.lock == Held(a.handle);
  }

  lemma ChainExtends<P>(installs: seq<Install<P>>, next: Install<P>)
    requires Chain(installs)
    requires forall i | 0 <= i < |installs| :: installs[i].era <= next.era
    requires next.replaced == if installs == [] || installs[|installs| - 1].era != next.era then 0
                              else installs[|installs| - 1].record.revision
    requires next.record.revision == next.replaced + 1
    ensures Chain(installs + [next])
  {
    var longer := installs + [next];
    forall i {:trigger Linked(longer, i)} | 0 <= i < |longer|
      ensures Linked(longer, i)
    {
      assert i < |installs| ==> Linked(installs, i);
    }
  }

  lemma StepKeepsChain<P>(w: Host<P>, a: Action<P>)
    requires MutualExclusion(w) && OwnerSound(w) && Chain(w.installs) && FileIsLastInstall(w)
    ensures Chain(Step(w, a).installs) && FileIsLastInstall(Step(w, a))
  {
    OnlyOwnersSwap(w, a);
    var n := Step(w, a);
    if a.Swap? && At(w, a.handle).Staged? && n.installs != w.installs {
      var next := n.installs[|w.installs|];
      assert n.installs == w.installs + [next];
      assert OwnerKnows(w.file, At(w, a.handle));
      ChainExtends(w.installs, next);
    }
  }

  predicate ReplyIsSound<P(==)>(w: Host<P>, n: Host<P>, a: Action<P>, r: Return<P>) {
    && n.replies == w.replies + [r]
    && r == Return(w.era, a.handle, r.reply)
    && (r.reply.Committed? ==>
          && a.Unlock? && w.lock == Held(a.handle) && At(w, a.handle) == Leaving(r.reply)
          && r.reply.revision == RevisionOf(w.file) && n.file == w.file && n.era == w.era && !n.lock.Held?)
  }

  /** A step returns at most one reply; a reported commit was the owner's and names the file's revision. */
  lemma ReplyOfStep<P>(w: Host<P>, a: Action<P>)
    requires MutualExclusion(w) && OwnerSound(w)
    ensures var n := Step(w, a);
      || n.replies == w.replies
      || (|n.replies| == |w.replies| + 1 && ReplyIsSound(w, n, a, n.replies[|w.replies|]))
  {
    assert Inside(At(w, a.handle)) <==> w.lock == Held(a.handle);
  }

  /** The file's stamp only grows, and grows strictly whenever a commit becomes pending. */
  lemma StampGrows<P>(w: Host<P>, a: Action<P>)
    requires MutualExclusion(w) && OwnerSound(w)
    ensures var n := Step(w, a);
      var before, after := (w.era, RevisionOf(w.file)), (n.era, RevisionOf(n.file));
      && (Earlier(before, after) || (before == after && (Pending(n) ==> Pending(w))))
  {
    OnlyOwnersSwap(w, a);
    var n := Step(w, a);
    GoKeepsOthers(w, a.handle, At(n, a.handle));
    if a.Swap? && At(w, a.handle).Staged? {
      assert OwnerKnows(w.file, At(w, a.handle));
    } else if Pending(n) {
      assert Inside(At(w, a.handle)) <==> w.lock == Held(a.handle);
    }
  }

  lemma StepKeepsCommits<P>(w: Host<P>, a: Action<P>)
    requires MutualExclusion(w) && OwnerSound(w) && CommitsRise(w.replies) && CommitsBounded(w)
    ensures CommitsRise(Step(w, a).replies) && CommitsBounded(Step(w, a))
  {
    var n := Step(w, a);
    StampGrows(w, a);
    ReplyOfStep(w, a);
    if n.replies != w.replies {
      var last := |w.replies|;
      assert n.replies[..last] == w.replies;
      assert n.replies[last].reply.Committed? ==> Pending(w);
    }
  }

  lemma StepKeepsReads<P>(w: Host<P>, a: Action<P>)
    requires MutualExclusion(w) && OwnerSound(w) && FileIsLastInstall(w) && ReadsAreInstalls(w)
    ensures ReadsAreInstalls(Step(w, a))
  {
    var n := Step(w, a);
    assert Inside(At(w, a.handle)) <==> w.lock == Held(a.handle);
    assert n.installs[..|w.installs|] == w.installs;
    assert n.replies[..|w.replies|] == w.replies;
    forall i | 0 <= i < |n.replies| && n.replies[i].reply.Loaded? && n.replies[i].reply.record.Some?
      ensures exists k :: 0 <= k < |n.installs| && n.installs[k].record == n.replies[i].reply.record.value
                          && n.installs[k].era == n.replies[i].era
    {
      if i < |w.replies| {
        var k :| 0 <= k < |w.installs| && w.installs[k].record == w.replies[i].reply.record.value
                 && w.installs[k].era == w.replies[i].era;
        assert n.installs[k] == w.installs[k];
      } else {
        assert n.installs[|w.installs| - 1].record == w.file.value;
      }
    }
  }

  lemma {:induction false} RunKeepsInv<P>(w: Host<P>, actions: seq<Action<P>>)
    requires Inv(w)
    ensures Inv(Run(w, actions))
    decreases |actions|
  {
    if actions != [] {
      StepKeepsExclusion(w, actions[0]);
      StepKeepsChain(w, actions[0]);
      StepKeepsCommits(w, actions[0]);
      StepKeepsReads(w, actions[0]);
      RunKeepsInv(Step(w, actions[0]), actions[1..]);
    }
  }

  // ---------------------------------------------------------------- theorems over all runs

  /** However handles interleave and crash, each record's revision is one above the record it replaced. */
  lemma InstallsAreConsecutive<P>(actions: seq<Action<P>>)
    ensures var w := Run(EmptyHost(), actions);
      && Chain(w.installs)
      && RevisionOf(w.file) == (if w.installs == [] || w.installs[|w.installs| - 1].era != w.era then 0
                                else w.installs[|w.installs| - 1].record.revision)
      && (forall i | 0 <= i < |w.installs| :: w.installs[i].record.revision == w.installs[i].replaced + 1)
  {
    RunKeepsInv(EmptyHost<P>(), actions);
    var w := Run(EmptyHost<P>(), actions);
    forall i | 0 <= i < |w.installs| ensures w.installs[i].record.revision == w.installs[i].replaced + 1 {
      assert Linked(w.installs, i);
    }
  }

  /** No two commits that report success report the same revision of the same deletion era. */
  lemma ReportedRevisionsAreDistinct<P>(actions: seq<Action<P>>, i: nat, j: nat)
    requires i < j < |Run(EmptyHost(), actions).replies|
    requires Run(EmptyHost(), actions).replies[i].reply.Committed?
    requires Run(EmptyHost(), actions).replies[j].reply.Committed?
    ensures var replies := Run(EmptyHost(), actions).replies;
      Earlier(Stamp(replies[i]), Stamp(replies[j]))
  {
    RunKeepsInv(EmptyHost<P>(), actions);
  }

  /** A load never sees a partial record: what it returns was installed whole in the era of the load. */
  lemma LoadsReturnInstalledRecords<P>(actions: seq<Action<P>>, i: nat)
    requires i < |Run(EmptyHost(), actions).replies|
    requires Run(EmptyHost(), actions).replies[i].reply.Loaded?
    requires Run(EmptyHost(), actions).replies[i].reply.record.Some?
    ensures var w := Run(EmptyHost(), actions);
      exists k :: 0 <= k < |w.installs| && w.installs[k].record == w.replies[i].reply.record.value
                  && w.installs[k].era == w.replies[i].era
  {
    RunKeepsInv(EmptyHost<P>(), actions);
  }

  // ---------------------------------------------------------------- a lock that stays behind

  predicate Refusal<P(==)>(reply: Reply<P>) {
    reply == Failed(Unavailable) || reply == Failed(Invalid)
  }

  /** No reply since the first `base` was returned by this handle. */
  predicate SilentSince<P>(replies: seq<Return<P>>, base: nat, h: nat) {
    forall i | base <= i < |replies| :: replies[i].handle != h
  }

  /** The one reply that is no refusal: a load that had passed its lock probe when the lock went stale. */
  predicate LateLoad<P(==)>(w: Host<P>, replies: seq<Return<P>>, i: nat)
    requires |w.replies| <= i < |replies|
  {
    var h := replies[i].handle;
    At(w, h).Reading? && replies[i].reply == Loaded(w.file) && SilentSince(replies[..i], |w.replies|, h)
  }

  /** What `n` still shares with `w`, when the lock was stale at `w`. */
  ghost predicate Frozen<P>(w: Host<P>, n: Host<P>) {
    && n.lock == Stale && n.file == w.file && n.installs == w.installs && n.era == w.era
    && w.replies <= n.replies
    && (forall h {:trigger At(n, h)} :: !Inside(At(n, h)))
    && (forall h {:trigger At(n, h)} :: At(n, h).Reading? ==> At(w, h).Reading? && SilentSince(n.replies, |w.replies|, h))
    && (forall i | |w.replies| <= i < |n.replies| :: Refusal(n.replies[i].reply) || LateLoad(w, n.replies, i))
  }

  lemma FrozenStep<P>(w: Host<P>, n: Host<P>, a: Action<P>)
    requires Frozen(w, n)
    ensures Frozen(w, Step(n, a))
  {
    var next := Step(n, a);
    StepMovesOne(n, a);
    assert !Inside(At(n, a.handle));
    if next.replies != n.replies {
      var last := |n.replies|;
      assert next.replies[..last] == n.replies;
      forall i | |w.replies| <= i < |next.replies| ensures Refusal(next.replies[i].reply) || LateLoad(w, next.replies, i) {
        if i < last {
          assert next.replies[..i] == n.replies[..i];
        }
      }
    }
  }

  lemma {:induction false} FrozenRun<P>(w: Host<P>, n: Host<P>, actions: seq<Action<P>>)
    requires Frozen(w, n)
    ensures Frozen(w, Run(n, actions))
    decreases |actions|
  {
    if actions != [] {
      FrozenStep(w, n, actions[0]);
      FrozenRun(w, Step(n, actions[0]), actions[1..]);
    }
  }

  /**
   * A lock file left behind is never removed: whatever the handles do from then on, nothing is installed
   * or deleted, and every reply is a refusal but for one load each of the handles already past their probe.
   */
  lemma StaleLockBlocksForever<P>(w: Host<P>, actions: seq<Action<P>>)
    requires MutualExclusion(w) && w.lock == Stale
    ensures Frozen(w, Run(w, actions))
  {
    forall h ensures !Inside(At(w, h)) {
      assert Inside(At(w, h)) <==> w.lock == Held(h);
    }
    FrozenRun(w, w, actions);
  }

  /**
   * In any run, a crash between taking and removing the lock leaves it behind for good: from then on the
   * file never changes, and every request begun after the crash is refused.
   */
  lemma CrashInsideBlocksForever<P>(before: seq<Action<P>>, h: nat, later: seq<Action<P>>, i: nat)
    requires Inside(At(Run(EmptyHost(), before), h))
    ensures var w := Step(Run(EmptyHost(), before), Crash(h));
      var n := Run(w, later);
      && w.lock == Stale && w.file == Run(EmptyHost(), before).file
      && n.lock == Stale && n.file == w.file && n.installs == w.installs
      && (|w.replies| <= i < |n.replies| && !At(w, n.replies[i].handle).Reading? ==> Refusal(n.replies[i].reply))
  {
    var reached := Run(EmptyHost<P>(), before);
    RunKeepsInv(EmptyHost<P>(), before);
    assert Inside(At(reached, h)) <==> reached.lock == Held(h);
    StepKeepsExclusion(reached, Crash(h));
    StaleLockBlocksForever(Step(reached, Crash(h)), later);
  }
}
