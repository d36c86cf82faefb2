/** The split operations of the store, run without interference, are the atomic ones. */
module StoreAtomicity {
  import opened Common
  import opened AuthorityStore
  import opened StoreProtocol

  /**
   * The host calls of one commit or deletion, in the order the code makes them; a deletion stages nothing,
   * so its fourth call changes nothing.
   */
  function Calls<P>(h: nat, request: Request<P>, faults: Faults): seq<Action<P>> {
    [Begin(h, request), TakeLock(h, faults.at), Examine(h, faults.at), Stage(h, faults.at),
     Swap(h, faults.at), Sync(h, faults.at), Unlock(h, faults.lockStays)]
  }

  function ReplyTo<P>(result: Result<nat, StoreError>): Reply<P> {
    match result
    case Ok(revision) => Committed(revision)
    case Err(error) => Failed(error)
  }

  function ReplyToDelete<P>(result: Result<DeleteOutcome, StoreError>): Reply<P> {
    match result
    case Ok(outcome) => Removed(outcome)
    case Err(error) => Failed(error)
  }

  /** The request as one atomic operation on the file. */
  function Atomically<P>(file: FileState<P>, request: Request<P>, faults: Faults): (FileState<P>, Reply<P>) {
    match request
    case Commit(generation, payload, expected) =>
      var (after, result) := CommitFile(file, generation, payload, expected, faults);
      (after, ReplyTo(result))
    case Delete(expected) =>
      var (after, result) := DeleteFile(file, expected, faults);
      (after, ReplyToDelete(result))
  }

  /** The host after the first two calls. */
  function Entry<P>(w: Host<P>, h: nat, request: Request<P>, fault: Fault): Host<P>
  {
    if request.Commit? && request.generation == 0 then Finish(w, h, Failed(Invalid)) else StepTakeLock(w, h, request, fault)
  }

  function Left<P>(w: Host<P>, h: nat, stays: bool): Host<P>
    requires At(w, h).Leaving?
  {
    Finish(w.(lock := if stays then Stale else Free), h, At(w, h).reply)
  }

  /** The host after a whole request that nobody interferes with. */
  function Alone<P>(w: Host<P>, h: nat, request: Request<P>, faults: Faults): Host<P>
  {
    var entered := Entry(w, h, request, faults.at);
    if At(entered, h) == Idle then entered else Left(Decided(entered, h, request, faults.at), h, faults.lockStays)
  }

  lemma AloneIsAtomic<P>(w: Host<P>, h: nat, request: Request<P>, faults: Faults)
    requires At(w, h) == Idle && !w.lock.Held?
    ensures var n := Alone(w, h, request, faults);
      var (after, reply) := Atomically(FileState(w.file, w.lock != Free), request, faults);
      && FileState(n.file, n.lock != Free) == after
      && n.replies == w.replies + [Return(n.replies[|w.replies|].era, h, reply)]
      && At(n, h) == Idle
  {
    var entered := Entry(w, h, request, faults.at);
    if At(entered, h) != Idle {
      DecidedIsAtomic(entered, h, request, faults);
    }
  }

  /** The last five calls, from where the first two left the handle. */
  lemma FinishFromEntry<P>(entered: Host<P>, h: nat, request: Request<P>, faults: Faults)
    requires At(entered, h) == Idle || At(entered, h) == Entered(request)
    ensures FinalCalls(entered, h, faults)
         == if At(entered, h) == Idle then entered else Left(Decided(entered, h, request, faults.at), h, faults.lockStays)
  {
    if At(entered, h) == Idle {
      IdleIgnores(entered, h, faults);
    } else {
      FinishAlone(entered, h, request, faults);
    }
  }

  lemma EntryPhase<P>(w: Host<P>, h: nat, request: Request<P>, fault: Fault)
    ensures At(Entry(w, h, request, fault), h) == Idle || At(Entry(w, h, request, fault), h) == Entered(request)
  {
  }

  lemma CallsAlone<P>(w: Host<P>, h: nat, request: Request<P>, faults: Faults)
    requires At(w, h) == Idle
    ensures Run(w, Calls(h, request, faults)) == Alone(w, h, request, faults)
  {
    CallsFinish(w, h, request, faults);
    EnterAlone(w, h, request, faults.at);
    EntryPhase(w, h, request, faults.at);
    FinishFromEntry(Entry(w, h, request, faults.at), h, request, faults);
  }

  lemma CallsFinish<P>(w: Host<P>, h: nat, request: Request<P>, faults: Faults)
    ensures Run(w, Calls(h, request, faults)) == FinalCalls(Step(Step(w, Begin(h, request)), TakeLock(h, faults.at)), h, faults)
  {
    RunSevenSteps(w, Calls(h, request, faults));
  }

  /** One user: the split request, run without interference, is the atomic one. */
  lemma RequestAloneIsAtomic<P>(w: Host<P>, h: nat, request: Request<P>, faults: Faults)
    requires At(w, h) == Idle && !w.lock.Held?
    ensures var n := Run(w, Calls(h, request, faults));
      var (after, reply) := Atomically(FileState(w.file, w.lock != Free), request, faults);
      && FileState(n.file, n.lock != Free) == after
      && |n.replies| == |w.replies| + 1 && n.replies[..|w.replies|] == w.replies
      && n.replies[|w.replies|].handle == h && n.replies[|w.replies|].reply == reply
      && At(n, h) == Idle
  {
    CallsAlone(w, h, request, faults);
    AloneIsAtomic(w, h, request, faults);
  }

  /** The seven host calls of one undisturbed commit are the atomic compare-and-commit. */
  lemma CommitAloneIsAtomic<P>(w: Host<P>, h: nat, request: Request<P>, faults: Faults)
    requires At(w, h) == Idle && !w.lock.Held? && request.Commit?
    ensures var n := Run(w, Calls(h, request, faults));
      var (after, result) := CommitFile(FileState(w.file, w.lock != Free), request.generation, request.payload, request.expected, faults);
      && FileState(n.file, n.lock != Free) == after
      && n.replies == w.replies + [Return(w.era, h, ReplyTo(result))]
      && At(n, h) == Idle
  {
    CallsAlone(w, h, request, faults);
    AloneIsAtomic(w, h, request, faults);
    CommitKeepsEra(w, h, request, faults);
  }

  lemma CommitKeepsEra<P>(w: Host<P>, h: nat, request: Request<P>, faults: Faults)
    requires At(w, h) == Idle && request.Commit?
    ensures var n := Alone(w, h, request, faults);
      n.era == w.era && |n.replies| == |w.replies| + 1 && n.replies[|w.replies|].era == w.era
  {
  }

  /** A load has no lock to take: its calls are the atomic load, for every fault and whoever holds the lock. */
  lemma LoadAloneIsAtomic<P>(w: Host<P>, h: nat, fault: Fault)
    requires At(w, h) == Idle
    ensures var n := Run(w, [BeginLoad(h), Probe(h), Read(h, fault)]);
      var result := LoadFile(FileState(w.file, w.lock != Free), fault);
      && n.file == w.file && n.lock == w.lock && n.installs == w.installs && At(n, h) == Idle
      && n.replies == w.replies + [Return(w.era, h, if result.Ok? then Loaded(result.value) else Failed(result.error))]
  {
    var calls: seq<Action<P>> := [BeginLoad(h), Probe(h), Read(h, fault)];
    var begun := Step(w, calls[0]);
    assert calls[1..] == [Probe(h), Read(h, fault)] && calls[1..][1..] == [Read(h, fault)] && calls[1..][1..][1..] == [];
    assert begun == Go(w, h, Probing);
    var probed := Step(begun, Probe(h));
    assert Run(w, calls) == Run(probed, [Read(h, fault)]);
    assert Run(probed, [Read(h, fault)]) == Step(probed, Read(h, fault));
  }

  lemma EnterAlone<P>(w: Host<P>, h: nat, request: Request<P>, fault: Fault)
    requires At(w, h) == Idle
    ensures Step(Step(w, Begin(h, request)), TakeLock(h, fault)) == Entry(w, h, request, fault)
  {
    var x := Step(w, Begin(h, request));
    if request.Delete? || request.generation != 0 {
      assert x == Go(w, h, Asked(request));
      assert Step(x, TakeLock(h, fault)) == StepTakeLock(x, h, request, fault);
      assert forall q: Phase<P> {:trigger x.phases[h := q]} :: x.phases[h := q] == w.phases[h := q];
    }
  }

  lemma IdleIgnores<P>(w: Host<P>, h: nat, faults: Faults)
    requires At(w, h) == Idle
    ensures FinalCalls(w, h, faults) == w
  {
    assert Step(w, Examine(h, faults.at)) == w;
    assert Step(w, Stage(h, faults.at)) == w;
    assert Step(w, Swap(h, faults.at)) == w;
    assert Step(w, Sync(h, faults.at)) == w;
  }

  /** The owner's phase after examining and staging: the outcome is decided, or the change is ready. */
  function Examined<P>(file: Option<StoredRecord<P>>, request: Request<P>, fault: Fault): Phase<P> {
    if fault == ReadFails then Leaving(Failed(Unavailable)) else
      match request
      case Commit(_, _, expected) =>
        if RevisionOf(file) != expected then Leaving(Failed(Conflict))
        else if expected >= U64_MAX then Leaving(Failed(Unknown))
        else if fault == WriteFails then Leaving(Failed(PersistenceFailed))
        else Staged(request)
      case Delete(expected) =>
        if file.None? then Leaving(Removed(Missing))
        else if file.value.revision != expected then Leaving(Failed(Conflict))
        else Staged(request)
  }

  /** The host after the owner's rename or removal and directory sync. */
  function Replaced<P>(w: Host<P>, h: nat, request: Request<P>, fault: Fault): Host<P> {
    if fault == RenameFails then Go(w, h, Leaving(Failed(Unknown))) else
      match request
      case Commit(generation, payload, expected) =>
        var record := StoredRecord(expected + 1, generation, payload);
        Go(w.(file := Some(record), installs := w.installs + [Install(w.era, RevisionOf(w.file), record)]), h,
           Leaving(if fault == SyncFails then Failed(Unknown) else Committed(expected + 1)))
      case Delete(_) =>
        Go(w.(file := None, era := w.era + 1), h, Leaving(if fault == SyncFails then Failed(Unknown) else Removed(Deleted)))
  }

  function Decided<P>(w: Host<P>, h: nat, request: Request<P>, fault: Fault): (r: Host<P>)
    ensures At(r, h).Leaving?
  {
    var phase := Examined(w.file, request, fault);
    if phase.Leaving? then Go(w, h, phase) else Replaced(Go(w, h, phase), h, request, fault)
  }

  /** The decided outcome is the atomic request's. */
  lemma DecidedIsAtomic<P>(w: Host<P>, h: nat, request: Request<P>, faults: Faults)
    requires request.Commit? ==> request.generation != 0
    requires faults.at !in {DirectoryFails, LockFails, LockLeaks}
    ensures var n := Decided(w, h, request, faults.at);
      var (after, reply) := Atomically(FileState(w.file, false), request, faults);
      && n.file == after.record && At(n, h) == Leaving(reply) && after.locked == faults.lockStays
      && n.replies == w.replies
  {
  }

  function FinalCalls<P>(w: Host<P>, h: nat, faults: Faults): Host<P> {
    Step(Step(Step(Step(Step(w, Examine(h, faults.at)), Stage(h, faults.at)), Swap(h, faults.at)), Sync(h, faults.at)), Unlock(h, faults.lockStays))
  }

  /** The owner's remaining calls, without interference. */
  lemma FinishAlone<P>(w: Host<P>, h: nat, request: Request<P>, faults: Faults)
    requires At(w, h) == Entered(request)
    ensures FinalCalls(w, h, faults) == Left(Decided(w, h, request, faults.at), h, faults.lockStays)
  {
    ExamineAlone(w, h, request, faults.at);
    var x := Step(Step(w, Examine(h, faults.at)), Stage(h, faults.at));
    ReplaceAlone(x, h, request, faults.at);
    var y := Step(Step(x, Swap(h, faults.at)), Sync(h, faults.at));
    UnlockAlone(y, h, faults.lockStays);
  }

  lemma UnlockAlone<P>(w: Host<P>, h: nat, fails: bool)
    requires At(w, h).Leaving?
    ensures Step(w, Unlock(h, fails)) == Left(w, h, fails)
  {
  }

  lemma ExamineAlone<P>(w: Host<P>, h: nat, request: Request<P>, fault: Fault)
    requires At(w, h) == Entered(request)
    ensures Step(Step(w, Examine(h, fault)), Stage(h, fault)) == Go(w, h, Examined(w.file, request, fault))
  {
    var x := Step(w, Examine(h, fault));
    assert x == StepExamine(w, h, request, fault);
    assert forall q: Phase<P> {:trigger x.phases[h := q]} :: x.phases[h := q] == w.phases[h := q];
  }

  lemma ReplaceAlone<P>(w: Host<P>, h: nat, request: Request<P>, fault: Fault)
    requires At(w, h) == Staged(request) || At(w, h).Leaving?
    ensures Step(Step(w, Swap(h, fault)), Sync(h, fault)) == if At(w, h).Leaving? then w else Replaced(w, h, request, fault)
  {
    var x := Step(w, Swap(h, fault));
    if At(w, h) == Staged(request) {
      assert x == StepSwap(w, h, request, fault);
      if fault != RenameFails {
        assert Step(x, Sync(h, fault)) == StepSync(x, h, request, fault);
      }
    }
  }

  lemma RunSevenSteps<P>(w: Host<P>, calls: seq<Action<P>>)
    requires |calls| == 7
    ensures Run(w, calls) == Step(Step(Step(Step(Step(Step(Step(w, calls[0]), calls[1]), calls[2]), calls[3]), calls[4]), calls[5]), calls[6])
  {
    var w1 := Step(w, calls[0]);
    assert calls[1..][1..] == calls[2..];
    assert calls[2..][1..] == calls[3..];
    assert calls[3..][1..] == calls[4..];
    assert calls[4..][1..] == calls[5..];
    assert calls[5..][1..] == calls[6..];
    assert Run(w, calls) == Run(Step(w1, calls[1]), calls[2..]);
    var w3 := Step(Step(w1, calls[1]), calls[2]);
    assert Run(w, calls) == Run(w3, calls[3..]);
    var w5 := Step(Step(w3, calls[3]), calls[4]);
    assert Run(w, calls) == Run(w5, calls[5..]);
    assert Run(Step(w5, calls[5]), calls[6..]) == Run(Step(Step(w5, calls[5]), calls[6]), calls[6..][1..]);
  }
}
