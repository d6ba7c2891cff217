/** What the steps of one operation achieve on the record, the lock file and the flock, left undisturbed or not. */
module LockEffects {
  import opened Common
  import opened MutationLock
  import opened LockProofs
  import opened LockTheorems

  /** Only the holder and version of record `u` differ. */
  predicate OnlyHolder(s: State, t: State, u: Uid, holder: Option<OpId>) {
    && u in s.recs && u in t.recs && t.recs[u].holder == holder && t.recs[u].version == s.recs[u].version + 1
    && t.recs == s.recs[u := s.recs[u].(holder := holder, version := s.recs[u].version + 1)]
    && t.current == s.current
  }

  // ----- Acquiring -----

  /** The instance is there, is not being deleted and nobody holds it. */
  predicate Free(s: State, u: Uid) {
    s.current == Some(u) && u in s.recs && s.recs[u].live && !s.recs[u].deleting && s.recs[u].holder == None
  }

  function Acquisition(o: OpId, u: Uid, v: nat): seq<Event> {
    [Read(o), SendAcquire(o), Deliver(Patch(o, u, v, None, Some(o)), true), Receive(o)]
  }

  lemma AcquireSteps(s: State, o: OpId, u: Uid)
    requires Free(s, u) && o in s.ops && s.ops[o].phase == Polling && (s.ops[o].uid == None || s.ops[o].uid == Some(u))
    ensures var v := s.recs[u].version;
            var t := Next(Next(Next(Next(s, Read(o)), SendAcquire(o)), Deliver(Patch(o, u, v, None, Some(o)), true)), Receive(o));
            && o in t.ops && t.ops[o].phase == Body && t.ops[o].acquired && t.ops[o].uid == Some(u) && !t.ops[o].child
            && OnlyHolder(s, t, u, Some(o)) && t.files == s.files && t.locks == s.locks
            && forall x | x in s.ops && x != o :: x in t.ops && t.ops[x] == s.ops[x]
  {
    var v := s.recs[u].version;
    var p := Patch(o, u, v, None, Some(o));
    var s1 := Next(s, Read(o));
    assert s1.ops[o].phase == Observed(u, v, None);
    var s2 := Next(s1, SendAcquire(o));
    assert s2.ops[o].phase == Acquiring(p, Waiting) && p in s2.net && s2.recs == s.recs;
    var s3 := Next(s2, Deliver(p, true));
    assert s3.ops[o].phase == Acquiring(p, Accepted);
  }

  /** An operation that polls a free instance undisturbed enters its body and is the record's holder. */
  lemma AcquireEnters(s: State, o: OpId, u: Uid)
    requires Free(s, u) && o in s.ops && s.ops[o].phase == Polling && (s.ops[o].uid == None || s.ops[o].uid == Some(u))
    ensures var t := Run(s, Acquisition(o, u, s.recs[u].version));
            && o in t.ops && t.ops[o].phase == Body && t.ops[o].acquired && t.ops[o].uid == Some(u) && !t.ops[o].child
            && OnlyHolder(s, t, u, Some(o)) && t.files == s.files && t.locks == s.locks
            && forall x | x in s.ops && x != o :: x in t.ops && t.ops[x] == s.ops[x]
  {
    RunFour(s, Acquisition(o, u, s.recs[u].version));
    AcquireSteps(s, o, u);
  }

  /** At the version it was read at, record `u` is not being deleted. */
  predicate Unmarked(s: State, u: Uid, v: nat) {
    u in s.recs && s.recs[u].version == v ==> !s.recs[u].deleting
  }

  /** What operations have read, and acquire patches were computed from, was not being deleted. */
  ghost predicate ReadsUnmarked(s: State) {
    && (forall o {:trigger s.ops[o]} | o in s.ops && s.ops[o].phase.Observed? :: Unmarked(s, s.ops[o].phase.uid, s.ops[o].phase.version))
    && (forall p {:trigger p in s.net} | p in s.net && p.to.Some? :: Unmarked(s, p.uid, p.version))
  }

  /** A record keeps its mark or gains a version. */
  ghost predicate Marks(s: State, t: State) {
    forall u {:trigger u in t.recs} | u in s.recs ::
      u in t.recs && t.recs[u].version >= s.recs[u].version
      && (t.recs[u].version == s.recs[u].version ==> t.recs[u].deleting == s.recs[u].deleting)
  }

  predicate OwnStep(e: Event) {
    e.Start? || e.Flock? || e.Read? || e.GiveUp? || e.SendAcquire? || e.Spawn? || e.ChildExit? || e.Finish? || e.ReadRelease?
  }

  predicate ServerEvent(e: Event) {
    e.Deliver? || e.CreateRecord? || e.Touch? || e.MarkDeleting? || e.RemoveRecord?
  }

  lemma DeliveryMarks(s: State, p: Patch, heard: bool)
    ensures Marks(s, Next(s, Deliver(p, heard)))
  {
  }

  lemma ServerMarks(s: State, e: Event)
    requires e.CreateRecord? || e.Touch? || e.MarkDeleting? || e.RemoveRecord?
    ensures Marks(s, Next(s, e))
  {
    match e
    case CreateRecord(u) =>
    case Touch(u) =>
    case MarkDeleting(u) =>
    case RemoveRecord(u) =>
  }

  lemma OwnStepsLeaveRecords(s: State, e: Event)
    requires OwnStep(e)
    ensures Next(s, e).recs == s.recs
  {
  }

  lemma OthersLeaveRecords(s: State, e: Event)
    requires !OwnStep(e) && !ServerEvent(e)
    ensures Next(s, e).recs == s.recs
  {
  }

  lemma RecordsMark(s: State, e: Event)
    ensures Marks(s, Next(s, e))
  {
    if e.Deliver? { DeliveryMarks(s, e.p, e.heard); }
    else if ServerEvent(e) { ServerMarks(s, e); }
    else if OwnStep(e) { OwnStepsLeaveRecords(s, e); }
    else { OthersLeaveRecords(s, e); }
  }

  lemma UnmarkedStays(s: State, t: State, u: Uid, v: nat)
    requires Marks(s, t) && Unmarked(s, u, v) && u in s.recs && v <= s.recs[u].version
    ensures Unmarked(t, u, v)
  {
  }

  predicate Observes(s: State, e: Event, o: OpId) {
    var t := Next(s, e);
    o in t.ops && t.ops[o].phase.Observed? && !(o in s.ops && s.ops[o].phase == t.ops[o].phase)
  }

  lemma EarlyStepsDoNotObserve(s: State, e: Event, o: OpId)
    requires e.Start? || e.Flock? || e.GiveUp? || e.SendAcquire?
    ensures !Observes(s, e, o)
  {
  }

  lemma LateStepsDoNotObserve(s: State, e: Event, o: OpId)
    requires e.Spawn? || e.ChildExit? || e.Finish?
    ensures !Observes(s, e, o)
  {
  }

  lemma ReleaseDoesNotObserve(s: State, x: OpId, o: OpId)
    ensures !Observes(s, ReadRelease(x), o)
  {
  }

  lemma RecoveryDoesNotObserve(s: State, e: Event, o: OpId)
    requires e.OpenOwner? || e.TryLock? || e.SendClear? || e.UnlinkOwner?
    ensures !Observes(s, e, o)
  {
  }

  lemma EndsDoNotObserve(s: State, e: Event, o: OpId)
    requires e.Unlink? || e.Close? || e.Crash?
    ensures !Observes(s, e, o)
  {
  }

  lemma ReplyPhase(s: State, x: OpId)
    requires x in s.ops
    ensures var t := ReceiveReply(s, x);
            x in t.ops && (t.ops[x] == s.ops[x] || !t.ops[x].phase.Observed?) && t.ops == s.ops[x := t.ops[x]]
  {
    match s.ops[x].phase
    case Acquiring(_, _) =>
    case Clearing(_, _) =>
    case Recovering(_, _) =>
    case _ => assert ReceiveReply(s, x) == s;
  }

  lemma ReceiptDoesNotObserve(s: State, x: OpId, o: OpId)
    ensures !Observes(s, Receive(x), o)
  {
    if x in s.ops { ReplyPhase(s, x); }
  }

  lemma TimeoutDoesNotObserve(s: State, x: OpId, o: OpId)
    ensures !Observes(s, Timeout(x), o)
  {
  }

  lemma ServerDoesNotObserve(s: State, e: Event, o: OpId)
    requires e.Lose? || ServerEvent(e)
    ensures !Observes(s, e, o)
  {
  }

  /** A new observation is of the current record, which was not being deleted. */
  lemma NewReads(s: State, e: Event, o: OpId)
    requires Observes(s, e, o)
    ensures var t := Next(s, e); t.recs == s.recs && Unmarked(t, t.ops[o].phase.uid, t.ops[o].phase.version)
  {
    if e.Receive? { ReceiptDoesNotObserve(s, e.o, o); }
    else if e.Timeout? { TimeoutDoesNotObserve(s, e.o, o); }
    else if e.Lose? || ServerEvent(e) { ServerDoesNotObserve(s, e, o); }
    else if e.Unlink? || e.Close? || e.Crash? { EndsDoNotObserve(s, e, o); }
    else if !OwnStep(e) { RecoveryDoesNotObserve(s, e, o); }
    else if e.Start? || e.Flock? || e.GiveUp? || e.SendAcquire? { EarlyStepsDoNotObserve(s, e, o); }
    else if e.ReadRelease? { ReleaseDoesNotObserve(s, e.o, o); }
    else if !e.Read? { LateStepsDoNotObserve(s, e, o); }
  }

  lemma QuietStepsSendNothing(s: State, e: Event)
    requires OwnStep(e) && !e.SendAcquire? && !e.ReadRelease?
    ensures Next(s, e).net == s.net
  {
  }

  lemma OthersAcquireNothing(s: State, e: Event, p: Patch)
    requires !OwnStep(e) && p in Next(s, e).net && p.to.Some?
    ensures p in s.net
  {
  }

  lemma NewPatches(s: State, e: Event, p: Patch)
    requires p in Next(s, e).net && p !in s.net && p.to.Some?
    ensures e == SendAcquire(p.sender) && Next(s, e).recs == s.recs && p.sender in s.ops
            && s.ops[p.sender].phase == Observed(p.uid, p.version, None)
  {
    if !OwnStep(e) { OthersAcquireNothing(s, e, p); }
    else if !e.SendAcquire? && !e.ReadRelease? { QuietStepsSendNothing(s, e); }
  }

  lemma ReadsStep(s: State, e: Event)
    requires Inv(s) && ReadsUnmarked(s)
    ensures ReadsUnmarked(Next(s, e))
  {
    var t := Next(s, e);
    RecordsMark(s, e);
    forall o | o in t.ops && t.ops[o].phase.Observed? ensures Unmarked(t, t.ops[o].phase.uid, t.ops[o].phase.version) {
      if o in s.ops && s.ops[o].phase == t.ops[o].phase {
        assert OpOk(s, o);
        UnmarkedStays(s, t, t.ops[o].phase.uid, t.ops[o].phase.version);
      } else {
        NewReads(s, e, o);
      }
    }
    forall p | p in t.net && p.to.Some? ensures Unmarked(t, p.uid, p.version) {
      if p in s.net {
        assert PatchOk(s, p);
        UnmarkedStays(s, t, p.uid, p.version);
      } else {
        NewPatches(s, e, p);
      }
    }
  }

  lemma {:induction false} ReadsRun(s: State, events: seq<Event>)
    requires Inv(s) && ReadsUnmarked(s)
    ensures ReadsUnmarked(Run(s, events))
    decreases |events|
  {
    if events != [] {
      NextKeeps(s, events[0]);
      ReadsStep(s, events[0]);
      ReadsRun(Next(s, events[0]), events[1..]);
    }
  }

  /**
   A patch that grants the lock finds the instance free: nobody holds the record, nobody is deleting
   it, and it is the one its sender pinned.
   */
  lemma GrantsOnlyFree(events: seq<Event>, p: Patch)
    requires var s := Run(Initial, events); p in s.net && p.to.Some? && Matches(s, p)
    ensures var s := Run(Initial, events);
            Free(s, p.uid) && p.sender in s.ops && s.ops[p.sender].uid == Some(p.uid) && p.to == Some(p.sender)
  {
    var s := Run(Initial, events);
    RunKeeps(Initial, events);
    ReadsRun(Initial, events);
    assert PatchOk(s, p) && RecordOk(s, p.uid) && Unmarked(s, p.uid, p.version);
  }

  /** An absent, terminating or replaced instance ends the operation: no patch, no record changed, no file left. */
  lemma RefusesReplaced(events: seq<Event>, o: OpId)
    requires var s := Run(Initial, events);
             && o in s.ops && s.ops[o].phase == Polling && !s.ops[o].uncertain && !s.ops[o].acquired
             && (s.current == None || (s.current.value in s.recs && s.recs[s.current.value].deleting)
                 || (s.ops[o].uid.Some? && s.ops[o].uid != s.current))
    ensures var s := Run(Initial, events);
            var t := Run(s, [Read(o), Close(o)]);
            t.recs == s.recs && t.net == s.net && o in t.ops && t.ops[o].phase == Gone && t.files == s.files - {o} && o !in t.locks
  {
    var s := Run(Initial, events);
    RunKeeps(Initial, events);
    var s1 := Next(s, Read(o));
    assert s1.ops[o].phase == Leaving;
    RunStep(s, Read(o), [Close(o)]);
    RunStep(s1, Close(o), []);
    assert [Read(o)] + [Close(o)] == [Read(o), Close(o)] && [Close(o)] + [] == [Close(o)];
  }

  /** An acquire patch that lost a race polls again, and enters if the instance is free then. */
  lemma AcquireRetries(s: State, o: OpId, u: Uid)
    requires o in s.ops && s.ops[o].phase.Acquiring? && s.ops[o].phase.reply == Conflict && s.ops[o].uid == Some(u) && Free(s, u)
    ensures var t := Run(s, [Receive(o)] + Acquisition(o, u, s.recs[u].version));
            o in t.ops && t.ops[o].phase == Body && t.ops[o].acquired && OnlyHolder(s, t, u, Some(o))
  {
    var s1 := Next(s, Receive(o));
    assert s1.ops[o].phase == Polling && s1.recs == s.recs && s1.current == s.current;
    RunStep(s, Receive(o), Acquisition(o, u, s.recs[u].version));
    AcquireEnters(s1, o, u);
  }

  /** Nothing but what the operation itself remembers of the record has changed, and it polls on. */
  predicate PollsOn(s: State, t: State, o: OpId) {
    && t.recs == s.recs && t.net == s.net && t.files == s.files && t.locks == s.locks && o in s.ops && o in t.ops
    && t.ops == s.ops[o := s.ops[o].(uid := t.ops[o].uid)]
  }

  /** The instance is there and somebody else holds it. */
  predicate HeldBy(s: State, o: OpId, u: Uid, a: OpId) {
    && s.current == Some(u) && u in s.recs && !s.recs[u].deleting && s.recs[u].holder == Some(a)
    && o in s.ops && s.ops[o].phase == Polling && (s.ops[o].uid == None || s.ops[o].uid == Some(u))
  }

  /** A holder on another workstation, or without a lock file here, is waited for. */
  lemma RemoteHolderIsAwaited(s: State, o: OpId, u: Uid, a: OpId)
    requires HeldBy(s, o, u, a) && (a !in s.files || a !in s.ops || s.ops[a].host != s.ops[o].host)
    ensures PollsOn(s, Run(s, [Read(o)] + [OpenOwner(o)]), o)
  {
    var v := s.recs[u].version;
    var s1 := s.(ops := s.ops[o := s.ops[o].(uid := Some(u), phase := Observed(u, v, Some(a)))]);
    ReadHeld(s, o, u, a);
    RunStep(s, Read(o), [OpenOwner(o)]);
    RunStep(s1, OpenOwner(o), []);
    assert [OpenOwner(o)] + [] == [OpenOwner(o)];
    OpenAway(s1, o, u, v, a);
  }

  lemma OpenAway(s: State, o: OpId, u: Uid, v: nat, a: OpId)
    requires o in s.ops && s.ops[o].phase == Observed(u, v, Some(a))
    requires a !in s.files || a !in s.ops || s.ops[a].host != s.ops[o].host
    ensures Next(s, OpenOwner(o)) == SetPhase(s, o, Polling)
  {
  }

  /** So is a holder on this workstation whose lock file is locked: it, or a process it started, is alive. */
  lemma LiveHolderIsAwaited(s: State, o: OpId, u: Uid, a: OpId)
    requires HeldBy(s, o, u, a) && a in s.files && a in s.ops && s.ops[a].host == s.ops[o].host && a in s.locks
    ensures PollsOn(s, Run(s, [Read(o), OpenOwner(o), TryLock(o)]), o)
  {
    RunThree(s, [Read(o), OpenOwner(o), TryLock(o)]);
    var v := s.recs[u].version;
    var s1 := s.(ops := s.ops[o := s.ops[o].(uid := Some(u), phase := Observed(u, v, Some(a)))]);
    ReadHeld(s, o, u, a);
    OpenHere(s1, o, u, v, a);
    LockedOwner(SetPhase(s1, o, OwnerOpen(u, v, a)), o, u, v, a);
  }

  lemma OpenHere(s: State, o: OpId, u: Uid, v: nat, a: OpId)
    requires o in s.ops && s.ops[o].phase == Observed(u, v, Some(a)) && a in s.files && a in s.ops && s.ops[a].host == s.ops[o].host
    ensures Next(s, OpenOwner(o)) == SetPhase(s, o, OwnerOpen(u, v, a))
  {
  }

  lemma ReadHeld(s: State, o: OpId, u: Uid, a: OpId)
    requires HeldBy(s, o, u, a)
    ensures Next(s, Read(o)) == s.(ops := s.ops[o := s.ops[o].(uid := Some(u), phase := Observed(u, s.recs[u].version, Some(a)))])
  {
  }

  lemma LockedOwner(s: State, o: OpId, u: Uid, v: nat, a: OpId)
    requires o in s.ops && s.ops[o].phase == OwnerOpen(u, v, a) && a in s.locks
    ensures Next(s, TryLock(o)) == SetPhase(s, o, Polling)
  {
  }

  // ----- Releasing -----

  function Release(o: OpId, u: Uid, v: nat): seq<Event> {
    [ReadRelease(o), Deliver(Patch(o, u, v, Some(o), None), true), Receive(o), Unlink(o)]
  }

  lemma ReleaseSteps(s: State, o: OpId, u: Uid)
    requires o in s.ops && s.ops[o].phase == Releasing && s.ops[o].uid == Some(u)
    requires s.current == Some(u) && u in s.recs && s.recs[u].live && s.recs[u].holder == Some(o)
    ensures var p := Patch(o, u, s.recs[u].version, Some(o), None);
            var t := Next(Next(Next(Next(s, ReadRelease(o)), Deliver(p, true)), Receive(o)), Unlink(o));
            && OnlyHolder(s, t, u, None) && t.files == s.files - {o} && t.locks == s.locks
            && o in t.ops && t.ops[o].phase == Leaving && t.ops[o].acquired == s.ops[o].acquired
  {
    var p := Patch(o, u, s.recs[u].version, Some(o), None);
    var s1 := Next(s, ReadRelease(o));
    assert s1.ops[o].phase == Clearing(p, Waiting) && p in s1.net && s1.recs == s.recs;
    var s2 := Next(s1, Deliver(p, true));
    assert s2.ops[o].phase == Clearing(p, Accepted);
    UnlinkSteps(s2, o, p);
  }

  lemma UnlinkSteps(s: State, o: OpId, p: Patch)
    requires o in s.ops && s.ops[o].phase == Clearing(p, Accepted)
    ensures var t := Next(Next(s, Receive(o)), Unlink(o));
            && t.recs == s.recs && t.current == s.current && t.files == s.files - {o} && t.locks == s.locks
            && o in t.ops && t.ops[o].phase == Leaving && t.ops[o].acquired == s.ops[o].acquired
  {
    assert Next(s, Receive(o)).ops[o].phase == Unlinking;
  }

  lemma ReleaseRun(s: State, o: OpId, u: Uid)
    requires o in s.ops && s.ops[o].phase == Releasing && s.ops[o].uid == Some(u)
    requires s.current == Some(u) && u in s.recs && s.recs[u].live && s.recs[u].holder == Some(o)
    ensures var t := Run(s, Release(o, u, s.recs[u].version));
            && OnlyHolder(s, t, u, None) && t.files == s.files - {o} && t.locks == s.locks
            && o in t.ops && t.ops[o].phase == Leaving && t.ops[o].acquired == s.ops[o].acquired
  {
    RunFour(s, Release(o, u, s.recs[u].version));
    ReleaseSteps(s, o, u);
  }

  /** In every reachable state an operation that is releasing frees its record and removes its lock file. */
  lemma ReleaseFrees(events: seq<Event>, o: OpId, u: Uid)
    requires var s := Run(Initial, events);
             o in s.ops && s.ops[o].phase == Releasing && s.ops[o].uid == Some(u) && s.current == Some(u)
    ensures var s := Run(Initial, events);
            && u in s.recs && s.recs[u].holder == Some(o)
            && var t := Run(s, Release(o, u, s.recs[u].version));
               && OnlyHolder(s, t, u, None) && t.recs[u].holder == None && t.files == s.files - {o}
               && o in t.ops && t.ops[o].phase == Leaving
  {
    var s := Run(Initial, events);
    RunKeeps(Initial, events);
    assert OpOk(s, o);
    ReleaseRun(s, o, u);
  }

  /** A release that lost a race on the version reads again and frees the record then. */
  lemma ReleaseRetries(events: seq<Event>, o: OpId, u: Uid)
    requires var s := Run(Initial, events);
             && o in s.ops && s.ops[o].phase.Clearing? && s.ops[o].phase.reply == Conflict
             && s.ops[o].uid == Some(u) && s.current == Some(u)
    ensures var s := Run(Initial, events);
            && u in s.recs && s.recs[u].holder == Some(o)
            && var t := Run(s, [Receive(o)] + Release(o, u, s.recs[u].version));
               OnlyHolder(s, t, u, None) && t.files == s.files - {o}
  {
    var s := Run(Initial, events);
    RunKeeps(Initial, events);
    assert OpOk(s, o);
    RetrySteps(s, o, u);
  }

  lemma RetrySteps(s: State, o: OpId, u: Uid)
    requires o in s.ops && s.ops[o].phase.Clearing? && s.ops[o].phase.reply == Conflict && s.ops[o].uid == Some(u)
    requires s.current == Some(u) && u in s.recs && s.recs[u].live && s.recs[u].holder == Some(o)
    ensures var t := Run(s, [Receive(o)] + Release(o, u, s.recs[u].version));
            OnlyHolder(s, t, u, None) && t.files == s.files - {o}
  {
    var t := s.(ops := s.ops[o := s.ops[o].(child := false, phase := Releasing)]);
    assert Next(s, Receive(o)) == t;
    RunStep(s, Receive(o), Release(o, u, s.recs[u].version));
    ReleaseRun(t, o, u);
  }

  /** A release patch whose record moved on is refused: the sender hears a conflict and nothing changes. */
  lemma StaleReleaseConflicts(s: State, o: OpId, p: Patch)
    requires o in s.ops && s.ops[o].phase == Clearing(p, Waiting) && p in s.net && p.sender == o
    requires p.uid in s.recs && s.recs[p.uid].version != p.version
    ensures var t := Next(s, Deliver(p, true));
            t.recs == s.recs && o in t.ops && t.ops[o].phase == Clearing(p, Conflict)
  {
  }

  /** The record of a deleted or replaced instance is left alone; only the lock file goes. */
  lemma ReleaseOfReplaced(s: State, o: OpId)
    requires o in s.ops && s.ops[o].phase == Releasing && s.current != s.ops[o].uid
    ensures var t := Run(s, [ReadRelease(o), Unlink(o)]);
            t.recs == s.recs && t.net == s.net && t.files == s.files - {o} && o in t.ops && t.ops[o].phase == Leaving
  {
    var s1 := Next(s, ReadRelease(o));
    assert s1.ops[o].phase == Unlinking;
    RunStep(s, ReadRelease(o), [Unlink(o)]);
    RunStep(s1, Unlink(o), []);
    assert [ReadRelease(o)] + [Unlink(o)] == [ReadRelease(o), Unlink(o)] && [Unlink(o)] + [] == [Unlink(o)];
  }

  /** The outer `finally` of an operation that had acquired: its file is gone or kept already. */
  lemma CloseStep(s: State, o: OpId)
    requires o in s.ops && s.ops[o].phase == Leaving && s.ops[o].acquired
    ensures Run(s, [Close(o)]) == SetPhase(s, o, Gone).(locks := s.locks - {o})
  {
    RunStep(s, Close(o), []);
    assert [Close(o)] + [] == [Close(o)];
  }

  /** A release that gives up leaves the record and the lock file as they are, for a later recovery to find. */
  lemma AbandonedReleaseIsRecoverable(s: State, o: OpId)
    requires o in s.ops && s.ops[o].phase == Releasing && s.ops[o].acquired
    ensures var t := Run(s, [GiveUp(o), Close(o)]);
            t.recs == s.recs && t.files == s.files && o !in t.locks && o in t.ops && t.ops[o].phase == Gone
  {
    var s1 := Next(s, GiveUp(o));
    RunStep(s, GiveUp(o), [Close(o)]);
    CloseStep(s1, o);
    assert [GiveUp(o)] + [Close(o)] == [GiveUp(o), Close(o)];
  }

  /** A process that dies in its body while a subprocess runs is still inside, flock and all, until that ends too. */
  lemma CrashedBodyStaysInside(events: seq<Event>, o: OpId)
    requires var s := Run(Initial, events); o in s.ops && s.ops[o].phase == Body && s.ops[o].child
    ensures var s := Run(Initial, events);
            var t := Next(s, Crash(o));
            var z := Next(t, ChildExit(o));
            && o in t.ops && Inside(t.ops[o]) && o in t.locks && t.locks[o] == o && t.recs == s.recs
            && o in z.ops && Dead(z.ops[o]) && o !in z.locks && z.recs == s.recs
  {
    var s := Run(Initial, events);
    RunKeeps(Initial, events);
    assert OpOk(s, o);
  }

  // ----- Holding -----

  function Opening(o: OpId, host: Host): seq<Event> {
    [Start(o, host, None), Flock(o)]
  }

  lemma OpenSteps(s: State, o: OpId, host: Host)
    requires o !in s.ops && o !in s.locks
    ensures var t := Run(s, Opening(o, host));
            && o in t.ops && t.ops[o].phase == Polling && t.ops[o].uid == None
            && t.recs == s.recs && t.current == s.current && t.files == s.files + {o} && t.locks == s.locks[o := o]
            && forall x | x in s.ops :: x in t.ops && t.ops[x] == s.ops[x]
  {
    var s1 := Next(s, Start(o, host, None));
    RunStep(s, Start(o, host, None), [Flock(o)]);
    RunStep(s1, Flock(o), []);
    assert [Start(o, host, None)] + [Flock(o)] == Opening(o, host) && [Flock(o)] + [] == [Flock(o)];
  }

  /** The end of a body. */
  lemma FinishStep(s: State, o: OpId)
    requires o in s.ops && s.ops[o].phase == Body && !s.ops[o].child
    ensures Run(s, [Finish(o)]) == SetPhase(s, o, Releasing)
  {
    RunStep(s, Finish(o), []);
    assert [Finish(o)] + [] == [Finish(o)];
  }

  function Leave(o: OpId, u: Uid, v: nat): seq<Event> {
    [Finish(o)] + (Release(o, u, v) + [Close(o)])
  }

  /** From its body to the end of its release and its closed stream. */
  lemma LeaveSteps(s: State, o: OpId, u: Uid)
    requires o in s.ops && s.ops[o].phase == Body && !s.ops[o].child && s.ops[o].acquired && s.ops[o].uid == Some(u)
    requires s.current == Some(u) && u in s.recs && s.recs[u].live && s.recs[u].holder == Some(o)
    ensures var t := Run(s, Leave(o, u, s.recs[u].version));
            && OnlyHolder(s, t, u, None) && t.files == s.files - {o} && t.locks == s.locks - {o}
            && o in t.ops && t.ops[o].phase == Gone
  {
    var v := s.recs[u].version;
    var release, close := Release(o, u, v), [Close(o)];
    FinishStep(s, o);
    RunSplit(s, [Finish(o)], release + close);
    var s1 := Run(s, [Finish(o)]);
    ReleaseRun(s1, o, u);
    RunSplit(s1, release, close);
    CloseStep(Run(s1, release), o);
  }

  lemma HoldSteps(s: State, o: OpId, host: Host, u: Uid)
    requires o !in s.ops && o !in s.files && o !in s.locks && Free(s, u)
    ensures var v := s.recs[u].version;
            var body := Run(s, Opening(o, host) + Acquisition(o, u, v));
            && o in body.ops && body.ops[o].phase == Body && !body.ops[o].child && body.ops[o].acquired && body.ops[o].uid == Some(u)
            && OnlyHolder(s, body, u, Some(o)) && body.files == s.files + {o} && body.locks == s.locks[o := o]
  {
    var v := s.recs[u].version;
    OpenSteps(s, o, host);
    RunSplit(s, Opening(o, host), Acquisition(o, u, v));
    AcquireEnters(Run(s, Opening(o, host)), o, u);
  }

  lemma TwoPatches(s: State, body: State, t: State, u: Uid, o: OpId)
    requires Free(s, u) && OnlyHolder(s, body, u, Some(o)) && OnlyHolder(body, t, u, None)
    ensures Free(t, u) && t.recs == s.recs[u := s.recs[u].(version := s.recs[u].version + 2)]
  {
  }

  /** One whole undisturbed `hold` from any state in which the operation is new. */
  lemma HoldFrom(s: State, o: OpId, host: Host, u: Uid)
    requires o !in s.ops && o !in s.files && o !in s.locks && Free(s, u)
    ensures var v := s.recs[u].version;
            var body := Run(s, Opening(o, host) + Acquisition(o, u, v));
            var t := Run(body, Leave(o, u, v + 1));
            && o in body.ops && body.ops[o].phase == Body && Holds(body, u, o) && o in body.files && o in body.locks
            && Free(t, u) && t.recs == s.recs[u := s.recs[u].(version := v + 2)]
            && t.files == s.files && t.locks == s.locks
  {
    var v := s.recs[u].version;
    var body := Run(s, Opening(o, host) + Acquisition(o, u, v));
    HoldSteps(s, o, host, u);
    LeaveSteps(body, o, u);
    TwoPatches(s, body, Run(body, Leave(o, u, v + 1)), u, o);
  }

  lemma FreshFlock(events: seq<Event>, o: OpId)
    requires o !in Run(Initial, events).ops
    ensures o !in Run(Initial, events).locks
  {
    var s := Run(Initial, events);
    RunKeeps(Initial, events);
    assert o in s.locks ==> LockOk(s, o);
  }

  /** One whole undisturbed `hold`: nothing but the record's version is different afterwards. */
  lemma HoldIsClean(events: seq<Event>, o: OpId, host: Host, u: Uid)
    requires var s := Run(Initial, events); o !in s.ops && o !in s.files && Free(s, u)
    ensures var s := Run(Initial, events);
            var v := s.recs[u].version;
            var body := Run(s, Opening(o, host) + Acquisition(o, u, v));
            var t := Run(body, Leave(o, u, v + 1));
            && o in body.ops && body.ops[o].phase == Body && Holds(body, u, o) && o in body.files && o in body.locks
            && Free(t, u) && t.recs == s.recs[u := s.recs[u].(version := v + 2)]
            && t.files == s.files && t.locks == s.locks
  {
    FreshFlock(events, o);
    HoldFrom(Run(Initial, events), o, host, u);
  }
}
