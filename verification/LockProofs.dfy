/** Proof that every step of the mutation lock keeps `MutationLock.Inv`. */
module LockProofs {
  import opened Common
  import opened MutationLock

  /** `t` follows `s` by a step of operation `o` that leaves the records alone. */
  ghost predicate Local(s: State, t: State, o: OpId) {
    && t.recs == s.recs && t.current == s.current
    && t.ops.Keys == s.ops.Keys + {o}
    && (forall x <- s.ops :: x != o ==> t.ops[x] == s.ops[x])
    && (o in s.ops ==> Evolves(s.ops[o], t.ops[o]))
    && (forall p <- s.net :: p.sender != o ==> p in t.net)
    && (forall p <- t.net :: p.sender != o ==> p in s.net)
    && (forall x <- s.ops :: x != o ==> LockKept(s, t, x))
    && (forall a <- t.locks :: t.locks[a] != o ==> a in s.locks && s.locks[a] == t.locks[a])
    && (forall a <- t.locks :: t.locks[a] == o && a != o ==>
          a in s.ops && !s.ops[a].phase.Opened? && Pinned(t.ops[o].phase) == Some(a))
    && (o in t.locks ==> !t.ops[o].phase.Opened?)
    && (o in t.locks && t.locks[o] == o ==> StreamOpen(t.ops[o]) || t.ops[o].child)
    && (forall x <- s.files :: x != o && x !in t.files ==> Released(s, x) && Dead(s.ops[x]))
    && (o in s.ops && s.ops[o].granted && o in s.files && o !in t.files ==> Released(s, o))
  }

  predicate Evolves(before: Op, after: Op) {
    && after.granted == before.granted
    && (before.uid.Some? ==> after.uid == before.uid)
    && (Dead(before) ==> Dead(after))
  }

  predicate LockKept(s: State, t: State, x: OpId)
    requires x in s.ops
  {
    && (x in s.locks && s.locks[x] == x ==> x in t.locks && t.locks[x] == x)
    && (s.ops[x].phase.Opened? && x !in s.locks ==> x !in t.locks)
  }

  /** The server applied x's acquire patch and x no longer holds a live record. */
  predicate Released(s: State, x: OpId) {
    && x in s.ops && s.ops[x].granted && s.ops[x].uid.Some?
    && !(Holds(s, s.ops[x].uid.value, x) && s.recs[s.ops[x].uid.value].live)
  }

  lemma LocalOp(s: State, t: State, o: OpId, x: OpId)
    requires Inv(s) && Local(s, t, o) && x in s.ops && x != o
    ensures OpOk(t, x)
  {
    assert OpOk(s, x);
    assert LockKept(s, t, x);
    assert t.ops[x] == s.ops[x];
    assert PhaseOk(t, x);
  }

  /** What a patch already on the wire needs from its own sender's step. */
  predicate PatchesKept(s: State, t: State, o: OpId) {
    o in s.ops && o in t.ops && PatchPossible(s.ops[o].phase) && !SolePatchDecided(s, t, o) ==>
      && (t.ops[o].phase == s.ops[o].phase || t.ops[o].phase.Leaving? || t.ops[o].phase.Gone?)
      && t.ops[o].uncertain == s.ops[o].uncertain
      && (o in s.files && o !in t.files ==> !s.ops[o].uncertain)
  }

  /** The patch the operation was waiting for, its only one, has been delivered or lost. */
  predicate SolePatchDecided(s: State, t: State, o: OpId)
    requires o in s.ops
  {
    var phase := s.ops[o].phase;
    (phase.Acquiring? || phase.Clearing? || phase.Recovering?) && phase.patch !in t.net
  }

  predicate PatchPossible(phase: Phase) {
    || phase.Leaving? || phase.Gone?
    || ((phase.Acquiring? || phase.Clearing? || phase.Recovering?) && phase.reply == Waiting)
  }

  lemma LocalPatch(s: State, t: State, o: OpId, p: Patch)
    requires Inv(s) && Local(s, t, o) && p in s.net && p in t.net
    requires PatchesKept(s, t, o)
    ensures PatchOk(t, p)
  {
    assert PatchOk(s, p);
    assert p.to.Some? && p.sender !in t.files ==> Released(s, p.sender);
  }

  lemma LocalRecord(s: State, t: State, o: OpId, u: Uid)
    requires Inv(s) && Local(s, t, o) && u in s.recs
    ensures RecordOk(t, u)
  {
    assert RecordOk(s, u);
    assert t.recs[u].holder.Some? ==> Holds(s, u, t.recs[u].holder.value);
  }

  lemma LocalKeeps(s: State, t: State, o: OpId)
    requires Inv(s) && Local(s, t, o)
    requires OpOk(t, o)
    requires PatchesKept(s, t, o)
    requires forall p {:trigger PatchOk(t, p)} | p in t.net && p !in s.net :: PatchOk(t, p)
    requires forall p, q | p in t.net && q in t.net && p.sender == q.sender :: p == q
    ensures Inv(t)
  {
    forall u <- t.recs ensures RecordOk(t, u) { LocalRecord(s, t, o, u); }
    forall a <- t.locks ensures LockOk(t, a) {
      assert a in s.locks ==> LockOk(s, a);
    }
    forall x <- t.ops ensures OpOk(t, x) {
      if x != o { LocalOp(s, t, o, x); }
    }
    forall p <- t.net ensures PatchOk(t, p) {
      if p in s.net { LocalPatch(s, t, o, p); }
    }
  }

  /** A local step that puts nothing on the wire. */
  lemma QuietKeeps(s: State, t: State, o: OpId)
    requires Inv(s) && Local(s, t, o) && t.net == s.net && o in t.ops && OpOk(t, o) && PatchesKept(s, t, o)
    ensures Inv(t)
  {
    LocalKeeps(s, t, o);
  }

  /** What the lock files locked by operation `o` tell about their own operations. */
  ghost predicate OwnLocks(s: State, o: OpId) {
    forall a <- s.locks :: s.locks[a] == o ==>
      && a in s.ops && !s.ops[a].phase.Opened? && o in s.ops
      && (a != o ==> Pinned(s.ops[o].phase) == Some(a))
      && (a == o ==> StreamOpen(s.ops[o]) || s.ops[o].child)
  }

  lemma LocksOf(s: State, o: OpId)
    requires Inv(s)
    ensures OwnLocks(s, o)
  {
    forall a <- s.locks | s.locks[a] == o
      ensures a in s.ops && !s.ops[a].phase.Opened? && o in s.ops
      ensures a != o ==> Pinned(s.ops[o].phase) == Some(a)
      ensures a == o ==> StreamOpen(s.ops[o]) || s.ops[o].child
    {
      assert LockOk(s, a);
    }
  }

  lemma NoOwnPatch(s: State, o: OpId)
    requires Inv(s) && o in s.ops && !PatchPossible(s.ops[o].phase)
    ensures forall p | p in s.net :: p.sender != o
  {
    forall p | p in s.net ensures p.sender != o {
      assert PatchOk(s, p);
    }
  }

  /** A step that changes nothing but one operation's own fields and its patches on the wire. */
  lemma FieldsLocal(s: State, o: OpId, op: Op, net: set<Patch>, t: State)
    requires o in s.ops && Evolves(s.ops[o], op) && OwnLocks(s, o) && t == s.(ops := s.ops[o := op], net := net)
    requires o in s.locks ==> !op.phase.Opened?
    requires Pinned(op.phase) == Pinned(s.ops[o].phase)
    requires StreamOpen(s.ops[o]) || s.ops[o].child ==> StreamOpen(op) || op.child
    requires forall q: Patch | q.sender != o :: q in net <==> q in s.net
    ensures Local(s, t, o)
  {
  }

  /** A step that changes nothing but one operation's own fields. */
  lemma FieldsKeep(s: State, o: OpId, op: Op)
    requires Inv(s) && o in s.ops && Evolves(s.ops[o], op)
    requires op.phase.Opened? ==> s.ops[o].phase.Opened?
    requires Pinned(op.phase) == Pinned(s.ops[o].phase)
    requires StreamOpen(s.ops[o]) || s.ops[o].child ==> StreamOpen(op) || op.child
    requires var t := s.(ops := s.ops[o := op]); OpOk(t, o) && PatchesKept(s, t, o)
    ensures Inv(s.(ops := s.ops[o := op]))
  {
    LocksOf(s, o);
    assert o in s.locks ==> LockOk(s, o);
    LocalKeeps(s, s.(ops := s.ops[o := op]), o);
  }

  /** A recoverer that stops recovering closes the stale holder's lock stream. */
  lemma UnlockKeeps(s: State, o: OpId, op: Op)
    requires Inv(s) && o in s.ops && s.ops[o].phase.Recovering? && Evolves(s.ops[o], op)
    requires op.phase.Leaving? || (op.phase.Polling? && s.ops[o].phase.reply != Waiting)
    requires !op.child && op.uncertain == (s.ops[o].uncertain && op.phase.Leaving?)
    requires op.acquired == s.ops[o].acquired && op.host == s.ops[o].host
    ensures Inv(Unlock(s.(ops := s.ops[o := op]), o, s.ops[o].phase.patch))
  {
    var t := Unlock(s.(ops := s.ops[o := op]), o, s.ops[o].phase.patch);
    assert OpOk(s, o);
    LocksOf(s, o);
    assert OpOk(t, o);
    UnlockLocal(s, o, op, t);
    QuietKeeps(s, t, o);
  }

  lemma UnlockLocal(s: State, o: OpId, op: Op, t: State)
    requires o in s.ops && s.ops[o].phase.Recovering? && Evolves(s.ops[o], op) && OwnLocks(s, o) && OpOk(s, o)
    requires op.phase.Leaving? || op.phase.Polling?
    requires t == Unlock(s.(ops := s.ops[o := op]), o, s.ops[o].phase.patch)
    ensures Local(s, t, o)
  {
  }

  lemma StartKeeps(s: State, o: OpId, host: Host, uid: Option<Uid>)
    requires Inv(s)
    ensures Inv(Next(s, Event.Start(o, host, uid)))
  {
    if o !in s.ops {
      var t := Next(s, Event.Start(o, host, uid));
      assert o in s.locks ==> LockOk(s, o);
      LocksOf(s, o);
      assert OpOk(t, o);
      assert Local(s, t, o);
      LocalKeeps(s, t, o);
    }
  }

  lemma FlockKeeps(s: State, o: OpId)
    requires Inv(s)
    ensures Inv(Next(s, Event.Flock(o)))
  {
    if o in s.ops && s.ops[o].phase == Opened {
      var t := Next(s, Event.Flock(o));
      assert OpOk(s, o);
      LocksOf(s, o);
      assert OpOk(t, o);
      assert Local(s, t, o);
      LocalKeeps(s, t, o);
    }
  }

  lemma ReadKeeps(s: State, o: OpId)
    requires Inv(s)
    ensures Inv(Next(s, Event.Read(o)))
  {
    if o in s.ops && s.ops[o].phase == Polling {
      assert OpOk(s, o);
      assert s.current.Some? ==> RecordOk(s, s.current.value);
      FieldsKeep(s, o, Next(s, Event.Read(o)).ops[o]);
    }
  }

  lemma GiveUpKeeps(s: State, o: OpId)
    requires Inv(s)
    ensures Inv(Next(s, Event.GiveUp(o)))
  {
    if o in s.ops && (s.ops[o].phase == Polling || s.ops[o].phase == Releasing) {
      assert OpOk(s, o);
      FieldsKeep(s, o, Next(s, GiveUp(o)).ops[o]);
    }
  }

  lemma SendAcquireKeeps(s: State, o: OpId)
    requires Inv(s)
    ensures Inv(Next(s, Event.SendAcquire(o)))
  {
    if o in s.ops && s.ops[o].phase.Observed? && s.ops[o].phase.holder == None {
      var t := Next(s, Event.SendAcquire(o));
      NoOwnPatch(s, o);
      assert OpOk(s, o);
      LocksOf(s, o);
      assert OpOk(t, o);
      assert Local(s, t, o);
      LocalKeeps(s, t, o);
    }
  }

  lemma ReceiveAcquireKeeps(s: State, o: OpId)
    requires Inv(s) && o in s.ops && s.ops[o].phase.Acquiring? && s.ops[o].phase.reply != Waiting
    ensures Inv(ReceiveReply(s, o))
  {
    assert OpOk(s, o);
    FieldsKeep(s, o, ReceiveReply(s, o).ops[o]);
  }

  lemma ReceiveClearKeeps(s: State, o: OpId)
    requires Inv(s) && o in s.ops && s.ops[o].phase.Clearing? && s.ops[o].phase.reply != Waiting
    ensures Inv(ReceiveReply(s, o))
  {
    assert OpOk(s, o);
    FieldsKeep(s, o, ReceiveReply(s, o).ops[o]);
  }

  lemma ReceiveRecoverKeeps(s: State, o: OpId)
    requires Inv(s) && o in s.ops && s.ops[o].phase.Recovering? && s.ops[o].phase.reply != Waiting
    ensures Inv(ReceiveReply(s, o))
  {
    assert OpOk(s, o);
    if s.ops[o].phase.reply == Accepted {
      FieldsKeep(s, o, ReceiveReply(s, o).ops[o]);
    } else {
      UnlockKeeps(s, o, ReceiveReply(s, o).ops[o]);
    }
  }

  lemma ReceiveKeeps(s: State, o: OpId)
    requires Inv(s)
    ensures Inv(Next(s, Receive(o)))
  {
    if o in s.ops {
      var phase := s.ops[o].phase;
      if phase.Acquiring? && phase.reply != Waiting { ReceiveAcquireKeeps(s, o); }
      else if phase.Clearing? && phase.reply != Waiting { ReceiveClearKeeps(s, o); }
      else if phase.Recovering? && phase.reply != Waiting { ReceiveRecoverKeeps(s, o); }
    }
  }

  lemma TimeoutKeeps(s: State, o: OpId)
    requires Inv(s)
    ensures Inv(Next(s, Event.Timeout(o)))
  {
    if o in s.ops {
      assert OpOk(s, o);
      match s.ops[o].phase
      case Acquiring(_, _) => FieldsKeep(s, o, Next(s, Timeout(o)).ops[o]);
      case Clearing(_, _) => FieldsKeep(s, o, Next(s, Timeout(o)).ops[o]);
      case Recovering(_, _) => UnlockKeeps(s, o, Next(s, Timeout(o)).ops[o]);
      case _ =>
    }
  }

  lemma SpawnKeeps(s: State, o: OpId)
    requires Inv(s)
    ensures Inv(Next(s, Event.Spawn(o)))
  {
    if o in s.ops && s.ops[o].phase == Body {
      assert OpOk(s, o);
      FieldsKeep(s, o, Next(s, Spawn(o)).ops[o]);
    }
  }

  lemma ChildExitKeeps(s: State, o: OpId)
    requires Inv(s)
    ensures Inv(Next(s, Event.ChildExit(o)))
  {
    if o in s.ops && s.ops[o].child {
      var t := Next(s, ChildExit(o));
      assert OpOk(s, o);
      if s.ops[o].phase == Body {
        FieldsKeep(s, o, t.ops[o]);
      } else if s.ops[o].phase == Orphaned || s.ops[o].phase == Gone {
        LocksOf(s, o);
        ChildExitLocal(s, o);
        ChildExitOp(s, o);
        QuietKeeps(s, t, o);
      }
    }
  }

  lemma ChildExitOp(s: State, o: OpId)
    requires o in s.ops && s.ops[o].child && (s.ops[o].phase == Orphaned || s.ops[o].phase == Gone) && OpOk(s, o)
    ensures var t := Next(s, ChildExit(o)); t.net == s.net && o in t.ops && OpOk(t, o) && PatchesKept(s, t, o)
  {
  }

  lemma ChildExitLocal(s: State, o: OpId)
    requires o in s.ops && s.ops[o].child && (s.ops[o].phase == Orphaned || s.ops[o].phase == Gone)
    requires OwnLocks(s, o) && OpOk(s, o)
    ensures Local(s, Next(s, ChildExit(o)), o)
  {
  }

  lemma FinishKeeps(s: State, o: OpId)
    requires Inv(s)
    ensures Inv(Next(s, Event.Finish(o)))
  {
    if o in s.ops && s.ops[o].phase == Body && !s.ops[o].child {
      assert OpOk(s, o);
      FieldsKeep(s, o, Next(s, Finish(o)).ops[o]);
    }
  }

  lemma ReadReleaseKeeps(s: State, o: OpId)
    requires Inv(s)
    ensures Inv(Next(s, Event.ReadRelease(o)))
  {
    if o in s.ops && s.ops[o].phase == Releasing {
      var t := Next(s, Event.ReadRelease(o));
      NoOwnPatch(s, o);
      assert OpOk(s, o);
      assert s.current.Some? ==> RecordOk(s, s.current.value);
      assert s.ops[o].uid.Some? && s.ops[o].uid.value in s.recs ==> RecordOk(s, s.ops[o].uid.value);
      LocksOf(s, o);
      ReadReleaseLocal(s, o);
      LocalKeeps(s, t, o);
    }
  }

  lemma ReadReleaseLocal(s: State, o: OpId)
    requires o in s.ops && s.ops[o].phase == Releasing && OwnLocks(s, o) && OpOk(s, o)
    ensures Local(s, Next(s, Event.ReadRelease(o)), o)
  {
    var t := ReadForRelease(s, o);
    FieldsLocal(s, o, t.ops[o], t.net, t);
  }

  lemma UnlinkKeeps(s: State, o: OpId)
    requires Inv(s)
    ensures Inv(Next(s, Event.Unlink(o)))
  {
    if o in s.ops && s.ops[o].phase == Unlinking {
      var t := Next(s, Event.Unlink(o));
      assert OpOk(s, o);
      LocksOf(s, o);
      assert OpOk(t, o);
      assert Local(s, t, o);
      LocalKeeps(s, t, o);
    }
  }

  lemma CloseKeeps(s: State, o: OpId)
    requires Inv(s)
    ensures Inv(Next(s, Event.Close(o)))
  {
    if o in s.ops && s.ops[o].phase == Leaving {
      var t := Next(s, Event.Close(o));
      assert OpOk(s, o);
      LocksOf(s, o);
      assert OpOk(t, o);
      assert Local(s, t, o);
      LocalKeeps(s, t, o);
    }
  }

  lemma OpenOwnerKeeps(s: State, o: OpId)
    requires Inv(s)
    ensures Inv(Next(s, Event.OpenOwner(o)))
  {
    if o in s.ops && s.ops[o].phase.Observed? && s.ops[o].phase.holder.Some? {
      assert OpOk(s, o);
      FieldsKeep(s, o, Next(s, OpenOwner(o)).ops[o]);
    }
  }

  lemma TakeLockLocal(s: State, o: OpId)
    requires o in s.ops && s.ops[o].phase.OwnerOpen? && s.ops[o].phase.owner !in s.locks && OwnLocks(s, o) && OpOk(s, o)
    requires s.ops[o].phase.owner in s.ops && OpOk(s, s.ops[o].phase.owner) && !s.ops[s.ops[o].phase.owner].phase.Opened?
    ensures Local(s, Next(s, TryLock(o)), o)
  {
    assert LockKept(s, Next(s, TryLock(o)), s.ops[o].phase.owner);
  }

  lemma TakeLockOp(s: State, o: OpId)
    requires o in s.ops && s.ops[o].phase.OwnerOpen? && s.ops[o].phase.owner !in s.locks && OpOk(s, o)
    requires s.ops[o].phase.owner in s.ops && OpOk(s, s.ops[o].phase.owner)
    ensures var t := Next(s, TryLock(o)); t.net == s.net && o in t.ops && OpOk(t, o) && PatchesKept(s, t, o)
  {
  }

  lemma TryLockKeeps(s: State, o: OpId)
    requires Inv(s)
    ensures Inv(Next(s, Event.TryLock(o)))
  {
    if o in s.ops && s.ops[o].phase.OwnerOpen? {
      var t := Next(s, TryLock(o));
      var a := s.ops[o].phase.owner;
      assert OpOk(s, o);
      if a in s.locks {
        FieldsKeep(s, o, t.ops[o]);
      } else {
        assert OpOk(s, a);
        LocksOf(s, o);
        TakeLockLocal(s, o);
        TakeLockOp(s, o);
        QuietKeeps(s, t, o);
      }
    }
  }

  lemma SendClearKeeps(s: State, o: OpId)
    requires Inv(s)
    ensures Inv(Next(s, Event.SendClear(o)))
  {
    if o in s.ops && s.ops[o].phase.OwnerLocked? {
      var t := Next(s, Event.SendClear(o));
      NoOwnPatch(s, o);
      assert OpOk(s, o);
      LocksOf(s, o);
      assert OpOk(t, o);
      FieldsLocal(s, o, t.ops[o], t.net, t);
      LocalKeeps(s, t, o);
    }
  }

  lemma UnlinkOwnerKeeps(s: State, o: OpId)
    requires Inv(s)
    ensures Inv(Next(s, Event.UnlinkOwner(o)))
  {
    if o in s.ops && s.ops[o].phase.OwnerCleared? {
      var t := Next(s, Event.UnlinkOwner(o));
      assert OpOk(s, o);
      LocksOf(s, o);
      UnlinkOwnerLocal(s, o);
      assert OpOk(t, o);
      QuietKeeps(s, t, o);
    }
  }

  lemma UnlinkOwnerLocal(s: State, o: OpId)
    requires o in s.ops && s.ops[o].phase.OwnerCleared? && OwnLocks(s, o) && OpOk(s, o)
    ensures Local(s, Next(s, Event.UnlinkOwner(o)), o)
  {
  }

  lemma CrashKeeps(s: State, o: OpId)
    requires Inv(s)
    ensures Inv(Next(s, Event.Crash(o)))
  {
    if o in s.ops && !s.ops[o].phase.Gone? && !s.ops[o].phase.Orphaned? {
      var t := Next(s, Event.Crash(o));
      assert OpOk(s, o);
      LocksOf(s, o);
      CrashLocal(s, o);
      CrashOp(s, o);
      QuietKeeps(s, t, o);
    }
  }

  lemma CrashOp(s: State, o: OpId)
    requires o in s.ops && !s.ops[o].phase.Gone? && !s.ops[o].phase.Orphaned? && OpOk(s, o)
    ensures var t := Next(s, Event.Crash(o)); t.net == s.net && o in t.ops && OpOk(t, o) && PatchesKept(s, t, o)
  {
  }

  lemma CrashLocal(s: State, o: OpId)
    requires o in s.ops && !s.ops[o].phase.Gone? && !s.ops[o].phase.Orphaned? && OwnLocks(s, o) && OpOk(s, o)
    ensures Local(s, Next(s, Event.Crash(o)), o)
  {
  }

  // ----- The API server and the record -----

  lemma AnswerOp(s: State, p: Patch, reply: Reply)
    requires p in s.net && PatchOk(s, p) && p.sender in s.ops && OpOk(s, p.sender) && (reply == Conflict || reply == Failed)
    ensures OpOk(s.(ops := s.ops[p.sender := Answer(s.ops[p.sender], p, reply)], net := s.net - {p}), p.sender)
  {
    var o := p.sender;
    if !Awaits(s.ops[o], p) || s.ops[o].phase.reply != Waiting { assert s.ops[o := s.ops[o]] == s.ops; }
  }

  lemma AnswerPatches(s: State, t: State, p: Patch, reply: Reply)
    requires p in s.net && PatchOk(s, p) && p.sender in s.ops && (reply == Conflict || reply == Failed)
    requires t == s.(ops := s.ops[p.sender := Answer(s.ops[p.sender], p, reply)], net := s.net - {p})
    ensures PatchesKept(s, t, p.sender)
  {
  }

  lemma AnswerKeeps(s: State, p: Patch, reply: Reply)
    requires Inv(s) && p in s.net && p.sender in s.ops && (reply == Conflict || reply == Failed)
    ensures Inv(s.(ops := s.ops[p.sender := Answer(s.ops[p.sender], p, reply)], net := s.net - {p}))
  {
    var o := p.sender;
    assert PatchOk(s, p);
    assert OpOk(s, o);
    AnswerOp(s, p, reply);
    LocksOf(s, o);
    assert o in s.locks ==> LockOk(s, o);
    var op, t := Answer(s.ops[o], p, reply), s.(ops := s.ops[o := Answer(s.ops[o], p, reply)], net := s.net - {p});
    FieldsLocal(s, o, op, s.net - {p}, t);
    AnswerPatches(s, t, p, reply);
    LocalKeeps(s, t, o);
  }

  lemma LoseKeeps(s: State, p: Patch)
    requires Inv(s)
    ensures Inv(Next(s, Lose(p)))
  {
    if p in s.net && p.sender in s.ops {
      AnswerKeeps(s, p, Failed);
    }
  }

  lemma RejectKeeps(s: State, p: Patch, heard: bool)
    requires Inv(s) && p in s.net && !Matches(s, p)
    ensures Inv(Next(s, Deliver(p, heard)))
  {
    assert PatchOk(s, p);
    var reply := if heard then Conflict else Failed;
    AnswerKeeps(s, p, reply);
    assert Next(s, Deliver(p, heard))
        == s.(ops := s.ops[p.sender := Answer(s.ops[p.sender], p, reply)], net := s.net - {p});
  }

  lemma ApplyOther(s: State, p: Patch, heard: bool, x: OpId)
    requires Inv(s) && p in s.net && Matches(s, p) && x in s.ops && x != p.sender
    ensures var t := DeliverPatch(s, p, heard); x in t.ops && OpOk(t, x)
  {
    assert PatchOk(s, p);
    assert OpOk(s, x);
    var t := DeliverPatch(s, p, heard);
    assert t.ops[x] == s.ops[x];
    assert PhaseOk(t, x);
  }

  lemma ApplySender(s: State, p: Patch, heard: bool)
    requires p in s.net && Matches(s, p) && PatchOk(s, p) && OpOk(s, p.sender)
    ensures var t := DeliverPatch(s, p, heard); p.sender in t.ops && OpOk(t, p.sender)
  {
    var t := DeliverPatch(s, p, heard);
    assert PhaseOk(s, p.sender);
    if Awaits(s.ops[p.sender], p) {
      assert PhaseOk(t, p.sender);
    } else {
      assert t.ops[p.sender].phase == s.ops[p.sender].phase;
    }
  }

  lemma ApplyPatch(s: State, p: Patch, heard: bool, q: Patch)
    requires Inv(s) && p in s.net && Matches(s, p) && q in s.net && q != p
    ensures PatchOk(DeliverPatch(s, p, heard), q)
  {
    assert PatchOk(s, p) && PatchOk(s, q);
    assert OpOk(s, p.sender);
  }

  lemma ApplyRecord(s: State, p: Patch, heard: bool, u: Uid)
    requires Inv(s) && p in s.net && Matches(s, p) && u in s.recs
    ensures RecordOk(DeliverPatch(s, p, heard), u)
  {
    assert PatchOk(s, p) && RecordOk(s, u);
  }

  lemma ApplyLock(s: State, p: Patch, heard: bool, a: OpId)
    requires Inv(s) && p in s.net && Matches(s, p) && a in s.locks
    ensures LockOk(DeliverPatch(s, p, heard), a)
  {
    assert PatchOk(s, p) && LockOk(s, a);
  }

  lemma DeliverKeeps(s: State, p: Patch, heard: bool)
    requires Inv(s)
    ensures Inv(Next(s, Deliver(p, heard)))
  {
    if p in s.net && Matches(s, p) {
      assert PatchOk(s, p);
      var t := DeliverPatch(s, p, heard);
      forall x <- t.ops ensures OpOk(t, x) {
        if x == p.sender { assert OpOk(s, x); ApplySender(s, p, heard); } else { ApplyOther(s, p, heard, x); }
      }
      forall q <- t.net ensures PatchOk(t, q) { ApplyPatch(s, p, heard, q); }
      forall u <- t.recs ensures RecordOk(t, u) { ApplyRecord(s, p, heard, u); }
      forall a <- t.locks ensures LockOk(t, a) { ApplyLock(s, p, heard, a); }
    } else if p in s.net {
      RejectKeeps(s, p, heard);
    }
  }

  /** Writes by others bump versions, mark or remove records and never touch a holder. */
  ghost predicate Grows(s: State, t: State) {
    && t == s.(recs := t.recs, current := t.current)
    && (forall u <- s.recs :: u in t.recs && t.recs[u].holder == s.recs[u].holder
                              && s.recs[u].version <= t.recs[u].version && (t.recs[u].live ==> s.recs[u].live))
    && (forall u <- t.recs :: u !in s.recs ==> t.recs[u].holder == None)
    && (forall u <- t.recs :: t.recs[u].live ==> t.current == Some(u))
    && (t.current.Some? ==> t.current.value in t.recs && t.recs[t.current.value].live)
  }

  lemma GrowsKeeps(s: State, t: State)
    requires Inv(s) && Grows(s, t)
    ensures Inv(t)
  {
    forall u <- t.recs ensures RecordOk(t, u) { assert u in s.recs ==> RecordOk(s, u); }
    forall p <- t.net ensures PatchOk(t, p) { assert PatchOk(s, p); }
    forall a <- t.locks ensures LockOk(t, a) { assert LockOk(s, a); }
    forall o <- t.ops ensures OpOk(t, o) {
      assert OpOk(s, o);
      assert PhaseOk(t, o);
    }
  }

  lemma RecordEventKeeps(s: State, e: Event)
    requires Inv(s) && (e.CreateRecord? || e.Touch? || e.MarkDeleting? || e.RemoveRecord?)
    ensures Inv(Next(s, e))
  {
    assert e.u in s.recs ==> RecordOk(s, e.u);
    forall u <- s.recs ensures s.recs[u].live ==> s.current == Some(u) { assert RecordOk(s, u); }
    GrowsKeeps(s, Next(s, e));
  }

  lemma NextKeeps(s: State, e: Event)
    requires Inv(s)
    ensures Inv(Next(s, e))
  {
    match e
    case Start(o, host, uid) => StartKeeps(s, o, host, uid);
    case Flock(o) => FlockKeeps(s, o);
    case Read(o) => ReadKeeps(s, o);
    case GiveUp(o) => GiveUpKeeps(s, o);
    case SendAcquire(o) => SendAcquireKeeps(s, o);
    case Deliver(p, heard) => DeliverKeeps(s, p, heard);
    case Lose(p) => LoseKeeps(s, p);
    case Receive(o) => ReceiveKeeps(s, o);
    case Timeout(o) => TimeoutKeeps(s, o);
    case Spawn(o) => SpawnKeeps(s, o);
    case ChildExit(o) => ChildExitKeeps(s, o);
    case Finish(o) => FinishKeeps(s, o);
    case ReadRelease(o) => ReadReleaseKeeps(s, o);
    case Unlink(o) => UnlinkKeeps(s, o);
    case Close(o) => CloseKeeps(s, o);
    case OpenOwner(o) => OpenOwnerKeeps(s, o);
    case TryLock(o) => TryLockKeeps(s, o);
    case SendClear(o) => SendClearKeeps(s, o);
    case UnlinkOwner(o) => UnlinkOwnerKeeps(s, o);
    case Crash(o) => CrashKeeps(s, o);
    case CreateRecord(u) => RecordEventKeeps(s, e);
    case Touch(u) => RecordEventKeeps(s, e);
    case MarkDeleting(u) => RecordEventKeeps(s, e);
    case RemoveRecord(u) => RecordEventKeeps(s, e);
  }

  lemma {:induction false} RunKeeps(s: State, events: seq<Event>)
    requires Inv(s)
    ensures Inv(Run(s, events))
    decreases |events|
  {
    if events != [] {
      NextKeeps(s, events[0]);
      RunKeeps(Next(s, events[0]), events[1..]);
    }
  }
}
