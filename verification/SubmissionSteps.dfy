/** The events of `Submission`, one by one, and every run. */
module SubmissionSteps {
  import opened Common
  import opened Submission
  import opened SubmissionInv
  import opened SubmissionFrames
  import opened SubmissionProofs

  lemma {:induction false} OpenWasSeen(log: seq<Entry>, u: Uid)
    requires TempOpen(log, u)
    ensures TempSeen(log, u)
  {
    var e := log[|log| - 1];
    var rest := log[..|log| - 1];
    assert log == rest + [e];
    if !(e.Claimed? && e.uid == u && e.temporary) {
      OpenWasSeen(rest, u);
    }
  }

  /** A client whose claim is on the wire has never claimed before. */
  lemma PendingClaimIsFirst(s: State, c: Cid)
    requires Inv(s) && c in s.clients && ClaimPending(s.clients[c].phase)
    ensures c !in s.landed
  {
    assert DataOk(s, c, s.clients[c]) && LockOk(s, c, s.clients[c]);
  }

  /** No temporary claim is open on an instance that a temporary client is about to claim. */
  lemma ClaimFindsNoneOpen(s: State, c: Cid)
    requires Inv(s) && c in s.clients && ClaimPending(s.clients[c].phase) && s.clients[c].kind == Deploy(true)
    ensures s.clients[c].uid.Some? && !TempOpen(s.log, s.clients[c].uid.value)
    ensures !s.clients[c].createdRoot ==> TempSeen(s.log, s.clients[c].uid.value)
  {
    var cl := s.clients[c];
    assert DataOk(s, c, cl) && LockOk(s, c, cl);
    var u := cl.uid.value;
    assert RootOk(s, u);
    PendingClaimIsFirst(s, c);
    if TempOpen(s.log, u) { OpenWasSeen(s.log, u); }
  }

  function ClaimEntry(cl: Client, c: Cid): Entry
    requires cl.uid.Some?
  {
    Claimed(cl.uid.value, c, cl.kind == Deploy(true))
  }

  lemma ClaimEntryOk(s: State, t: State, c: Cid)
    requires Inv(s) && c in s.clients && ClaimPending(s.clients[c].phase)
    requires s.clients[c].uid.Some? && t.log == s.log + [ClaimEntry(s.clients[c], c)] && c in t.landed
    requires c in t.clients && t.clients[c].kind == s.clients[c].kind && s.clients[c].uid.value in t.roots
    ensures EntryOk(t, |s.log|)
  {
    PendingClaimIsFirst(s, c);
    if s.clients[c].kind == Deploy(true) { ClaimFindsNoneOpen(s, c); }
    assert t.log[..|s.log|] == s.log;
    forall j | 0 <= j < |s.log| && t.log[j].Claimed? ensures t.log[j].author != c {
      assert EntryOk(s, j);
    }
  }

  lemma ClaimRootOk(s: State, t: State, c: Cid)
    requires Inv(s) && c in s.clients && ClaimPending(s.clients[c].phase) && s.clients[c].uid.Some?
    requires var u := s.clients[c].uid.value;
             && u in s.roots && s.roots[u].live
             && t.log == s.log + [ClaimEntry(s.clients[c], c)] && t.landed == s.landed + {c}
             && t.used == s.used && t.clock == s.clock + 1 && t.current == s.current
             && c in t.clients && t.clients == s.clients[c := t.clients[c]] && t.clients[c].uid == Some(u)
             && u in t.roots
             && t.roots[u] == s.roots[u].(version := s.clock + 1, tag := Some(c),
                                          services := s.roots[u].services || s.clients[c].kind == Deploy(true))
    ensures RootOk(t, s.clients[c].uid.value)
  {
    var cl := s.clients[c];
    var u := cl.uid.value;
    assert DataOk(s, c, cl) && LockOk(s, c, cl) && RootOk(s, u);
    if cl.kind == Deploy(true) { ClaimFindsNoneOpen(s, c); }
  }

  /** Only the phase of c changes after its root request reached the server. */
  predicate Outcomes(s: State, c: Cid, phase: Phase, reply: Reply)
    requires c in s.clients && Pending(s.clients[c]).Some?
  {
    if s.clients[c].phase.Lost? then phase == Dead
    else phase == Sent(s.clients[c].phase.req, reply) || phase == Sent(s.clients[c].phase.req, Failed)
  }

  lemma ClaimLands(s: State, t: State, c: Cid, phase: Phase)
    requires Inv(s) && c in s.clients && s.clients[c].uid.Some?
    requires Pending(s.clients[c]).Some? && Pending(s.clients[c]).value.ClaimRoot?
    requires RootFence(s, s.clients[c].uid.value, s.clients[c].phase.req.version)
    requires Outcomes(s, c, phase, Done(None))
    requires var cl, u := s.clients[c], s.clients[c].uid.value;
             t == s.(clock := s.clock + 1, landed := s.landed + {c}, log := s.log + [ClaimEntry(cl, c)],
                     clients := s.clients[c := cl.(phase := phase)],
                     roots := s.roots[u := s.roots[u].(version := s.clock + 1, tag := Some(c),
                                           services := s.roots[u].services || cl.kind == Deploy(true))])
    ensures Inv(t)
  {
    var cl := s.clients[c];
    assert DataOk(s, c, cl) && LockOk(s, c, cl);
    ClaimEntryOk(s, t, c);
    ClaimRootOk(s, t, c);
    RootPendingData(s, t, c, phase);
    RootStep(s, t, cl.uid.value, c, [ClaimEntry(cl, c)]);
  }

  lemma RootPendingData(s: State, t: State, c: Cid, phase: Phase)
    requires Inv(s) && c in s.clients && Pending(s.clients[c]).Some?
    requires t == s.(roots := t.roots, clock := s.clock + 1, landed := t.landed, log := t.log,
                     clients := s.clients[c := s.clients[c].(phase := phase)])
    requires s.landed <= t.landed
    requires forall w | w in s.roots :: w in t.roots && t.roots[w].creator == s.roots[w].creator
    requires phase == Dead || (phase.Sent? && phase.req == Pending(s.clients[c]).value && Target(phase.req).None?
                               && (phase.reply == Done(None) || phase.reply == Failed))
    requires c in t.landed && c !in s.landed ==>
               AfterClaim(s.clients[c].(phase := phase)) && s.clients[c].uid.Some?
    ensures DataOk(t, c, s.clients[c].(phase := phase))
  {
    RootExtends(s, t, c);
    PendingData(s, t, c, phase);
  }

  lemma PendingData(s: State, t: State, c: Cid, phase: Phase)
    requires Inv(s) && Extends(s, t) && c in s.clients && Pending(s.clients[c]).Some?
    requires phase == Dead || (phase.Sent? && phase.req == Pending(s.clients[c]).value)
    requires phase.Sent? ==> ReplyOk(t, c, phase.req, phase.reply)
    requires c in t.landed && c !in s.landed ==>
               AfterClaim(s.clients[c].(phase := phase)) && s.clients[c].uid.Some?
    ensures DataOk(t, c, s.clients[c].(phase := phase))
  {
    var cl := s.clients[c];
    var cl' := cl.(phase := phase);
    assert DataOk(s, c, cl);
    forall ref | ref in cl.expected && cl.expected[ref].Some? ensures IntentOk(t, ref, cl.expected[ref].value) {
      IntentFrame(s, t, ref, cl.expected[ref].value);
    }
    forall ref | ref in cl.committed ensures CommitOk(t, c, cl', ref) {
      assert CommitOk(s, c, cl, ref);
      IntentFrame(s, t, ref, cl.committed[ref]);
    }
    forall ref | ref in cl.created ensures ReceiptOk(t, c, cl', ref) { assert ReceiptOk(s, c, cl, ref); }
    RequestFrame(s, t, c, cl, Pending(cl).value);
    assert RequestOk(t, c, cl', Pending(cl).value) by { RequestIgnoresPhase(t, c, cl, phase, Pending(cl).value); }
  }

  lemma RequestIgnoresPhase(s: State, c: Cid, cl: Client, phase: Phase, req: Request)
    requires RequestOk(s, c, cl, req)
    ensures RequestOk(s, c, cl.(phase := phase), req)
  {
  }

  function Requesting(req: Request, u: Uid, c: Cid): Entry
    requires req.RequestRoot? || req.DeleteRoot?
  {
    if req.RequestRoot? then Requested(u, c, req.services) else RootDeleted(u, c)
  }

  function RequestedRoot(req: Request, r: Root, version: nat): Root
    requires req.RequestRoot? || req.DeleteRoot?
  {
    if req.RequestRoot? then r.(version := version, services := req.services, requested := true)
    else r.(version := version, deleting := true)
  }

  lemma RequestLands(s: State, t: State, c: Cid, phase: Phase)
    requires Inv(s) && c in s.clients && s.clients[c].uid.Some?
    requires Pending(s.clients[c]).Some? && (s.clients[c].phase.req.RequestRoot? || s.clients[c].phase.req.DeleteRoot?)
    requires RootFence(s, s.clients[c].uid.value, s.clients[c].phase.req.version)
    requires Outcomes(s, c, phase, Done(None))
    requires var cl, u := s.clients[c], s.clients[c].uid.value;
             t == s.(clock := s.clock + 1, log := s.log + [Requesting(cl.phase.req, u, c)],
                     clients := s.clients[c := cl.(phase := phase)],
                     roots := s.roots[u := RequestedRoot(cl.phase.req, s.roots[u], s.clock + 1)])
    ensures Inv(t)
  {
    var cl := s.clients[c];
    var u := cl.uid.value;
    var req := cl.phase.req;
    RequestFacts(s, c);
    assert RootOk(s, u);
    assert LockOk(t, c, t.clients[c]);
    RequestEntryOk(s, t, u, c, req);
    RequestRootOk(s, t, u, c, req);
    RootPendingData(s, t, c, phase);
    RootStep(s, t, u, c, [Requesting(req, u, c)]);
  }

  /** What a root request on the wire says about its sender. */
  lemma RequestFacts(s: State, c: Cid)
    requires Inv(s) && c in s.clients && s.clients[c].uid.Some?
    requires Pending(s.clients[c]).Some? && (s.clients[c].phase.req.RequestRoot? || s.clients[c].phase.req.DeleteRoot?)
    ensures var cl, u := s.clients[c], s.clients[c].uid.value;
            && u in s.roots && s.roots[u].holder == Some(c) && c in s.landed && LastClaim(s.log, u) == Some(c)
            && (cl.phase.req.RequestRoot? && !cl.phase.req.services ==> TempSeen(s.log, u))
  {
    var cl := s.clients[c];
    assert DataOk(s, c, cl) && LockOk(s, c, cl) && RootOk(s, cl.uid.value);
    if cl.phase.req.RequestRoot? && !cl.phase.req.services { TempClaimantWasSeen(s, c); }
  }

  lemma RequestEntryOk(s: State, t: State, u: Uid, c: Cid, req: Request)
    requires (req.RequestRoot? || req.DeleteRoot?) && t.log == s.log + [Requesting(req, u, c)]
    requires c in t.landed && u in t.roots && LastClaim(s.log, u) == Some(c)
    ensures EntryOk(t, |s.log|)
  {
    assert t.log[..|s.log|] == s.log;
  }

  lemma RequestRootOk(s: State, t: State, u: Uid, c: Cid, req: Request)
    requires (req.RequestRoot? || req.DeleteRoot?) && t.log == s.log + [Requesting(req, u, c)]
    requires u in s.roots && u in t.roots && RootOk(s, u)
    requires t.landed == s.landed && t.used == s.used && t.clock == s.clock + 1 && t.current == s.current
    requires forall x | x in s.clients :: x in t.clients && t.clients[x].uid == s.clients[x].uid
    requires t.roots[u] == RequestedRoot(req, s.roots[u], s.clock + 1)
    requires req.RequestRoot? && !req.services ==> TempSeen(s.log, u)
    ensures RootOk(t, u)
  {
  }

  /** A temporary client that holds its claim has left a temporary claim in the log. */
  lemma TempClaimantWasSeen(s: State, c: Cid)
    requires Inv(s) && c in s.clients && s.clients[c].kind == Deploy(true) && s.clients[c].uid.Some?
    requires LastClaim(s.log, s.clients[c].uid.value) == Some(c)
    ensures TempSeen(s.log, s.clients[c].uid.value)
  {
    var u := s.clients[c].uid.value;
    var k := LastClaimIndex(s.log, u);
    assert EntryOk(s, k);
  }

  lemma {:induction false} LastClaimIndex(log: seq<Entry>, u: Uid) returns (k: nat)
    requires LastClaim(log, u).Some?
    ensures k < |log| && log[k].Claimed? && log[k].uid == u && Some(log[k].author) == LastClaim(log, u)
    ensures forall j | k < j < |log| :: !(log[j].Claimed? && log[j].uid == u)
  {
    var e := log[|log| - 1];
    if e.Claimed? && e.uid == u {
      k := |log| - 1;
    } else {
      k := LastClaimIndex(log[..|log| - 1], u);
    }
  }

  // ----- Steps of one client -----

  /** `cl` is an admissible next value of client c. */
  ghost predicate Good(s: State, c: Cid, cl: Client)
    requires c in s.clients
  {
    SameIdentity(s.clients[c], cl) && DataOk(s, c, cl) && LockOk(s, c, cl)
  }

  lemma UpdateClient(s: State, c: Cid, cl: Client)
    requires Inv(s) && c in s.clients && Good(s, c, cl)
    ensures Inv(s.(clients := s.clients[c := cl]))
  {
    var t := s.(clients := s.clients[c := cl]);
    ExtendsSame(s, t);
    DataFrame(s, t, c, cl);
    ClientStep(s, c, cl);
  }

  /** Only c's phase changes. */
  lemma PhaseGood(s: State, c: Cid, phase: Phase)
    requires Inv(s) && c in s.clients
    requires var cl := s.clients[c].(phase := phase);
             && PhaseOk(s, c, cl) && LockOk(s, c, cl)
             && (c in s.landed ==> AfterClaim(cl)) && (InLock(phase) ==> cl.uid.Some?)
    ensures Good(s, c, s.clients[c].(phase := phase))
  {
    assert DataOk(s, c, s.clients[c]);
    DataIgnoresPhase(s, c, s.clients[c], phase);
  }

  lemma PhaseStep(s: State, c: Cid, phase: Phase)
    requires Inv(s) && c in s.clients
    requires var cl := s.clients[c].(phase := phase);
             && PhaseOk(s, c, cl) && LockOk(s, c, cl)
             && (c in s.landed ==> AfterClaim(cl)) && (InLock(phase) ==> cl.uid.Some?)
    ensures Inv(SetPhase(s, c, phase))
  {
    PhaseGood(s, c, phase);
    UpdateClient(s, c, s.clients[c].(phase := phase));
  }

  lemma DataIgnoresPhase(s: State, c: Cid, cl: Client, phase: Phase)
    requires DataOk(s, c, cl) && PhaseOk(s, c, cl.(phase := phase))
    requires c in s.landed ==> AfterClaim(cl.(phase := phase))
    requires InLock(phase) ==> cl.uid.Some?
    ensures DataOk(s, c, cl.(phase := phase))
  {
    var cl' := cl.(phase := phase);
    forall ref | ref in cl'.committed ensures CommitOk(s, c, cl', ref) { assert CommitOk(s, c, cl, ref); }
    forall ref | ref in cl'.created ensures ReceiptOk(s, c, cl', ref) { assert ReceiptOk(s, c, cl, ref); }
  }

  lemma NewClientKeeps(s: State, c: Cid, kind: Kind, uid: Option<Uid>)
    requires Inv(s)
    ensures Inv(Next(s, NewClient(c, kind, uid)))
  {
    var t := Next(s, NewClient(c, kind, uid));
    if c !in s.clients && !(uid.Some? && uid.value !in s.roots) && !(kind.Delete? && uid.None?) {
      ExtendsSame(s, t);
      SameObjs(s, t);
      SameRoots(s, t);
      OtherClients(s, t, c);
      OtherLocks(s, t, c);
      GrownLog(s, t, []);
    }
  }

  lemma SnapshotData(s: State, c: Cid, cl: Client, ref: Ref, v: Option<Intent>)
    requires DataOk(s, c, cl) && cl.phase == Fresh && ref.Service? && (v.Some? ==> IntentOk(s, ref, v.value))
    ensures DataOk(s, c, cl.(expected := cl.expected[ref := v]))
  {
    var cl' := cl.(expected := cl.expected[ref := v]);
    forall r | r in cl'.committed ensures CommitOk(s, c, cl', r) { assert CommitOk(s, c, cl, r); }
    forall r | r in cl'.created ensures ReceiptOk(s, c, cl', r) { assert ReceiptOk(s, c, cl, r); }
  }

  lemma SnapshotGood(s: State, c: Cid, ref: Ref)
    requires Inv(s) && c in s.clients
    ensures Good(s, c, Acting(s, Snapshot(c, ref)))
  {
    var cl := s.clients[c];
    assert DataOk(s, c, cl) && LockOk(s, c, cl);
    if cl.phase == Fresh && ref.Service? {
      assert ref in s.objs ==> ObjOk(s, ref, s.objs[ref]);
      SnapshotData(s, c, cl, ref, IntentOpt(if ref in s.objs then Some(s.objs[ref]) else None));
    }
  }

  lemma BeginningGood(s: State, e: Event)
    requires Inv(s) && (e.EndSnapshot? || e.StartBegin? || e.Validate? || e.SendClaim?) && e.c in s.clients
    ensures Good(s, e.c, Acting(s, e))
  {
    assert DataOk(s, e.c, s.clients[e.c]) && LockOk(s, e.c, s.clients[e.c]);
    PhaseGood(s, e.c, Acting(s, e).phase);
  }

  lemma ReadingGood(s: State, e: Event)
    requires Inv(s) && (e.Check? || e.ReadMember? || e.SeeRoot? || e.Fail?) && e.c in s.clients
    ensures Good(s, e.c, Acting(s, e))
  {
    assert DataOk(s, e.c, s.clients[e.c]) && LockOk(s, e.c, s.clients[e.c]);
    if e.ReadMember? { assert e.ref in s.objs ==> ObjOk(s, e.ref, s.objs[e.ref]); }
    PhaseGood(s, e.c, Acting(s, e).phase);
  }

  /** Reading the record for a claim: afterwards either the claim may go out or the client leaves. */
  lemma ClaimReadGood(s: State, c: Cid, phase: Phase)
    requires Inv(s) && c in s.clients && InLock(s.clients[c].phase) && s.clients[c].uid.Some?
    requires !s.clients[c].claimed && !s.clients[c].over && c !in s.landed
    requires phase == Leaving ||
             (phase.ClaimReady? && s.current == s.clients[c].uid && s.current.value in s.roots
              && (s.clients[c].kind == Deploy(true) && !s.clients[c].createdRoot ==> StorageOnly(s.roots[s.current.value])))
    ensures Good(s, c, s.clients[c].(phase := phase))
  {
    assert LockOk(s, c, s.clients[c]);
    PhaseGood(s, c, phase);
  }

  lemma ReadRootGood(s: State, c: Cid)
    requires Inv(s) && c in s.clients
    ensures Good(s, c, Acting(s, ReadRoot(c)))
  {
    var cl := s.clients[c];
    assert DataOk(s, c, cl) && LockOk(s, c, cl);
    if cl.phase == Validating({}) {
      ClaimReadGood(s, c, ReadForClaim(s, cl));
    }
  }

  lemma SendGood(s: State, c: Cid, req: Request)
    requires Inv(s) && c in s.clients
    ensures Good(s, c, Acting(s, Send(c, req)))
  {
    var cl := s.clients[c];
    assert DataOk(s, c, cl) && LockOk(s, c, cl);
    if (cl.phase.Observed? && MaySend(cl, c, req, cl.phase.ref, cl.phase.obj))
       || (cl.phase.RootSeen? && MaySendRoot(cl, req, cl.phase.version)) {
      PhaseGood(s, c, Sent(req, Waiting));
    }
  }

  lemma CrashGood(s: State, c: Cid)
    requires Inv(s) && c in s.clients
    ensures Good(s, c, Acting(s, Crash(c)))
  {
    assert DataOk(s, c, s.clients[c]) && LockOk(s, c, s.clients[c]);
    PhaseGood(s, c, Acting(s, Crash(c)).phase);
  }

  // ----- The lock -----

  /** Taking or freeing the lock changes the record's holder and its version only. */
  lemma HolderStep(s: State, t: State, u: Uid, holder: Option<Cid>, c: Cid, phase: Phase)
    requires Inv(s) && u in s.roots && c in s.clients && s.clients[c].uid == Some(u)
    requires holder == None || holder == Some(c)
    requires s.roots[u].holder == None || s.roots[u].holder == Some(c)
    requires phase == Outside || (phase == Holding && holder == Some(c)) || (phase == Dead && s.clients[c].phase == Dead)
    requires AfterClaim(s.clients[c]) ==> AfterClaim(s.clients[c].(phase := phase))
    requires t == s.(roots := s.roots[u := s.roots[u].(holder := holder, version := s.clock + 1)], clock := s.clock + 1,
                     clients := s.clients[c := s.clients[c].(phase := phase)])
    ensures Inv(t)
  {
    assert RootOk(s, u);
    HolderData(s, t, c, phase);
    assert t.log == s.log + [];
    RootStep(s, t, u, c, []);
  }

  lemma HolderData(s: State, t: State, c: Cid, phase: Phase)
    requires Inv(s) && c in s.clients && s.clients[c].uid.Some?
    requires phase == Outside || phase == Holding || phase == Dead
    requires AfterClaim(s.clients[c]) ==> AfterClaim(s.clients[c].(phase := phase))
    requires t == s.(roots := t.roots, clock := s.clock + 1, clients := s.clients[c := s.clients[c].(phase := phase)])
    requires forall w | w in s.roots :: w in t.roots && t.roots[w].creator == s.roots[w].creator
    ensures DataOk(t, c, t.clients[c])
  {
    assert DataOk(s, c, s.clients[c]);
    RootExtends(s, t, c);
    DataIgnoresPhase(s, c, s.clients[c], phase);
    DataFrame(s, t, c, s.clients[c].(phase := phase));
  }

  lemma AcquireKeeps(s: State, c: Cid)
    requires Inv(s)
    ensures Inv(Next(s, Acquire(c)))
  {
    if CanAcquire(s, c) {
      HolderStep(s, Next(s, Acquire(c)), s.current.value, Some(c), c, Holding);
    }
  }

  lemma ReleaseKeeps(s: State, c: Cid)
    requires Inv(s)
    ensures Inv(Next(s, Release(c)))
  {
    if c in s.clients && InLock(s.clients[c].phase) && !s.clients[c].phase.Sent? && !s.clients[c].phase.Lost?
       && s.clients[c].uid.Some? && s.clients[c].uid.value in s.roots {
      assert LockOk(s, c, s.clients[c]);
      HolderStep(s, Next(s, Release(c)), s.clients[c].uid.value, None, c, Outside);
    }
  }

  lemma RecoverKeeps(s: State, u: Uid)
    requires Inv(s)
    ensures Inv(Next(s, Recover(u)))
  {
    if u in s.roots && s.roots[u].holder.Some? && s.roots[u].holder.value in s.clients
       && s.clients[s.roots[u].holder.value].phase == Dead {
      var c := s.roots[u].holder.value;
      assert RootOk(s, u);
      var t := SetHolder(s, u, None);
      assert s.clients[c := s.clients[c].(phase := Dead)] == s.clients;
      HolderStep(s, t, u, None, c, Dead);
    }
  }

  // ----- Binding to a record -----

  lemma {:induction false} NoEntries(log: seq<Entry>, u: Uid)
    requires forall k | 0 <= k < |log| :: log[k].uid != u
    ensures LastClaim(log, u) == None && !TempSeen(log, u) && !TempOpen(log, u)
  {
    if log != [] {
      NoEntries(log[..|log| - 1], u);
      assert log == log[..|log| - 1] + [log[|log| - 1]];
    }
  }

  lemma CreateRootKeeps(s: State, t: State, c: Cid, u: Uid)
    requires Inv(s) && c in s.clients && s.clients[c].uid == None && s.clients[c].phase == Outside
    requires s.current == None && u !in s.used && c !in s.landed
    requires t == s.(roots := s.roots[u := Root(true, false, s.clock + 1, None, None, true, false, Some(c))],
                     current := Some(u), clock := s.clock + 1, used := s.used + {u},
                     clients := s.clients[c := s.clients[c].(uid := Some(u), createdRoot := true)])
    ensures Inv(t)
  {
    assert DataOk(s, c, s.clients[c]);
    assert u in s.roots ==> RootOk(s, u);
    NewRootExtends(s, t, c, u);
    NewRootObjs(s, t);
    NewRootRoots(s, t, u);
    NewRootData(s, t, c);
    OtherClients(s, t, c);
    NewRootLocks(s, t, c);
    assert t.log == s.log + [];
    GrownLog(s, t, []);
  }

  lemma NewRootExtends(s: State, t: State, c: Cid, u: Uid)
    requires u !in s.roots && c in s.clients && s.clients[c].uid == None
    requires t == s.(roots := t.roots, current := Some(u), clock := s.clock + 1, used := s.used + {u},
                     clients := s.clients[c := s.clients[c].(uid := Some(u), createdRoot := true)])
    requires t.roots.Keys == s.roots.Keys + {u} && forall w | w in s.roots :: t.roots[w] == s.roots[w]
    ensures Extends(s, t)
  {
    forall ref | ref in t.objs ensures MemberExtends(s, t, ref) {}
  }

  lemma NewRootObjs(s: State, t: State)
    requires ObjsOk(s) && Extends(s, t) && t.objs == s.objs && t.specs == s.specs
    requires t.owners == s.owners && t.makers == s.makers
    ensures ObjsOk(t)
  {
    SameObjs(s, t);
  }

  lemma NewRootRoots(s: State, t: State, u: Uid)
    requires RootsOk(s) && LogOk(s) && Extends(s, t) && u !in s.roots && s.current == None && t.current == Some(u)
    requires t.log == s.log && u in t.used && t.clock == s.clock + 1
    requires t.roots.Keys == s.roots.Keys + {u} && forall w | w in s.roots :: t.roots[w] == s.roots[w]
    requires exists c :: t.roots[u] == Root(true, false, s.clock + 1, None, None, true, false, Some(c))
    ensures RootsOk(t)
  {
    forall k | 0 <= k < |s.log| ensures s.log[k].uid != u { assert EntryOk(s, k); }
    NoEntries(s.log, u);
    forall w | w in t.roots ensures RootOk(t, w) {
      if w != u {
        assert RootOk(s, w);
        assert t.log == s.log + [];
        OtherRoot(s, t, [], u, w);
      }
    }
  }

  lemma NewRootData(s: State, t: State, c: Cid)
    requires c in s.clients && DataOk(s, c, s.clients[c]) && Extends(s, t) && c !in s.landed && t.landed == s.landed
    requires s.clients[c].phase == Outside && s.clients[c].uid == None && c in t.clients
    requires t.clients[c].uid.Some? && t.clients[c].uid.value in t.roots && t.roots[t.clients[c].uid.value].creator == Some(c)
    requires t.clients[c] == s.clients[c].(uid := t.clients[c].uid, createdRoot := true)
    ensures DataOk(t, c, t.clients[c])
  {
    var cl, cl' := s.clients[c], t.clients[c];
    DataFrame(s, t, c, cl);
    forall ref | ref in cl'.committed ensures CommitOk(t, c, cl', ref) { assert CommitOk(t, c, cl, ref); }
    forall ref | ref in cl'.created ensures ReceiptOk(t, c, cl', ref) { assert ReceiptOk(t, c, cl, ref); }
  }

  lemma NewRootLocks(s: State, t: State, c: Cid)
    requires LocksOk(s) && c in s.clients && s.clients[c].phase == Outside
    requires forall w | w in s.roots :: w in t.roots && t.roots[w] == s.roots[w]
    requires c in t.clients && t.clients == s.clients[c := t.clients[c]] && t.clients[c].phase == Outside
    ensures LocksOk(t)
  {
    forall x | x in t.clients ensures LockOk(t, x, t.clients[x]) {
      if x != c { assert LockOk(s, x, s.clients[x]); }
    }
  }

  lemma BindKeeps(s: State, c: Cid, newUid: Uid)
    requires Inv(s)
    ensures Inv(Next(s, Bind(c, newUid)))
  {
    if c in s.clients && s.clients[c].phase == Outside && !s.clients[c].claimed && !s.clients[c].over {
      var cl := s.clients[c];
      assert DataOk(s, c, cl);
      var t := Prepare(s, c, newUid);
      if s.current.Some? {
        if s.current.value in s.roots && !s.roots[s.current.value].deleting && (cl.uid.None? || cl.uid == s.current) {
          BindData(s, c);
          UpdateClient(s, c, cl.(uid := s.current));
        }
      } else if !(cl.uid.Some? || newUid in s.used || cl.kind.Delete?) {
        CreateRootKeeps(s, t, c, newUid);
      }
    }
  }

  lemma BindData(s: State, c: Cid)
    requires Inv(s) && c in s.clients && s.current.Some? && s.current.value in s.roots
    requires s.clients[c].uid.None? || s.clients[c].uid == s.current
    requires s.clients[c].phase == Outside
    ensures DataOk(s, c, s.clients[c].(uid := s.current))
  {
    var cl, cl' := s.clients[c], s.clients[c].(uid := s.current);
    assert DataOk(s, c, cl);
    forall ref | ref in cl'.committed ensures CommitOk(s, c, cl', ref) { assert CommitOk(s, c, cl, ref); }
    forall ref | ref in cl'.created ensures ReceiptOk(s, c, cl', ref) { assert ReceiptOk(s, c, cl, ref); }
  }

  // ----- Other writers -----

  lemma TouchRootKeeps(s: State, u: Uid, deleting: bool)
    requires Inv(s)
    ensures Inv(Next(s, TouchRoot(u, deleting)))
  {
    var t := Next(s, TouchRoot(u, deleting));
    if u in s.roots && s.roots[u].live {
      OutsideRootWrite(s, t, u);
    }
  }

  lemma RemoveRootKeeps(s: State, u: Uid)
    requires Inv(s)
    ensures Inv(Next(s, RemoveRoot(u)))
  {
    var t := Next(s, RemoveRoot(u));
    if u in s.roots && s.current == Some(u) {
      assert RootOk(s, u);
      OutsideRootWrite(s, t, u);
    }
  }

  /** A write that leaves holder, claim and declared members of the record alone. */
  lemma OutsideRootWrite(s: State, t: State, u: Uid)
    requires Inv(s) && u in s.roots && u in t.roots
    requires t == s.(roots := s.roots[u := t.roots[u]], clock := t.clock, current := t.current)
    requires t.current == s.current || (t.current == None && !t.roots[u].live && s.current == Some(u))
    requires s.clock <= t.clock && t.roots[u].version <= t.clock && (t.roots[u].live ==> s.roots[u].live)
    requires t.current == s.current ==> t.roots[u].live == s.roots[u].live
    requires t.roots[u] == s.roots[u].(live := t.roots[u].live, deleting := t.roots[u].deleting, version := t.roots[u].version)
    ensures Inv(t)
  {
    assert Extends(s, t) by { forall ref | ref in t.objs ensures MemberExtends(s, t, ref) {} }
    SameObjs(s, t);
    OutsideRoots(s, t, u);
    AllClients(s, t);
    OutsideLocks(s, t, u);
    assert t.log == s.log + [];
    GrownLog(s, t, []);
  }

  lemma OutsideRoots(s: State, t: State, u: Uid)
    requires RootsOk(s) && Extends(s, t) && u in s.roots && t.roots == s.roots[u := t.roots[u]] && t.log == s.log
    requires t.clients == s.clients && t.landed == s.landed && t.used == s.used
    requires t.current == s.current || (t.current == None && !t.roots[u].live && s.current == Some(u))
    requires s.clock <= t.clock && t.roots[u].version <= t.clock && (t.roots[u].live ==> s.roots[u].live)
    requires t.current == s.current ==> t.roots[u].live == s.roots[u].live
    requires t.roots[u] == s.roots[u].(live := t.roots[u].live, deleting := t.roots[u].deleting, version := t.roots[u].version)
    ensures RootsOk(t)
  {
    forall w | w in t.roots ensures RootOk(t, w) {
      assert RootOk(s, w) && RootOk(s, u);
      if w != u {
        assert t.log == s.log + [];
        OtherRoot(s, t, [], u, w);
      }
    }
  }

  lemma OutsideLocks(s: State, t: State, u: Uid)
    requires LocksOk(s) && u in s.roots && u in t.roots && t.roots == s.roots[u := t.roots[u]] && t.clients == s.clients
    requires t.roots[u] == s.roots[u].(live := t.roots[u].live, deleting := t.roots[u].deleting, version := t.roots[u].version)
    ensures LocksOk(t)
  {
    forall x | x in t.clients ensures LockOk(t, x, t.clients[x]) { assert LockOk(s, x, s.clients[x]); }
  }

  lemma StoreKeeps(s: State, ref: Ref, o: Obj)
    requires Inv(s) && NewVersion(s, ref, o)
    ensures Inv(Store(s, ref, o))
  {
    StoreExtends(s, ref, o);
    assert Store(s, ref, o).log == s.log + [];
    MemberStep(s, Store(s, ref, o), []);
  }

  lemma EditKeeps(s: State, ref: Ref, spec: Spec, deleting: bool)
    requires Inv(s)
    ensures Inv(Next(s, Edit(ref, spec, deleting)))
  {
    if ref in s.objs {
      assert ObjOk(s, ref, s.objs[ref]);
      StoreKeeps(s, ref, Rewrite(s.objs[ref], s.clock + 1, spec, s.objs[ref].source, s.objs[ref].tag)
                         .(deleting := s.objs[ref].deleting || deleting));
    }
  }

  lemma CreateKeeps(s: State, ref: Ref, owner: Uid, spec: Spec, newUid: Uid)
    requires Inv(s)
    ensures Inv(Next(s, Create(ref, owner, spec, newUid)))
  {
    if ref !in s.objs && newUid !in s.used {
      StoreKeeps(s, ref, Obj(newUid, s.clock + 1, 1, false, owner, 0, None, spec));
    }
  }

  lemma RemoveKeeps(s: State, ref: Ref)
    requires Inv(s)
    ensures Inv(Next(s, Remove(ref)))
  {
    var t := s.(objs := s.objs - {ref});
    assert Extends(s, t) by { forall r | r in t.objs ensures MemberExtends(s, t, r) {} }
    assert ObjsOk(t) by {
      forall r | r in t.objs ensures ObjOk(t, r, t.objs[r]) { assert ObjOk(s, r, s.objs[r]); }
    }
    assert t.log == s.log + [];
    MemberStep(s, t, []);
  }

  // ----- Requests reaching the server and their replies -----

  /** c's request ended without changing anything on the server, or after its effect was accounted for. */
  lemma ReplyStep(s: State, c: Cid, phase: Phase)
    requires Inv(s) && c in s.clients && Pending(s.clients[c]).Some?
    requires phase == Dead || (phase.Sent? && s.clients[c].phase.Sent? && phase.req == s.clients[c].phase.req)
    requires phase.Sent? ==>
               && ReplyOk(s, c, phase.req, phase.reply)
               && (phase.reply == Failed || phase.reply == Conflict || (phase.reply.Done? && Target(phase.req).Some?))
    ensures Inv(SetPhase(s, c, phase))
  {
    var cl := s.clients[c];
    assert DataOk(s, c, cl) && LockOk(s, c, cl);
    RequestIgnoresPhase(s, c, cl, phase, Pending(cl).value);
    if Pending(cl).value.ClaimRoot? { PendingClaimIsFirst(s, c); }
    PhaseStep(s, c, phase);
  }

  lemma MemberFinishKeeps(s: State, c: Cid, newUid: Uid, heard: bool)
    requires Inv(s) && c in s.clients && s.clients[c].uid.Some? && Pending(s.clients[c]).Some?
    requires Target(s.clients[c].phase.req).Some? && newUid !in s.used
    ensures Inv(Complete(s, c, Lands(newUid, heard)))
  {
    var req := s.clients[c].phase.req;
    LandMemberKeeps(s, c, req, newUid);
    var (t, reply) := LandMember(s, c, req, newUid);
    assert t.clients == s.clients;
    ReplyStep(t, c, if s.clients[c].phase.Lost? then Dead else Sent(req, if heard then reply else Failed));
  }

  /** The server's state after a root request that passed its fence, in one piece. */
  lemma RootLanding(s: State, c: Cid, phase: Phase)
    requires c in s.clients && s.clients[c].uid.Some? && Pending(s.clients[c]).Some?
    requires Target(s.clients[c].phase.req).None? && RootFence(s, s.clients[c].uid.value, s.clients[c].phase.req.version)
    ensures var cl, u, req := s.clients[c], s.clients[c].uid.value, s.clients[c].phase.req;
            var t := SetPhase(LandRoot(s, c, req).0, c, phase);
            && LandRoot(s, c, req).1 == Done(None)
            && (req.ClaimRoot? ==>
                  t == s.(clock := s.clock + 1, landed := s.landed + {c}, log := s.log + [ClaimEntry(cl, c)],
                     clients := s.clients[c := cl.(phase := phase)],
                     roots := s.roots[u := s.roots[u].(version := s.clock + 1, tag := Some(c),
                                           services := s.roots[u].services || cl.kind == Deploy(true))]))
            && (!req.ClaimRoot? ==>
                  t == s.(clock := s.clock + 1, log := s.log + [Requesting(req, u, c)],
                     clients := s.clients[c := cl.(phase := phase)],
                     roots := s.roots[u := RequestedRoot(req, s.roots[u], s.clock + 1)]))
  {
  }

  lemma RootFinishKeeps(s: State, c: Cid, phase: Phase)
    requires Inv(s) && c in s.clients && s.clients[c].uid.Some? && Pending(s.clients[c]).Some?
    requires Target(s.clients[c].phase.req).None? && RootFence(s, s.clients[c].uid.value, s.clients[c].phase.req.version)
    requires Outcomes(s, c, phase, Done(None))
    ensures Inv(SetPhase(LandRoot(s, c, s.clients[c].phase.req).0, c, phase))
  {
    RootLanding(s, c, phase);
    if s.clients[c].phase.req.ClaimRoot? {
      ClaimLands(s, SetPhase(LandRoot(s, c, s.clients[c].phase.req).0, c, phase), c, phase);
    } else {
      RequestLands(s, SetPhase(LandRoot(s, c, s.clients[c].phase.req).0, c, phase), c, phase);
    }
  }

  lemma FinishKeeps(s: State, c: Cid, outcome: Outcome)
    requires Inv(s)
    ensures Inv(Next(s, Finish(c, outcome)))
  {
    if c in s.clients && s.clients[c].uid.Some? && Pending(s.clients[c]).Some? {
      var phase := s.clients[c].phase;
      if outcome.Never? {
        ReplyStep(s, c, if phase.Lost? then Dead else Sent(phase.req, Failed));
      } else if Target(phase.req).None? {
        var phase' := if phase.Lost? then Dead else
          Sent(phase.req, if outcome.heard then LandRoot(s, c, phase.req).1 else Failed);
        if RootFence(s, s.clients[c].uid.value, phase.req.version) {
          RootLanding(s, c, phase');
          RootFinishKeeps(s, c, phase');
        } else {
          ReplyStep(s, c, phase');
        }
      } else if outcome.newUid !in s.used {
        MemberFinishKeeps(s, c, outcome.newUid, outcome.heard);
      }
    }
  }

  /** A committed service write: the result becomes the client's intent precondition. */
  lemma CommitData(s: State, c: Cid, cl: Client, req: Request, o: Obj)
    requires DataOk(s, c, cl) && cl.phase == Sent(req, Done(Some(o))) && (req.Configure? || req.Toggle?)
    ensures DataOk(s, c, Commit(cl, req, o))
  {
    var ref, cl' := req.ref, Commit(cl, req, o);
    assert ReplyOk(s, c, req, cl.phase.reply) && RequestOk(s, c, cl, req);
    assert ref in cl.committed ==> CommitOk(s, c, cl, ref);
    assert ref in cl.created ==> ReceiptOk(s, c, cl, ref);
    if req.Toggle? && ref in cl.applied { AppliedIsStored(s, c, cl, ref, req.prior); }
    forall r | r in cl'.committed ensures CommitOk(s, c, cl', r) {
      if r != ref { assert CommitOk(s, c, cl, r); }
    }
    forall r | r in cl'.created ensures ReceiptOk(s, c, cl', r) {
      if r != ref { assert ReceiptOk(s, c, cl, r); }
    }
  }

  /** A dependency write: creation receipts only. */
  lemma ReceiptData(s: State, c: Cid, cl: Client, req: Request, o: Obj)
    requires DataOk(s, c, cl) && cl.phase == Sent(req, Done(Some(o)))
    requires req.CreateMember? || req.ClaimMember? || req.ApplyMember?
    ensures DataOk(s, c, Commit(cl, req, o))
  {
    var ref, cl' := req.ref, Commit(cl, req, o);
    assert ReplyOk(s, c, req, cl.phase.reply) && RequestOk(s, c, cl, req);
    forall r | r in cl'.committed ensures CommitOk(s, c, cl', r) { assert CommitOk(s, c, cl, r); }
    forall r | r in cl'.created ensures ReceiptOk(s, c, cl', r) {
      if r in cl.created { assert ReceiptOk(s, c, cl, r); }
    }
  }

  lemma HearDone(s: State, c: Cid)
    requires Inv(s) && c in s.clients && s.clients[c].phase.Sent? && s.clients[c].phase.reply.Done?
    ensures Good(s, c, Receive(s, s.clients[c]))
  {
    var cl := s.clients[c];
    var req, obj := cl.phase.req, cl.phase.reply.obj;
    assert DataOk(s, c, cl) && LockOk(s, c, cl);
    if req.ClaimRoot? {
      assert RootOk(s, cl.uid.value);
      HearClaimed(s, c);
    } else if obj.None? || Target(req).None? || req.DeleteMember? {
      PhaseGood(s, c, Checked);
    } else if req.Configure? || req.Toggle? {
      CommitData(s, c, cl, req, obj.value);
    } else {
      ReceiptData(s, c, cl, req, obj.value);
    }
  }

  lemma HearClaimed(s: State, c: Cid)
    requires Inv(s) && c in s.clients && s.clients[c].phase.Sent? && s.clients[c].phase.reply.Done?
    requires s.clients[c].phase.req.ClaimRoot? && c in s.landed
    ensures Good(s, c, s.clients[c].(claimed := true, phase := Checked))
  {
    var cl := s.clients[c];
    var cl' := cl.(claimed := true, phase := Checked);
    assert DataOk(s, c, cl) && LockOk(s, c, cl);
    forall r | r in cl'.committed ensures CommitOk(s, c, cl', r) { assert CommitOk(s, c, cl, r); }
    forall r | r in cl'.created ensures ReceiptOk(s, c, cl', r) { assert ReceiptOk(s, c, cl, r); }
  }

  lemma HearFailed(s: State, c: Cid)
    requires Inv(s) && c in s.clients && s.clients[c].phase.Sent? && s.clients[c].phase.reply == Failed
    ensures Good(s, c, Receive(s, s.clients[c]))
  {
    var cl := s.clients[c];
    var cl' := Receive(s, cl);
    assert DataOk(s, c, cl) && LockOk(s, c, cl);
    forall r | r in cl'.committed ensures CommitOk(s, c, cl', r) { assert CommitOk(s, c, cl, r); }
    forall r | r in cl'.created ensures ReceiptOk(s, c, cl', r) { assert ReceiptOk(s, c, cl, r); }
  }

  lemma HearConflict(s: State, c: Cid)
    requires Inv(s) && c in s.clients && s.clients[c].phase.Sent? && s.clients[c].phase.reply == Conflict
    ensures Good(s, c, Receive(s, s.clients[c]))
  {
    var cl := s.clients[c];
    assert DataOk(s, c, cl) && LockOk(s, c, cl);
    if cl.phase.req.ClaimRoot? {
      PendingClaimIsFirst(s, c);
      ClaimReadGood(s, c, RereadForClaim(s, cl, cl.phase.req.identity));
    } else {
      PhaseGood(s, c, Holding);
    }
  }

  lemma HearGood(s: State, c: Cid)
    requires Inv(s) && c in s.clients
    ensures Good(s, c, Acting(s, Hear(c)))
  {
    var phase := s.clients[c].phase;
    if phase.Sent? && phase.reply.Done? { HearDone(s, c); }
    else if phase.Sent? && phase.reply.Failed? { HearFailed(s, c); }
    else if phase.Sent? && phase.reply.Conflict? { HearConflict(s, c); }
    else { assert DataOk(s, c, s.clients[c]) && LockOk(s, c, s.clients[c]); }
  }

  lemma PrivateGood(s: State, e: Event)
    requires Inv(s) && Private(e) && e.c in s.clients
    ensures Good(s, e.c, Acting(s, e))
  {
    match e {
      case Snapshot(c, ref) => SnapshotGood(s, c, ref);
      case ReadRoot(c) => ReadRootGood(s, c);
      case Send(c, req) => SendGood(s, c, req);
      case Hear(c) => HearGood(s, c);
      case Crash(c) => CrashGood(s, c);
      case EndSnapshot(c) => BeginningGood(s, e);
      case StartBegin(c) => BeginningGood(s, e);
      case Validate(c, _) => BeginningGood(s, e);
      case SendClaim(c) => BeginningGood(s, e);
      case _ => ReadingGood(s, e);
    }
  }

  // ----- Every run -----

  lemma NextKeeps(s: State, e: Event)
    requires Inv(s)
    ensures Inv(Next(s, e))
  {
    if Private(e) {
      if e.c in s.clients {
        PrivateGood(s, e);
        UpdateClient(s, e.c, Acting(s, e));
      }
    } else {
      match e
      case NewClient(c, kind, uid) => NewClientKeeps(s, c, kind, uid);
      case Bind(c, newUid) => BindKeeps(s, c, newUid);
      case Acquire(c) => AcquireKeeps(s, c);
      case Release(c) => ReleaseKeeps(s, c);
      case Recover(u) => RecoverKeeps(s, u);
      case Finish(c, outcome) => FinishKeeps(s, c, outcome);
      case TouchRoot(u, deleting) => TouchRootKeeps(s, u, deleting);
      case RemoveRoot(u) => RemoveRootKeeps(s, u);
      case Edit(ref, spec, deleting) => EditKeeps(s, ref, spec, deleting);
      case Remove(ref) => RemoveKeeps(s, ref);
      case Create(ref, owner, spec, newUid) => CreateKeeps(s, ref, owner, spec, newUid);
    }
  }

  lemma {:induction false} RunKeeps(s: State, events: seq<Event>)
    requires Inv(s)
    ensures Inv(Run(s, events))
    decreases |events|
  {
    if events != [] {
      NextKeeps(s, events[0]);
      RunKeeps(Next(s, events[0]), events[1..]);
    }
  }
}
