/** One client's bookkeeping: its snapshot, its record, the lock, and what it makes of replies and conflicts. */
module SubmissionClient {
  import opened Common
  import opened Submission
  import opened SubmissionInv
  import opened SubmissionFrames
  import opened SubmissionProofs
  import opened SubmissionTheorems
  import opened SubmissionStaleness
  import opened SubmissionEffects
  import opened SubmissionRuns

  // ----- The snapshot -----

  /** The snapshot keeps a service's intent, or its absence; one being deleted, or any for a temporary submission, is refused. */
  lemma SnapshotExactly(s: State, c: Cid, ref: Ref)
    requires c in s.clients && s.clients[c].phase == Fresh && ref.Service?
    ensures var cl, after := s.clients[c], Next(s, Snapshot(c, ref)).clients[c];
            && (ref !in s.objs ==> after == cl.(expected := cl.expected[ref := None]))
            && (ref in s.objs && !s.objs[ref].deleting && cl.kind != Deploy(true) ==>
                  after == cl.(expected := cl.expected[ref := Some(IntentOf(s.objs[ref]))]))
            && (ref in s.objs && (s.objs[ref].deleting || cl.kind == Deploy(true)) ==> after == cl)
  {
  }

  /** A temporary submission expects its services not to be there. */
  predicate ExpectsNothing(cl: Client) {
    cl.kind == Deploy(true) ==> forall ref | ref in cl.expected :: cl.expected[ref] == None
  }

  ghost predicate TemporariesExpectNothing(s: State) {
    forall c {:trigger s.clients[c]} | c in s.clients :: ExpectsNothing(s.clients[c])
  }

  lemma CommitKeepsExpected(cl: Client, req: Request, o: Obj)
    requires Target(req).Some? && !req.DeleteMember?
    ensures var after := Commit(cl, req, o);
            after == cl.(created := after.created, committed := after.committed, applied := after.applied, phase := after.phase)
  {
  }

  lemma ReceiveKeepsExpected(s: State, cl: Client)
    requires cl.phase.Sent? && !cl.phase.reply.Waiting?
    ensures Receive(s, cl).expected == cl.expected && Receive(s, cl).kind == cl.kind
  {
    var Sent(req, reply) := cl.phase;
    if reply.Done? && reply.obj.Some? && Target(req).Some? && !req.DeleteMember? { CommitKeepsExpected(cl, req, reply.obj.value); }
  }

  lemma OwnStepExpects(s: State, e: Event)
    requires Private(e) && e.c in s.clients && ExpectsNothing(s.clients[e.c])
    ensures ExpectsNothing(Next(s, e).clients[e.c])
  {
    if e.Hear? && s.clients[e.c].phase.Sent? && !s.clients[e.c].phase.reply.Waiting? { ReceiveKeepsExpected(s, s.clients[e.c]); }
  }

  /** Steps of the server and of others leave every client's snapshot alone. */
  predicate KeepsSnapshot(s: State, t: State, c: Cid) {
    c in t.clients && (c in s.clients ==> t.clients[c].expected == s.clients[c].expected && t.clients[c].kind == s.clients[c].kind)
  }

  lemma FinishKeepsSnapshot(s: State, d: Cid, outcome: Outcome, c: Cid)
    requires c in Next(s, Finish(d, outcome)).clients
    ensures c in s.clients && KeepsSnapshot(s, Next(s, Finish(d, outcome)), c)
  {
    if d in s.clients && s.clients[d].uid.Some? && Pending(s.clients[d]).Some? && outcome.Lands? {
      LandKeepsClients(s, d, Pending(s.clients[d]).value, outcome.newUid);
    }
  }

  lemma LandKeepsClients(s: State, d: Cid, req: Request, newUid: Uid)
    requires d in s.clients && s.clients[d].uid.Some?
    ensures Land(s, d, req, newUid).0.clients == s.clients
  {
  }

  lemma BindKeepsSnapshot(s: State, d: Cid, newUid: Uid, c: Cid)
    requires c in Next(s, Bind(d, newUid)).clients
    ensures c in s.clients && KeepsSnapshot(s, Next(s, Bind(d, newUid)), c)
  {
  }

  lemma AcquireKeepsSnapshot(s: State, d: Cid, c: Cid)
    requires c in Next(s, Acquire(d)).clients
    ensures c in s.clients && KeepsSnapshot(s, Next(s, Acquire(d)), c)
  {
  }

  lemma ReleaseKeepsSnapshot(s: State, d: Cid, c: Cid)
    requires c in Next(s, Release(d)).clients
    ensures c in s.clients && KeepsSnapshot(s, Next(s, Release(d)), c)
  {
  }

  lemma OutsideKeepsSnapshot(s: State, e: Event)
    requires e.Recover? || e.TouchRoot? || e.RemoveRoot? || e.Edit? || e.Remove? || e.Create?
    ensures Next(s, e).clients == s.clients
  {
  }

  lemma NewClientExpects(s: State, e: Event, c: Cid)
    requires e.NewClient? && c in Next(s, e).clients && (c in s.clients ==> ExpectsNothing(s.clients[c]))
    ensures ExpectsNothing(Next(s, e).clients[c])
  {
  }

  lemma OthersExpect(s: State, e: Event, c: Cid)
    requires TemporariesExpectNothing(s) && !Private(e) && !e.NewClient? && c in Next(s, e).clients
    ensures ExpectsNothing(Next(s, e).clients[c])
  {
    match e
    case Finish(d, outcome) => FinishKeepsSnapshot(s, d, outcome, c);
    case Bind(d, newUid) => BindKeepsSnapshot(s, d, newUid, c);
    case Acquire(d) => AcquireKeepsSnapshot(s, d, c);
    case Release(d) => ReleaseKeepsSnapshot(s, d, c);
    case _ => OutsideKeepsSnapshot(s, e);
  }

  lemma OthersStay(s: State, e: Event, c: Cid)
    requires Private(e) && c in Next(s, e).clients && c != e.c
    ensures c in s.clients && Next(s, e).clients[c] == s.clients[c]
  {
  }

  lemma ClientExpects(s: State, e: Event, c: Cid)
    requires TemporariesExpectNothing(s) && Private(e) && c in Next(s, e).clients
    ensures ExpectsNothing(Next(s, e).clients[c])
  {
    if c != e.c { OthersStay(s, e, c); } else { ActorExists(s, e); OwnStepExpects(s, e); }
  }

  lemma ActorExists(s: State, e: Event)
    requires Private(e) && e.c in Next(s, e).clients
    ensures e.c in s.clients
  {
  }

  lemma StepExpects(s: State, e: Event)
    requires TemporariesExpectNothing(s)
    ensures TemporariesExpectNothing(Next(s, e))
  {
    forall c | c in Next(s, e).clients ensures ExpectsNothing(Next(s, e).clients[c]) {
      if Private(e) { ClientExpects(s, e, c); }
      else if e.NewClient? { NewClientExpects(s, e, c); }
      else { OthersExpect(s, e, c); }
    }
  }

  lemma {:induction false} RunExpects(s: State, events: seq<Event>)
    requires TemporariesExpectNothing(s)
    ensures TemporariesExpectNothing(Run(s, events))
    decreases |events|
  {
    if events != [] {
      StepExpects(s, events[0]);
      RunExpects(Next(s, events[0]), events[1..]);
    }
  }

  /** A temporary submission writes an existing service only as it last committed it itself. */
  lemma TemporaryWritesOwnServices(events: seq<Event>, c: Cid, req: Request, newUid: Uid)
    requires var s := Run(Initial, events);
             && Accepts(s, c, req, newUid) && s.clients[c].kind == Deploy(true) && (req.Configure? || req.Toggle?)
             && req.ref in s.objs
    ensures var s := Run(Initial, events);
            req.ref in s.clients[c].committed && s.clients[c].committed[req.ref] == IntentOf(s.objs[req.ref])
  {
    var s := Run(Initial, events);
    ReachableInv(events);
    RunExpects(Initial, events);
    assert DataOk(s, c, s.clients[c]) && RequestOk(s, c, s.clients[c], req);
    assert ExpectsNothing(s.clients[c]);
    assert ObjOk(s, req.ref, s.objs[req.ref]);
  }

  // ----- The record and the lock -----

  /** The client is where it may bind to the instance. */
  predicate MayBind(s: State, c: Cid) {
    c in s.clients && s.clients[c].phase == Outside && !s.clients[c].claimed && !s.clients[c].over
  }

  /** An existing record is bound to, unless it is being deleted or is not the one already known. */
  lemma BindsExisting(s: State, c: Cid, u: Uid, newUid: Uid)
    requires MayBind(s, c) && s.current == Some(u) && u in s.roots
    ensures var t := Next(s, Bind(c, newUid));
            if !s.roots[u].deleting && (s.clients[c].uid == None || s.clients[c].uid == Some(u))
            then t == s.(clients := s.clients[c := s.clients[c].(uid := Some(u))]) else t == s
  {
  }

  /** A submission makes the record it does not find: unclaimed, unrequested, its services declared, and its own creation. */
  lemma BindCreates(s: State, c: Cid, newUid: Uid)
    requires MayBind(s, c) && s.current == None && newUid !in s.used
    ensures var t := Next(s, Bind(c, newUid));
            if s.clients[c].uid == None && s.clients[c].kind.Deploy?
            then && t.current == Some(newUid) && t.clock == s.clock + 1 && t.objs == s.objs && t.log == s.log
                 && t.roots == s.roots[newUid := Root(true, false, s.clock + 1, None, None, true, false, Some(c))]
                 && t.clients == s.clients[c := s.clients[c].(uid := Some(newUid), createdRoot := true)]
            else t == s
  {
  }

  /** The lock is granted exactly on an existing, kept and free record; the holder and the version change, nothing else. */
  lemma AcquireExactly(s: State, c: Cid, u: Uid)
    requires c in s.clients && s.clients[c].phase == Outside && s.clients[c].uid == Some(u) && u in s.roots
    ensures var t := Next(s, Acquire(c));
            if s.current == Some(u) && !s.roots[u].deleting && s.roots[u].holder == None
            then && t.roots == s.roots[u := s.roots[u].(holder := Some(c), version := s.clock + 1)]
                 && t.clients == s.clients[c := s.clients[c].(phase := Holding)] && t.objs == s.objs && t.log == s.log
            else t == s
  {
  }

  /** A client with no request on the wire leaves the lock and frees the record. */
  lemma ReleaseFreesRecord(s: State, c: Cid, u: Uid)
    requires c in s.clients && s.clients[c].uid == Some(u) && u in s.roots
    requires var phase := s.clients[c].phase;
             !phase.Fresh? && !phase.Outside? && !phase.Dead? && !phase.Sent? && !phase.Lost?
    ensures var t := Next(s, Release(c));
            && t.roots == s.roots[u := s.roots[u].(holder := None, version := s.clock + 1)]
            && t.clients == s.clients[c := s.clients[c].(phase := Outside)] && t.objs == s.objs && t.log == s.log
  {
  }

  /** A record is freed on a client's behalf exactly when that client is dead with no request left to land. */
  lemma RecoverExactly(s: State, u: Uid, c: Cid)
    requires u in s.roots && s.roots[u].holder == Some(c) && c in s.clients
    ensures var t := Next(s, Recover(u));
            if s.clients[c].phase == Dead then t.roots == s.roots[u := s.roots[u].(holder := None, version := s.clock + 1)]
            else t == s
  {
  }

  /** A process that dies with a request under way leaves the request behind; in any other state it is simply gone. */
  lemma CrashExactly(s: State, c: Cid)
    requires c in s.clients && !s.clients[c].phase.Lost?
    ensures var t := Next(s, Crash(c));
            && t == s.(clients := t.clients) && c in t.clients
            && t.clients[c] == s.clients[c].(phase := if Pending(s.clients[c]).Some? then Lost(Pending(s.clients[c]).value) else Dead)
  {
  }

  // ----- Replies -----

  /** Before it goes on, a claimed client confirms that the kept record still carries its operation. */
  lemma CheckExactly(s: State, c: Cid, u: Uid)
    requires c in s.clients && s.clients[c].claimed && s.clients[c].uid == Some(u)
    requires s.clients[c].phase == Holding || s.clients[c].phase == Checked
    ensures var after := Next(s, Check(c)).clients[c];
            after.phase == if s.current == Some(u) && u in s.roots && !s.roots[u].deleting && s.roots[u].tag == Some(c)
                           then Checked else Leaving
  {
  }

  /** A write that lost its race sends the client back to confirm its claim; a reply that was lost ends its turn. */
  lemma LostRaces(s: State, c: Cid, req: Request, reply: Reply)
    requires c in s.clients && s.clients[c].phase == Sent(req, reply) && (reply == Conflict || reply == Failed) && !req.ClaimRoot?
    ensures Next(s, Hear(c)).clients[c] == s.clients[c].(phase := if reply == Conflict then Holding else Leaving)
  {
  }

  /** A claim that lost its race on the version is tried again exactly if the record is kept and its operation the same. */
  lemma ClaimRetriesExactly(s: State, c: Cid, u: Uid, version: nat, identity: Option<Cid>)
    requires c in s.clients && s.clients[c].phase == Sent(ClaimRoot(version, identity), Conflict) && s.clients[c].uid == Some(u)
    ensures Next(s, Hear(c)).clients[c]
            == s.clients[c].(phase := if s.current == Some(u) && u in s.roots && !s.roots[u].deleting
                                         && (s.clients[c].kind.Delete? || s.roots[u].tag == identity)
                                      then ClaimReady(s.roots[u].version, s.roots[u].tag) else Leaving)
  {
  }

  /** A claim whose reply was lost may have been accepted: the client leaves, and never begins another. */
  lemma LostClaimIsFinal(s: State, c: Cid, version: nat, identity: Option<Cid>)
    requires c in s.clients && s.clients[c].phase == Sent(ClaimRoot(version, identity), Failed)
    ensures Next(s, Hear(c)).clients[c] == s.clients[c].(over := true, phase := Leaving)
    ensures var x := SetPhase(Next(s, Hear(c)), c, Holding); Next(x, StartBegin(c)) == x
  {
  }

  /** A request that never reaches the server is heard of as failed, and the state it was sent against stands. */
  lemma LostRequest(s: State, c: Cid, req: Request)
    requires c in s.clients && s.clients[c].uid.Some? && Pending(s.clients[c]) == Some(req)
    ensures Next(s, Finish(c, Never)) == SetPhase(s, c, if s.clients[c].phase.Lost? then Dead else Sent(req, Failed))
  {
    NeverIs(s, c, if s.clients[c].phase.Lost? then Dead else Sent(req, Failed));
  }

  /** Whatever the version or identity was, a write that does not meet it changes nothing. */
  lemma OldVersionsAreRefused(s: State, c: Cid, req: Request, newUid: Uid, heard: bool)
    requires c in s.clients && s.clients[c].uid.Some? && Pending(s.clients[c]) == Some(req) && newUid !in s.used
    requires match Target(req)
             case Some((ref, Some(o))) => ref !in s.objs || s.objs[ref].uid != o.uid || s.objs[ref].version != o.version
             case Some((ref, None)) => ref in s.objs
             case None => var u := s.clients[c].uid.value; u !in s.roots || !s.roots[u].live || s.roots[u].version != req.version
    ensures var t := Landed(s, c, newUid, heard); t.objs == s.objs && t.roots == s.roots && t.log == s.log
  {
    StaleWriteIsRefused(s, c, req, newUid, heard);
  }

  /** An exception inside the lock, with no request under way, leads out of it. */
  lemma ExceptionLeaves(s: State, c: Cid)
    requires c in s.clients
    requires var phase := s.clients[c].phase;
             !phase.Fresh? && !phase.Outside? && !phase.Dead? && !phase.Sent? && !phase.Lost?
    ensures Next(s, Fail(c)) == SetPhase(s, c, Leaving)
  {
  }

  lemma SnapshotEnds(s: State, c: Cid)
    requires c in s.clients && s.clients[c].phase == Fresh
    ensures Next(s, EndSnapshot(c)) == SetPhase(s, c, Outside)
  {
  }

  // ----- Dependencies -----

  /** The dependency is written and is what the client works on next. */
  predicate Works(s: State, t: State, c: Cid, ref: Ref, o: Obj) {
    && t.objs == s.objs[ref := o] && t.roots == s.roots && |t.log| == |s.log| + 1
    && c in t.clients && t.clients[c].phase == Observed(ref, Some(o))
  }

  lemma DependencyCommit(cl: Client, req: Request, o: Obj)
    requires Target(req).Some? && !req.DeleteMember? && req.ref.Dependency?
    ensures var after := Commit(cl, req, o);
            after.phase == Observed(req.ref, Some(o)) && (req.CreateMember? ==> after.created == cl.created[req.ref := o.uid])
  {
  }

  lemma DependencyBooks(s: State, cl: Client, req: Request, ref: Ref, o: Obj)
    requires cl.phase == Sent(req, Done(Some(o))) && Target(req).Some? && Target(req).value.0 == ref
    requires ref.Dependency? && !req.DeleteMember?
    ensures var after := Receive(s, cl);
            after.phase == Observed(ref, Some(o)) && (req.CreateMember? ==> after.created == cl.created[ref := o.uid])
  {
    assert Receive(s, cl) == Commit(cl, req, o);
    DependencyCommit(cl, req, o);
  }

  lemma DependencyHear(s: State, c: Cid, req: Request, ref: Ref, o: Obj)
    requires c in s.clients && s.clients[c].phase == Sent(req, Done(Some(o))) && Target(req).Some? && Target(req).value.0 == ref
    requires ref.Dependency? && !req.DeleteMember?
    ensures var t := Next(s, Hear(c));
            && t == s.(clients := t.clients) && c in t.clients && t.clients[c].phase == Observed(ref, Some(o))
            && (req.CreateMember? ==> t.clients[c].created == s.clients[c].created[ref := o.uid])
  {
    DependencyBooks(s, s.clients[c], req, ref, o);
  }

  lemma DependencyExchange(s: State, c: Cid, ref: Ref, req: Request, o: Obj, newUid: Uid)
    requires Yields(s, c, req, ref, o, newUid) && Target(req) == Some((ref, Stored(s, ref))) && ref.Dependency? && !req.DeleteMember?
    requires MaySend(s.clients[c].(phase := Observed(ref, Stored(s, ref))), c, req, ref, Stored(s, ref))
    ensures var t := Run(s, Exchange(c, ref, req, newUid));
            && Works(s, t, c, ref, o) && (req.CreateMember? ==> t.clients[c].created == s.clients[c].created[ref := o.uid])
  {
    var s2 := SetPhase(s, c, Sent(req, Waiting));
    SendStep(s, c, ref, req);
    RunSplit(s, [ReadMember(c, ref), Send(c, req)], [Finish(c, Lands(newUid, true)), Hear(c)]);
    RunTwo(s2, Finish(c, Lands(newUid, true)), Hear(c));
    DependencyHear(Landed(s2, c, newUid, true), c, req, ref, o);
  }

  /** A dependency that is missing is created, under the client's operation and with its receipt. */
  lemma CreateDependencyRun(s: State, c: Cid, ref: Ref, config: nat, newUid: Uid)
    requires Ready(s, c) && ref.Dependency? && ref !in s.clients[c].expected && ref !in s.objs && newUid !in s.used
    ensures var t := Run(s, Exchange(c, ref, CreateMember(ref, config), newUid));
            && Works(s, t, c, ref, Obj(newUid, s.clock + 1, 1, false, s.clients[c].uid.value, 0, Some(c), Spec(config, false)))
            && t.clients[c].created == s.clients[c].created[ref := newUid]
  {
    var req := CreateMember(ref, config);
    var o := Obj(newUid, s.clock + 1, 1, false, s.clients[c].uid.value, 0, Some(c), Spec(config, false));
    CreateWrites(SetPhase(s, c, Sent(req, Waiting)), c, ref, config, newUid, true);
    DependencyExchange(s, c, ref, req, o, newUid);
  }

  /** A dependency of the instance is adopted, except by a temporary submission that did not make it. */
  lemma AdoptDependencyRun(s: State, c: Cid, ref: Ref, o: Obj, newUid: Uid)
    requires Ready(s, c) && ref.Dependency? && ref !in s.clients[c].expected && Stored(s, ref) == Some(o) && newUid !in s.used
    requires s.clients[c].uid == Some(o.owner)
    requires s.clients[c].kind == Deploy(true) ==> ref in s.clients[c].created && s.clients[c].created[ref] == o.uid
    ensures Works(s, Run(s, Exchange(c, ref, ClaimMember(ref, o), newUid)), c, ref, o.(version := s.clock + 1, tag := Some(c)))
  {
    var req := ClaimMember(ref, o);
    ClaimMemberWrites(SetPhase(s, c, Sent(req, Waiting)), c, ref, o, newUid, true);
    DependencyExchange(s, c, ref, req, o.(version := s.clock + 1, tag := Some(c)), newUid);
  }
}
