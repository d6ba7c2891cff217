/** A newer intent is final: whoever has not seen it never writes the service again. */
module SubmissionStaleness {
  import opened Common
  import opened Submission
  import opened SubmissionInv
  import opened SubmissionFrames
  import opened SubmissionProofs
  import opened SubmissionSteps
  import opened SubmissionTheorems

  /** The client's intent precondition, counting a commit whose reply it has not read yet. */
  function EffectiveWant(cl: Client, ref: Ref): Option<Intent> {
    if cl.phase.Sent? && cl.phase.reply.Done? && cl.phase.reply.obj.Some?
       && (cl.phase.req.Configure? || cl.phase.req.Toggle?) && cl.phase.req.ref == ref
    then Some(IntentOf(cl.phase.reply.obj.value))
    else Want(cl, ref)
  }

  /** An operation that claimed its instance and has been superseded there. */
  predicate Past(s: State, x: Cid) {
    && x in s.landed && x in s.clients && s.clients[x].uid.Some? && s.clients[x].uid.value in s.roots
    && s.roots[s.clients[x].uid.value].tag != Some(x)
  }

  /** The stored object has moved on from intent `v` in a way that can never be reverted. */
  predicate MovedOn(s: State, ref: Ref, v: Intent) {
    || ref !in s.objs || s.objs[ref].uid != v.uid || v.generation < s.objs[ref].generation
    || (s.objs[ref].tag != v.tag && (v.tag == None || Past(s, v.tag.value)))
  }

  predicate Blocked(s: State, c: Cid, ref: Ref) {
    && c in s.clients && !s.clients[c].phase.Fresh?
    && (s.clients[c].phase.Dead?
        || (EffectiveWant(s.clients[c], ref).Some? && MovedOn(s, ref, EffectiveWant(s.clients[c], ref).value)))
  }

  lemma EffectiveWantOk(s: State, c: Cid, ref: Ref)
    requires Inv(s) && c in s.clients && EffectiveWant(s.clients[c], ref).Some?
    ensures IntentOk(s, ref, EffectiveWant(s.clients[c], ref).value)
  {
    var cl := s.clients[c];
    assert DataOk(s, c, cl);
    assert ref in cl.committed ==> CommitOk(s, c, cl, ref);
  }

  /** How a step may change the object under `ref`: only the current claimant puts its own tag on it. */
  predicate TagStep(s: State, t: State, ref: Ref) {
    ref in t.objs ==>
      || t.objs[ref].uid !in s.used
      || (ref in s.objs && t.objs[ref].uid == s.objs[ref].uid && s.objs[ref].generation <= t.objs[ref].generation
          && (t.objs[ref].tag == s.objs[ref].tag
              || (t.objs[ref].tag.Some? && t.objs[ref].tag.value in s.clients
                  && HasClaim(s.clients[t.objs[ref].tag.value].phase))))
  }

  lemma MovedOnForever(s: State, t: State, ref: Ref, v: Intent)
    requires Inv(s) && IntentOk(s, ref, v) && MovedOn(s, ref, v) && TagStep(s, t, ref)
    requires v.tag.Some? && Past(s, v.tag.value) ==> Past(t, v.tag.value)
    ensures MovedOn(t, ref, v)
  {
    if ref in t.objs && t.objs[ref].uid == v.uid && v.tag.Some? && t.objs[ref].tag == v.tag {
      var x := v.tag.value;
      assert x in s.clients ==> LockOk(s, x, s.clients[x]);
    }
  }

  lemma OtherStepKeepsWant(s: State, e: Event, ref: Ref)
    requires Private(e) && !e.Hear? && e.c in s.clients && !s.clients[e.c].phase.Fresh?
    ensures var cl := Acting(s, e);
            !cl.phase.Fresh? && (cl.phase.Dead? || EffectiveWant(cl, ref) == EffectiveWant(s.clients[e.c], ref))
  {
  }

  lemma CommitWant(cl: Client, req: Request, o: Obj, ref: Ref)
    requires Target(req).Some? && !req.DeleteMember? && cl.phase == Sent(req, Done(Some(o)))
    requires req.ref.Service? <==> req.Configure? || req.Toggle?
    ensures EffectiveWant(Commit(cl, req, o), ref) == EffectiveWant(cl, ref)
  {
  }

  predicate KindMatches(req: Request) {
    Target(req).Some? && !req.DeleteMember? ==> (req.ref.Service? <==> req.Configure? || req.Toggle?)
  }

  /** What hearing a reply changes besides the committed intent. */
  lemma ReceiveShape(s: State, cl: Client)
    requires cl.phase.Sent? && !cl.phase.reply.Waiting?
    requires !(cl.phase.reply.Done? && cl.phase.reply.obj.Some? && Target(cl.phase.req).Some? && !cl.phase.req.DeleteMember?)
    ensures var after := Receive(s, cl);
            after == cl.(claimed := after.claimed, over := after.over, phase := after.phase) && !after.phase.Sent?
            && !after.phase.Fresh?
  {
  }

  lemma ReceiveKeepsWant(s: State, cl: Client, ref: Ref)
    requires cl.phase.Sent? && KindMatches(cl.phase.req) && !cl.phase.reply.Waiting?
    ensures EffectiveWant(Receive(s, cl), ref) == EffectiveWant(cl, ref) && !Receive(s, cl).phase.Fresh?
  {
    var req, reply := cl.phase.req, cl.phase.reply;
    if reply.Done? && reply.obj.Some? && Target(req).Some? && !req.DeleteMember? {
      CommitWant(cl, req, reply.obj.value, ref);
    } else {
      ReceiveShape(s, cl);
    }
  }

  lemma HearKeepsWant(s: State, c: Cid, ref: Ref)
    requires Inv(s) && c in s.clients && !s.clients[c].phase.Fresh?
    ensures var cl := Acting(s, Hear(c)); !cl.phase.Fresh? && EffectiveWant(cl, ref) == EffectiveWant(s.clients[c], ref)
  {
    var cl := s.clients[c];
    if cl.phase.Sent? && !cl.phase.reply.Waiting? {
      assert DataOk(s, c, cl);
      ReceiveKeepsWant(s, cl, ref);
    }
  }

  /** A private step changes no precondition of a client past its snapshot, except by its death. */
  lemma PrivateKeepsWant(s: State, e: Event, ref: Ref)
    requires Inv(s) && Private(e) && e.c in s.clients && !s.clients[e.c].phase.Fresh?
    ensures var cl := Acting(s, e);
            !cl.phase.Fresh? && (cl.phase.Dead? || EffectiveWant(cl, ref) == EffectiveWant(s.clients[e.c], ref))
  {
    if e.Hear? { HearKeepsWant(s, e.c, ref); } else { OtherStepKeepsWant(s, e, ref); }
  }

  lemma PastAfterBinding(s: State, e: Event, x: Cid)
    requires Past(s, x) && s.clients[x].uid.value in s.used && (e.NewClient? || e.Bind?)
    ensures Past(Next(s, e), x)
  {
  }

  lemma PastAfterLocking(s: State, e: Event, x: Cid)
    requires Past(s, x) && (e.Acquire? || e.Release? || e.Recover?)
    ensures Past(Next(s, e), x)
  {
  }

  lemma PastAfterUpdate(s: State, c: Cid, cl: Client, x: Cid)
    requires Past(s, x) && c in s.clients && SameIdentity(s.clients[c], cl)
    ensures Past(s.(clients := s.clients[c := cl]), x)
  {
  }

  lemma PastAfterRoot(s: State, c: Cid, req: Request, x: Cid)
    requires Past(s, x) && c in s.clients && s.clients[c].uid.Some? && Target(req).None?
    requires req.ClaimRoot? ==> c != x
    ensures Past(LandRoot(s, c, req).0, x)
  {
  }

  lemma PastAfterFinish(s: State, c: Cid, outcome: Outcome, x: Cid)
    requires Past(s, x) && c in s.clients && s.clients[c].uid.Some?
    requires ClaimPending(s.clients[c].phase) ==> c != x
    ensures Past(Complete(s, c, outcome), x)
  {
    var phase := s.clients[c].phase;
    if Pending(s.clients[c]).Some? {
      if outcome.Lands? && Target(phase.req).None? { PastAfterRoot(s, c, phase.req, x); }
    }
  }

  /** A superseded operation stays superseded. */
  lemma PastForever(s: State, e: Event, x: Cid)
    requires Inv(s) && Past(s, x)
    ensures Past(Next(s, e), x)
  {
    if Private(e) {
      if e.c in s.clients {
        PrivateGood(s, e);
        PastAfterUpdate(s, e.c, Acting(s, e), x);
      }
    } else if e.Finish? {
      if e.c in s.clients && s.clients[e.c].uid.Some? {
        if ClaimPending(s.clients[e.c].phase) { PendingClaimIsFirst(s, e.c); }
        PastAfterFinish(s, e.c, e.outcome, x);
      }
    } else if e.NewClient? || e.Bind? {
      assert RootOk(s, s.clients[x].uid.value);
      PastAfterBinding(s, e, x);
    } else if e.Acquire? || e.Release? || e.Recover? {
      PastAfterLocking(s, e, x);
    } else {
    }
  }

  /** No entry appended between s and t is a write of service `ref` by c. */
  ghost predicate NoWrite(s: State, t: State, c: Cid, ref: Ref) {
    && s.log <= t.log
    && forall k | |s.log| <= k < |t.log| ::
         !(t.log[k].ServiceWritten? && t.log[k].author == c && t.log[k].ref == ref)
  }

  lemma BlockedStep(s: State, t: State, c: Cid, ref: Ref)
    requires Inv(s) && Blocked(s, c, ref) && TagStep(s, t, ref) && c in t.clients && !t.clients[c].phase.Fresh?
    requires t.clients[c].phase.Dead? || EffectiveWant(t.clients[c], ref) == EffectiveWant(s.clients[c], ref)
    requires s.clients[c].phase.Dead? ==> t.clients[c].phase.Dead?
    requires forall x {:trigger Past(t, x)} | Past(s, x) :: Past(t, x)
    ensures Blocked(t, c, ref)
  {
    if !t.clients[c].phase.Dead? {
      EffectiveWantOk(s, c, ref);
      MovedOnForever(s, t, ref, EffectiveWant(s.clients[c], ref).value);
    }
  }

  lemma AllPastForever(s: State, e: Event)
    requires Inv(s)
    ensures forall x {:trigger Past(Next(s, e), x)} | Past(s, x) :: Past(Next(s, e), x)
  {
    forall x | Past(s, x) ensures Past(Next(s, e), x) { PastForever(s, e, x); }
  }

  lemma BlockedAfterPrivate(s: State, e: Event, c: Cid, ref: Ref)
    requires Inv(s) && Blocked(s, c, ref) && Private(e)
    ensures Blocked(Next(s, e), c, ref) && NoWrite(s, Next(s, e), c, ref)
  {
    if e.c in s.clients {
      AllPastForever(s, e);
      if e.c == c {
        PrivateKeepsWant(s, e, ref);
        if s.clients[c].phase.Dead? { DeadStaysDead(s, e); }
      }
      BlockedStep(s, Next(s, e), c, ref);
    }
  }

  lemma DeadStaysDead(s: State, e: Event)
    requires Private(e) && e.c in s.clients && s.clients[e.c].phase.Dead?
    ensures Acting(s, e).phase.Dead?
  {
  }

  // ----- Landing requests -----

  /** Landing d's member request moves the object as a claimant may. */
  lemma LandingTagStep(s: State, d: Cid, req: Request, newUid: Uid, ref: Ref)
    requires Inv(s) && d in s.clients && s.clients[d].uid.Some? && Pending(s.clients[d]) == Some(req)
    requires Target(req).Some? && newUid !in s.used
    ensures TagStep(s, LandMember(s, d, req, newUid).0, ref)
  {
    var (r, base) := Target(req).value;
    if MemberFence(s, r, base) {
      WrittenIsNew(s, d, req, newUid);
    }
  }

  /** A blocked client's own write of the service cannot pass its fence. */
  lemma BlockedCannotLand(s: State, c: Cid, req: Request, ref: Ref)
    requires Inv(s) && c in s.clients && Pending(s.clients[c]) == Some(req) && Blocked(s, c, ref)
    requires (req.Configure? || req.Toggle?) && req.ref == ref
    ensures !MemberFence(s, ref, Target(req).value.1)
  {
    var cl := s.clients[c];
    assert DataOk(s, c, cl);
    assert RequestOk(s, c, cl, req);
  }

  /** What landing d's request means for a service that c may no longer write. */
  ghost predicate Skips(s: State, t: State, reply: Reply, c: Cid, d: Cid, req: Request, ref: Ref) {
    && NoWrite(s, t, c, ref) && t.clients == s.clients
    && (c == d && (req.Configure? || req.Toggle?) && req.ref == ref ==> reply == Conflict)
  }

  lemma MemberLandingSkips(s: State, c: Cid, d: Cid, req: Request, newUid: Uid, ref: Ref)
    requires d in s.clients && s.clients[d].uid.Some? && Target(req).Some?
    requires c == d && (req.Configure? || req.Toggle?) && req.ref == ref ==> !MemberFence(s, ref, Target(req).value.1)
    ensures var (t, reply) := LandMember(s, d, req, newUid); Skips(s, t, reply, c, d, req, ref)
  {
  }

  lemma RootLandingSkips(s: State, c: Cid, d: Cid, req: Request, ref: Ref)
    requires d in s.clients && s.clients[d].uid.Some? && Target(req).None?
    ensures var (t, reply) := LandRoot(s, d, req); Skips(s, t, reply, c, d, req, ref)
  {
  }

  lemma LandingSkips(s: State, c: Cid, d: Cid, req: Request, newUid: Uid, ref: Ref)
    requires Inv(s) && d in s.clients && s.clients[d].uid.Some? && Pending(s.clients[d]) == Some(req)
    requires Blocked(s, c, ref)
    ensures var (t, reply) := Land(s, d, req, newUid); Skips(s, t, reply, c, d, req, ref)
  {
    if Target(req).Some? {
      if c == d && (req.Configure? || req.Toggle?) && req.ref == ref { BlockedCannotLand(s, c, req, ref); }
      MemberLandingSkips(s, c, d, req, newUid, ref);
    } else {
      RootLandingSkips(s, c, d, req, ref);
    }
  }

  /** Completion moves the acting client's phase and nobody else's. */
  lemma CompletedWant(s: State, d: Cid, req: Request, t: State, reply: Reply, phase: Phase, c: Cid, ref: Ref)
    requires d in s.clients && Pending(s.clients[d]) == Some(req) && t.clients == s.clients
    requires phase == Dead || (!s.clients[d].phase.Lost? && phase == Sent(req, reply))
    requires c in s.clients && !s.clients[c].phase.Fresh?
    requires c == d && (req.Configure? || req.Toggle?) && req.ref == ref ==> !reply.Done?
    ensures var z := SetPhase(t, d, phase);
            && c in z.clients && !z.clients[c].phase.Fresh?
            && (z.clients[c].phase.Dead? || EffectiveWant(z.clients[c], ref) == EffectiveWant(s.clients[c], ref))
            && (s.clients[c].phase.Dead? ==> z.clients[c].phase.Dead?)
  {
  }

  lemma LandingIs(s: State, d: Cid, outcome: Outcome, t: State, reply: Reply, phase: Phase)
    requires d in s.clients && s.clients[d].uid.Some? && Pending(s.clients[d]).Some? && outcome.Lands?
    requires Target(Pending(s.clients[d]).value).None? || outcome.newUid !in s.used
    requires (t, reply) == Land(s, d, Pending(s.clients[d]).value, outcome.newUid) && t.clients == s.clients
    requires phase == if s.clients[d].phase.Lost? then Dead
                      else Sent(Pending(s.clients[d]).value, if outcome.heard then reply else Failed)
    ensures Next(s, Finish(d, outcome)) == SetPhase(t, d, phase)
  {
  }

  lemma NeverIs(s: State, d: Cid, phase: Phase)
    requires d in s.clients && s.clients[d].uid.Some? && Pending(s.clients[d]).Some?
    requires phase == if s.clients[d].phase.Lost? then Dead else Sent(Pending(s.clients[d]).value, Failed)
    ensures Next(s, Finish(d, Never)) == SetPhase(s, d, phase)
  {
  }

  lemma BlockedAfterLoss(s: State, d: Cid, c: Cid, ref: Ref)
    requires Inv(s) && Blocked(s, c, ref)
    requires d in s.clients && s.clients[d].uid.Some? && Pending(s.clients[d]).Some?
    ensures var t := Next(s, Finish(d, Never)); Blocked(t, c, ref) && NoWrite(s, t, c, ref)
  {
    var req := Pending(s.clients[d]).value;
    AllPastForever(s, Finish(d, Never));
    var phase := if s.clients[d].phase.Lost? then Dead else Sent(req, Failed);
    NeverIs(s, d, phase);
    CompletedWant(s, d, req, s, Failed, phase, c, ref);
    BlockedStep(s, SetPhase(s, d, phase), c, ref);
  }

  lemma BlockedAfterLanding(s: State, d: Cid, outcome: Outcome, c: Cid, ref: Ref)
    requires Inv(s) && Blocked(s, c, ref) && outcome.Lands?
    requires d in s.clients && s.clients[d].uid.Some? && Pending(s.clients[d]).Some?
    requires Target(Pending(s.clients[d]).value).None? || outcome.newUid !in s.used
    ensures var t := Next(s, Finish(d, outcome)); Blocked(t, c, ref) && NoWrite(s, t, c, ref)
  {
    var req := Pending(s.clients[d]).value;
    LandingSkips(s, c, d, req, outcome.newUid, ref);
    var (t, reply) := Land(s, d, req, outcome.newUid);
    assert TagStep(s, t, ref) by {
      if Target(req).Some? { LandingTagStep(s, d, req, outcome.newUid, ref); } else { RootLandingKeepsObjs(s, d, req); }
    }
    AllPastForever(s, Finish(d, outcome));
    var told := if outcome.heard then reply else Failed;
    var phase := if s.clients[d].phase.Lost? then Dead else Sent(req, told);
    CompletedWant(s, d, req, t, told, phase, c, ref);
    LandingIs(s, d, outcome, t, reply, phase);
    BlockedStep(s, SetPhase(t, d, phase), c, ref);
  }

  lemma RootLandingKeepsObjs(s: State, c: Cid, req: Request)
    requires c in s.clients && s.clients[c].uid.Some? && Target(req).None?
    ensures LandRoot(s, c, req).0.objs == s.objs
  {
  }

  lemma BlockedAfterFinish(s: State, d: Cid, outcome: Outcome, c: Cid, ref: Ref)
    requires Inv(s) && Blocked(s, c, ref)
    ensures var t := Next(s, Finish(d, outcome)); Blocked(t, c, ref) && NoWrite(s, t, c, ref)
  {
    if d in s.clients && s.clients[d].uid.Some? && Pending(s.clients[d]).Some? {
      var req := Pending(s.clients[d]).value;
      if outcome.Never? {
        BlockedAfterLoss(s, d, c, ref);
      } else if Target(req).None? || outcome.newUid !in s.used {
        BlockedAfterLanding(s, d, outcome, c, ref);
      }
    }
  }

  lemma OthersTagStep(s: State, e: Event, ref: Ref)
    requires !Private(e) && !e.Finish?
    requires ref in s.objs ==> s.objs[ref].uid in s.used
    ensures TagStep(s, Next(s, e), ref)
  {
  }

  /** What a step may do to a client past its snapshot without touching its preconditions. */
  predicate ClientKept(s: State, t: State, c: Cid, ref: Ref)
    requires c in s.clients
  {
    && t.log == s.log && c in t.clients && !t.clients[c].phase.Fresh?
    && (s.clients[c].phase.Dead? <==> t.clients[c].phase.Dead?)
    && EffectiveWant(t.clients[c], ref) == EffectiveWant(s.clients[c], ref)
  }

  predicate Rebound(s: State, t: State, c: Cid) {
    && t.log == s.log && c in s.clients && c in t.clients
    && t.clients[c] == s.clients[c].(uid := t.clients[c].uid, createdRoot := t.clients[c].createdRoot)
  }

  lemma PrepareShape(s: State, d: Cid, newUid: Uid, c: Cid)
    requires d in s.clients && c in s.clients
    ensures Rebound(s, Prepare(s, d, newUid), c)
  {
  }

  lemma NewClientShape(s: State, e: Event, c: Cid)
    requires e.NewClient? && c in s.clients
    ensures Rebound(s, Next(s, e), c)
  {
  }

  lemma BindingShape(s: State, e: Event, c: Cid)
    requires (e.NewClient? || e.Bind?) && c in s.clients
    ensures Rebound(s, Next(s, e), c)
  {
    if e.NewClient? {
      NewClientShape(s, e, c);
    } else if e.c in s.clients {
      PrepareShape(s, e.c, e.newUid, c);
    }
  }

  lemma BindingKeepsClients(s: State, e: Event, c: Cid, ref: Ref)
    requires (e.NewClient? || e.Bind?) && c in s.clients && !s.clients[c].phase.Fresh?
    ensures ClientKept(s, Next(s, e), c, ref)
  {
    BindingShape(s, e, c);
  }

  lemma OthersKeepClients(s: State, e: Event, c: Cid, ref: Ref)
    requires !Private(e) && !e.Finish? && c in s.clients && !s.clients[c].phase.Fresh?
    ensures ClientKept(s, Next(s, e), c, ref)
  {
    if e.NewClient? || e.Bind? { BindingKeepsClients(s, e, c, ref); }
  }

  /** A client whose precondition for a service has been overtaken never writes that service again. */
  lemma BlockedForever(s: State, e: Event, c: Cid, ref: Ref)
    requires Inv(s) && Blocked(s, c, ref)
    ensures Blocked(Next(s, e), c, ref) && NoWrite(s, Next(s, e), c, ref)
  {
    if Private(e) {
      BlockedAfterPrivate(s, e, c, ref);
    } else if e.Finish? {
      BlockedAfterFinish(s, e.c, e.outcome, c, ref);
    } else {
      assert ref in s.objs ==> ObjOk(s, ref, s.objs[ref]);
      OthersTagStep(s, e, ref);
      OthersKeepClients(s, e, c, ref);
      AllPastForever(s, e);
      BlockedStep(s, Next(s, e), c, ref);
    }
  }

  lemma {:induction false} BlockedRun(s: State, events: seq<Event>, c: Cid, ref: Ref)
    requires Inv(s) && Blocked(s, c, ref)
    ensures Blocked(Run(s, events), c, ref) && NoWrite(s, Run(s, events), c, ref)
    decreases |events|
  {
    if events != [] {
      BlockedForever(s, events[0], c, ref);
      NextKeeps(s, events[0]);
      BlockedRun(Next(s, events[0]), events[1..], c, ref);
    }
  }

  /**
   A service that was removed, replaced or given another spec since a client's snapshot or last
   commit is never written by that client again, whatever happens later.
   */
  lemma ChangedSpecIsFinal(events: seq<Event>, later: seq<Event>, c: Cid, ref: Ref)
    requires var s := Run(Initial, events);
             && c in s.clients && !s.clients[c].phase.Fresh? && EffectiveWant(s.clients[c], ref).Some?
             && var v := EffectiveWant(s.clients[c], ref).value;
                ref !in s.objs || s.objs[ref].uid != v.uid || s.objs[ref].generation != v.generation
    ensures var s := Run(Initial, events); NoWrite(s, Run(s, later), c, ref)
  {
    ReachableInv(events);
    var s := Run(Initial, events);
    EffectiveWantOk(s, c, ref);
    BlockedRun(s, later, c, ref);
  }

  lemma ToggleEffect(s: State, d: Cid, prior: Obj, suspend: bool, newUid: Uid, heard: bool, ref: Ref)
    requires d in s.clients && s.clients[d].uid.Some? && Pending(s.clients[d]) == Some(Toggle(ref, prior, suspend))
    requires MemberFence(s, ref, Some(prior)) && newUid !in s.used
    ensures var t := Next(s, Finish(d, Lands(newUid, heard)));
            && t.clients == s.clients[d := t.clients[d]] && t.clients[d].uid == s.clients[d].uid
            && t.roots == s.roots && t.landed == s.landed && |t.log| == |s.log| + 1
            && ref in t.objs && t.objs[ref].tag == Some(d) && t.objs[ref].uid == prior.uid
            && t.objs[ref].spec == Spec(s.objs[ref].spec.config, suspend)
  {
    var req := Toggle(ref, prior, suspend);
    var (t, reply) := Land(s, d, req, newUid);
    var phase := if s.clients[d].phase.Lost? then Dead else Sent(req, if heard then reply else Failed);
    LandingIs(s, d, Lands(newUid, heard), t, reply, phase);
  }

  /** Once d's stop or start has landed, every client whose precondition is not d's own write is blocked. */
  lemma ToggleBlocks(s: State, d: Cid, prior: Obj, suspend: bool, newUid: Uid, heard: bool, c: Cid, ref: Ref)
    requires Inv(s) && d in s.clients && Pending(s.clients[d]) == Some(Toggle(ref, prior, suspend))
    requires MemberFence(s, ref, Some(prior)) && newUid !in s.used
    requires c != d && c in s.clients && !s.clients[c].phase.Fresh?
    requires EffectiveWant(s.clients[c], ref).Some? && EffectiveWant(s.clients[c], ref).value.tag != Some(d)
    ensures Blocked(Next(s, Finish(d, Lands(newUid, heard))), c, ref)
  {
    var v := EffectiveWant(s.clients[c], ref).value;
    EffectiveWantOk(s, c, ref);
    assert DataOk(s, d, s.clients[d]) && LockOk(s, d, s.clients[d]);
    assert RequestOk(s, d, s.clients[d], Toggle(ref, prior, suspend));
    assert ObjOk(s, ref, s.objs[ref]);
    var t := Next(s, Finish(d, Lands(newUid, heard)));
    ToggleEffect(s, d, prior, suspend, newUid, heard, ref);
    assert v.uid == prior.uid && v.tag.Some? ==> Past(t, v.tag.value);
  }

  /**
   A stop (or start) of a service is final for every client that has not read it: later runs
   contain no write of that service by such a client, so a resume between stages fails.
   */
  lemma NewerToggleIsFinal(events: seq<Event>, d: Cid, prior: Obj, suspend: bool, newUid: Uid, heard: bool,
                           later: seq<Event>, c: Cid, ref: Ref)
    requires var s := Run(Initial, events);
             && d in s.clients && Pending(s.clients[d]) == Some(Toggle(ref, prior, suspend))
             && MemberFence(s, ref, Some(prior)) && newUid !in s.used
             && c != d && c in s.clients && !s.clients[c].phase.Fresh?
             && EffectiveWant(s.clients[c], ref).Some? && EffectiveWant(s.clients[c], ref).value.tag != Some(d)
    ensures var t := Next(Run(Initial, events), Finish(d, Lands(newUid, heard)));
            && |t.log| == |Run(Initial, events).log| + 1
            && ref in t.objs && t.objs[ref].spec.suspend == suspend
            && NoWrite(t, Run(t, later), c, ref)
  {
    ReachableInv(events);
    var s := Run(Initial, events);
    assert DataOk(s, d, s.clients[d]);
    ToggleEffect(s, d, prior, suspend, newUid, heard, ref);
    ToggleBlocks(s, d, prior, suspend, newUid, heard, c, ref);
    NextKeeps(s, Finish(d, Lands(newUid, heard)));
    BlockedRun(Next(s, Finish(d, Lands(newUid, heard))), later, c, ref);
  }
}
