/** Claiming an instance: what it takes, whom a claim replaces, and what a temporary submission leaves alone. */
module SubmissionClaims {
  import opened Common
  import opened Submission
  import opened SubmissionInv
  import opened SubmissionFrames
  import opened SubmissionProofs
  import opened SubmissionSteps
  import opened SubmissionTheorems
  import opened SubmissionStaleness
  import opened SubmissionEffects
  import opened SubmissionRuns

  // ----- An uncontested claim -----

  /** The service is what the client expects: absent where it saw none, else its own instance's, kept and of that intent. */
  predicate AsExpected(s: State, cl: Client, ref: Ref) {
    && ref in cl.expected
    && (ref in s.objs ==> cl.uid == Some(s.objs[ref].owner) && !s.objs[ref].deleting)
    && (if ref in cl.committed then Some(cl.committed[ref]) else cl.expected[ref])
       == (if ref in s.objs then Some(IntentOf(s.objs[ref])) else None)
  }

  /** The instance is there and open to this client. */
  predicate Claimable(s: State, cl: Client, u: Uid) {
    && cl.uid == Some(u) && s.current == Some(u) && u in s.roots && s.roots[u].live && !s.roots[u].deleting
    && (cl.kind == Deploy(true) && !cl.createdRoot ==> s.roots[u].requested && !s.roots[u].services)
  }

  function Validations(c: Cid, refs: seq<Ref>): seq<Event> {
    seq(|refs|, i requires 0 <= i < |refs| => Validate(c, refs[i]))
  }

  function SetOf(refs: seq<Ref>): set<Ref> {
    set ref | ref in refs
  }

  predicate NoRepeats(refs: seq<Ref>) {
    forall i, j | 0 <= i < j < |refs| :: refs[i] != refs[j]
  }

  lemma ValidateStep(s: State, c: Cid, ref: Ref)
    requires c in s.clients && s.clients[c].phase.Validating? && ref in s.clients[c].phase.todo
    ensures var t := Next(s, Validate(c, ref));
            t == SetPhase(s, c, if AsExpected(s, s.clients[c], ref) then Validating(s.clients[c].phase.todo - {ref})
                                else if ref in s.clients[c].expected then Leaving else t.clients[c].phase)
  {
    assert Next(s, Validate(c, ref)) == SetPhase(s, c, NextPhase(s, Validate(c, ref)));
  }

  lemma ExpectedFrame(s: State, c: Cid, phase: Phase, ref: Ref)
    requires c in s.clients && AsExpected(s, s.clients[c], ref)
    ensures var t := SetPhase(s, c, phase); AsExpected(t, t.clients[c], ref)
  {
  }

  lemma ValidateOne(s: State, c: Cid, refs: seq<Ref>)
    requires refs != [] && c in s.clients && s.clients[c].phase == Validating(SetOf(refs)) && NoRepeats(refs)
    requires AsExpected(s, s.clients[c], refs[0])
    ensures Run(s, Validations(c, refs)) == Run(SetPhase(s, c, Validating(SetOf(refs[1..]))), Validations(c, refs[1..]))
  {
    ValidateStep(s, c, refs[0]);
    assert SetOf(refs) - {refs[0]} == SetOf(refs[1..]);
    assert Validations(c, refs) == [Validate(c, refs[0])] + Validations(c, refs[1..]);
    RunSplit(s, [Validate(c, refs[0])], Validations(c, refs[1..]));
    RunOne(s, Validate(c, refs[0]));
  }

  lemma {:induction false} ValidateRun(s: State, c: Cid, refs: seq<Ref>)
    requires c in s.clients && s.clients[c].phase == Validating(SetOf(refs)) && NoRepeats(refs)
    requires forall ref | ref in refs :: AsExpected(s, s.clients[c], ref)
    ensures Run(s, Validations(c, refs)) == SetPhase(s, c, Validating({}))
    decreases |refs|
  {
    if refs == [] {
      assert SetOf(refs) == {} && SetPhase(s, c, Validating({})) == s;
    } else {
      var rest := refs[1..];
      ValidateOne(s, c, refs);
      forall ref | ref in rest
        ensures var t := SetPhase(s, c, Validating(SetOf(rest))); AsExpected(t, t.clients[c], ref) {
        ExpectedFrame(s, c, Validating(SetOf(rest)), ref);
      }
      ValidateRun(SetPhase(s, c, Validating(SetOf(rest))), c, rest);
      PhaseTwice(s, c, Validating(SetOf(rest)), Validating({}));
    }
  }

  lemma AcquireStep(s: State, c: Cid, u: Uid)
    requires c in s.clients && s.clients[c].phase == Outside && Claimable(s, s.clients[c], u) && s.roots[u].holder == None
    ensures Next(s, Acquire(c)) == SetPhase(SetHolder(s, u, Some(c)), c, Holding)
  {
  }

  lemma StartStep(s: State, c: Cid)
    requires c in s.clients && s.clients[c].phase == Holding && !s.clients[c].claimed && !s.clients[c].over
    ensures Next(s, StartBegin(c)) == SetPhase(s, c, Validating(s.clients[c].expected.Keys))
  {
  }

  lemma EnterStep(s: State, c: Cid, u: Uid)
    requires c in s.clients && s.clients[c].phase == Outside && !s.clients[c].claimed && !s.clients[c].over
    requires Claimable(s, s.clients[c], u) && s.roots[u].holder == None
    ensures Run(s, [Acquire(c), StartBegin(c)])
            == SetPhase(SetHolder(s, u, Some(c)), c, Validating(s.clients[c].expected.Keys))
  {
    RunTwo(s, Acquire(c), StartBegin(c));
    AcquireStep(s, c, u);
    StartStep(SetPhase(SetHolder(s, u, Some(c)), c, Holding), c);
    PhaseTwice(SetHolder(s, u, Some(c)), c, Holding, Validating(s.clients[c].expected.Keys));
  }

  lemma ClaimReadyStep(s: State, c: Cid, u: Uid)
    requires c in s.clients && s.clients[c].phase == Validating({}) && Claimable(s, s.clients[c], u)
    ensures Next(s, ReadRoot(c)) == SetPhase(s, c, ClaimReady(s.roots[u].version, s.roots[u].tag))
  {
    assert ReadForClaim(s, s.clients[c]) == ClaimReady(s.roots[u].version, s.roots[u].tag);
  }

  lemma SendClaimStep(s: State, c: Cid, version: nat, identity: Option<Cid>)
    requires c in s.clients && s.clients[c].phase == ClaimReady(version, identity)
    ensures Next(s, SendClaim(c)) == SetPhase(s, c, Sent(ClaimRoot(version, identity), Waiting))
  {
  }

  lemma ReadRootStep(s: State, c: Cid, u: Uid)
    requires c in s.clients && s.clients[c].phase == Validating({}) && Claimable(s, s.clients[c], u)
    ensures Run(s, [ReadRoot(c), SendClaim(c)])
            == SetPhase(s, c, Sent(ClaimRoot(s.roots[u].version, s.roots[u].tag), Waiting))
  {
    var version, identity := s.roots[u].version, s.roots[u].tag;
    RunTwo(s, ReadRoot(c), SendClaim(c));
    ClaimReadyStep(s, c, u);
    SendClaimStep(SetPhase(s, c, ClaimReady(version, identity)), c, version, identity);
    PhaseTwice(s, c, ClaimReady(version, identity), Sent(ClaimRoot(version, identity), Waiting));
  }

  lemma ClaimStep(s: State, c: Cid, u: Uid, newUid: Uid)
    requires c in s.clients && s.clients[c].uid == Some(u) && u in s.roots && s.roots[u].live
    requires s.clients[c].phase == Sent(ClaimRoot(s.roots[u].version, s.roots[u].tag), Waiting)
    ensures var t := Run(s, [Finish(c, Lands(newUid, true)), Hear(c)]);
            && u in t.roots && t.roots[u].tag == Some(c) && t.roots[u].holder == s.roots[u].holder
            && t.roots[u].services == (s.roots[u].services || s.clients[c].kind == Deploy(true))
            && t.objs == s.objs && t.log == s.log + [Claimed(u, c, s.clients[c].kind == Deploy(true))]
            && c in t.clients && t.clients[c] == s.clients[c].(claimed := true, phase := Checked)
  {
    ClaimWrites(s, c, s.roots[u].version, s.roots[u].tag, newUid, true);
    RunTwo(s, Finish(c, Lands(newUid, true)), Hear(c));
  }

  function Begin(c: Cid, refs: seq<Ref>, newUid: Uid): seq<Event> {
    [Acquire(c), StartBegin(c)] + (Validations(c, refs) + ([ReadRoot(c), SendClaim(c)] + [Finish(c, Lands(newUid, true)), Hear(c)]))
  }

  /**
   A submission or deletion that finds the instance open to it and every service as it expects it gets
   its claim: the record carries its operation, and from then on its requests may go out.
   */
  lemma ClaimSucceeds(s: State, c: Cid, u: Uid, refs: seq<Ref>, newUid: Uid)
    requires c in s.clients && s.clients[c].phase == Outside && !s.clients[c].claimed && !s.clients[c].over
    requires Claimable(s, s.clients[c], u) && s.roots[u].holder == None
    requires NoRepeats(refs) && SetOf(refs) == s.clients[c].expected.Keys
    requires forall ref | ref in refs :: AsExpected(s, s.clients[c], ref)
    ensures var t := Run(s, Begin(c, refs, newUid));
            && u in t.roots && t.roots[u].tag == Some(c) && t.roots[u].holder == Some(c)
            && t.roots[u].services == (s.roots[u].services || s.clients[c].kind == Deploy(true))
            && t.objs == s.objs && t.log == s.log + [Claimed(u, c, s.clients[c].kind == Deploy(true))]
            && c in t.clients && t.clients[c] == s.clients[c].(claimed := true, phase := Checked)
  {
    var claim := [Finish(c, Lands(newUid, true)), Hear(c)];
    var read := [ReadRoot(c), SendClaim(c)];
    var s1 := SetPhase(SetHolder(s, u, Some(c)), c, Validating(s.clients[c].expected.Keys));
    EnterStep(s, c, u);
    RunSplit(s, [Acquire(c), StartBegin(c)], Validations(c, refs) + (read + claim));
    forall ref | ref in refs ensures AsExpected(s1, s1.clients[c], ref) { assert AsExpected(s, s.clients[c], ref); }
    ValidateRun(s1, c, refs);
    RunSplit(s1, Validations(c, refs), read + claim);
    var s2 := SetPhase(s1, c, Validating({}));
    ReadRootStep(s2, c, u);
    RunSplit(s2, read, claim);
    ClaimStep(SetPhase(s2, c, Sent(ClaimRoot(s2.roots[u].version, s2.roots[u].tag), Waiting)), c, u, newUid);
  }

  // ----- Refused claims -----

  /** A service that is not as expected ends the claim before anything is written. */
  lemma UnexpectedServiceRefused(s: State, c: Cid, ref: Ref)
    requires c in s.clients && s.clients[c].phase.Validating? && ref in s.clients[c].phase.todo && ref in s.clients[c].expected
    requires !AsExpected(s, s.clients[c], ref)
    ensures Next(s, Validate(c, ref)) == SetPhase(s, c, Leaving)
  {
    ValidateStep(s, c, ref);
  }

  /** So does an instance that is gone, replaced, being deleted, or has services a temporary submission did not make. */
  lemma UnclaimableRefused(s: State, c: Cid)
    requires c in s.clients && s.clients[c].phase == Validating({}) && s.clients[c].uid.Some?
    requires s.current.Some? ==> s.current.value in s.roots && s.roots[s.current.value].live
    requires !Claimable(s, s.clients[c], s.clients[c].uid.value)
    ensures Next(s, ReadRoot(c)) == SetPhase(s, c, Leaving)
  {
    assert Next(s, ReadRoot(c)) == SetPhase(s, c, NextPhase(s, ReadRoot(c)));
  }

  // ----- Whom a claim replaces -----

  /** The operation a pending claim was computed to replace. */
  function Replaces(phase: Phase): Option<Cid>
    requires ClaimPending(phase)
  {
    if phase.ClaimReady? then phase.identity else phase.req.identity
  }

  /** A pending claim still faces the operation it has read. */
  predicate Faces(s: State, c: Cid)
    requires c in s.clients
  {
    var cl := s.clients[c];
    ClaimPending(cl.phase) ==> cl.uid.Some? && cl.uid.value in s.roots && s.roots[cl.uid.value].tag == Replaces(cl.phase)
  }

  ghost predicate AllFace(s: State) {
    forall c {:trigger Faces(s, c)} | c in s.clients :: Faces(s, c)
  }

  /** A client's own step makes a claim pending only by reading the record. */
  lemma PrivateFaces(s: State, e: Event)
    requires Private(e) && e.c in s.clients && Faces(s, e.c)
    ensures Faces(Next(s, e), e.c)
  {
    if e.Hear? && s.clients[e.c].phase.Sent? && !s.clients[e.c].phase.reply.Waiting? { ReceiveFaces(s, e.c); }
  }

  lemma ReceiveFaces(s: State, c: Cid)
    requires c in s.clients && s.clients[c].phase.Sent? && !s.clients[c].phase.reply.Waiting?
    ensures var cl := Receive(s, s.clients[c]);
            ClaimPending(cl.phase) ==> cl.uid.Some? && cl.uid.value in s.roots && s.roots[cl.uid.value].tag == Replaces(cl.phase)
  {
  }

  /** The lock's holder is the only one with a claim pending or a request on the wire for its record. */
  lemma OneInLock(s: State, c: Cid, d: Cid)
    requires Inv(s) && c in s.clients && d in s.clients && c != d
    requires InLock(s.clients[c].phase) && InLock(s.clients[d].phase)
    ensures s.clients[c].uid.Some? && s.clients[c].uid != s.clients[d].uid
  {
    assert LockOk(s, c, s.clients[c]) && LockOk(s, d, s.clients[d]);
  }

  /** A landing changes the operation of the sender's own record at most. */
  lemma LandingTags(s: State, d: Cid, req: Request, newUid: Uid)
    requires d in s.clients && s.clients[d].uid.Some?
    ensures var t := Land(s, d, req, newUid).0;
            && t.clients == s.clients
            && forall u | u in s.roots :: u in t.roots && (t.roots[u].tag != s.roots[u].tag ==> s.clients[d].uid == Some(u) && req.ClaimRoot?)
  {
  }

  lemma LandingFaces(s: State, d: Cid, outcome: Outcome, c: Cid)
    requires Inv(s) && AllFace(s) && d in s.clients && s.clients[d].uid.Some? && c in s.clients
    requires Pending(s.clients[d]).Some? && outcome.Lands?
    requires Target(Pending(s.clients[d]).value).None? || outcome.newUid !in s.used
    ensures var t := Next(s, Finish(d, outcome)); c in t.clients && Faces(t, c)
  {
    var req := Pending(s.clients[d]).value;
    LandingTags(s, d, req, outcome.newUid);
    LandedIs(s, d, req, outcome.newUid, outcome.heard);
    assert Faces(s, c);
    if c == d {
      if req.ClaimRoot? { OwnLandingFaces(s, d, req, outcome.newUid); }
    } else if ClaimPending(s.clients[c].phase) {
      OneInLock(s, c, d);
    }
  }

  /** An accepted claim is no longer pending; a refused one changed nothing. */
  lemma OwnLandingFaces(s: State, d: Cid, req: Request, newUid: Uid)
    requires d in s.clients && s.clients[d].uid.Some? && req.ClaimRoot?
    ensures var (t, reply) := Land(s, d, req, newUid); reply.Done? || (reply.Conflict? && t.roots == s.roots)
  {
  }

  lemma LossFaces(s: State, d: Cid, c: Cid)
    requires d in s.clients && s.clients[d].uid.Some? && Pending(s.clients[d]).Some? && c in s.clients && Faces(s, c)
    ensures var t := Next(s, Finish(d, Never)); c in t.clients && Faces(t, c)
  {
    NeverIs(s, d, if s.clients[d].phase.Lost? then Dead else Sent(Pending(s.clients[d]).value, Failed));
  }

  lemma IdleFinish(s: State, d: Cid, outcome: Outcome)
    requires !(d in s.clients && s.clients[d].uid.Some? && Pending(s.clients[d]).Some?)
             || (outcome.Lands? && Target(Pending(s.clients[d]).value).Some? && outcome.newUid in s.used)
    ensures Next(s, Finish(d, outcome)) == s
  {
  }

  lemma FinishFaces(s: State, d: Cid, outcome: Outcome, c: Cid)
    requires Inv(s) && AllFace(s) && c in s.clients
    ensures var t := Next(s, Finish(d, outcome)); c in t.clients && Faces(t, c)
  {
    assert Faces(s, c);
    if !(d in s.clients && s.clients[d].uid.Some? && Pending(s.clients[d]).Some?)
       || (outcome.Lands? && Target(Pending(s.clients[d]).value).Some? && outcome.newUid in s.used) {
      IdleFinish(s, d, outcome);
    } else if outcome.Never? {
      LossFaces(s, d, c);
    } else {
      LandingFaces(s, d, outcome, c);
    }
  }

  predicate KeepsTags(s: State, t: State) {
    forall u | u in s.roots :: u in t.roots && t.roots[u].tag == s.roots[u].tag
  }

  /** At most client `c` moves, to a phase without a pending claim. */
  predicate Moves(s: State, t: State, c: Cid) {
    && KeepsTags(s, t)
    && (t.clients == s.clients
        || (c in s.clients && (t.clients == s.clients[c := s.clients[c].(phase := Holding)]
                               || t.clients == s.clients[c := s.clients[c].(phase := Outside)])))
  }

  lemma AcquireMoves(s: State, c: Cid)
    ensures Moves(s, Next(s, Acquire(c)), c)
  {
  }

  lemma ReleaseMoves(s: State, c: Cid)
    ensures Moves(s, Next(s, Release(c)), c)
  {
  }

  lemma RootStepsKeepTags(s: State, e: Event)
    requires e.Recover? || e.TouchRoot? || e.RemoveRoot?
    ensures KeepsTags(s, Next(s, e)) && Next(s, e).clients == s.clients
  {
  }

  lemma MemberStepsKeepTags(s: State, e: Event)
    requires e.Edit? || e.Remove? || e.Create?
    ensures Next(s, e).roots == s.roots && Next(s, e).clients == s.clients
  {
  }

  lemma OthersFace(s: State, e: Event, c: Cid)
    requires AllFace(s) && !Private(e) && !e.Finish? && !e.NewClient? && !e.Bind? && c in Next(s, e).clients
    ensures Faces(Next(s, e), c)
  {
    if e.Acquire? { AcquireMoves(s, e.c); }
    else if e.Release? { ReleaseMoves(s, e.c); }
    else if e.Recover? || e.TouchRoot? || e.RemoveRoot? { RootStepsKeepTags(s, e); }
    else { MemberStepsKeepTags(s, e); }
    assert Faces(s, c);
  }

  lemma NewClientFaces(s: State, e: Event, c: Cid)
    requires AllFace(s) && e.NewClient? && c in Next(s, e).clients
    ensures Faces(Next(s, e), c)
  {
    if c in s.clients { assert Faces(s, c); }
  }

  /** A client binds outside the lock, to a record that is there or to a new one. */
  lemma PrepareTags(s: State, d: Cid, newUid: Uid)
    requires d in s.clients && (newUid in s.roots ==> newUid in s.used)
    ensures var t := Prepare(s, d, newUid);
            && KeepsTags(s, t) && d in t.clients && t.clients == s.clients[d := t.clients[d]]
            && t.clients[d].phase == s.clients[d].phase
  {
  }

  lemma BindMoves(s: State, d: Cid, newUid: Uid)
    requires Inv(s)
    ensures var t := Next(s, Bind(d, newUid));
            && KeepsTags(s, t)
            && (t.clients == s.clients
                || (d in s.clients && d in t.clients && t.clients == s.clients[d := t.clients[d]]
                    && s.clients[d].phase == Outside && t.clients[d].phase == Outside))
  {
    if newUid in s.roots { assert RootOk(s, newUid); }
    if d in s.clients { PrepareTags(s, d, newUid); }
  }

  lemma BindFaces(s: State, d: Cid, newUid: Uid, c: Cid)
    requires Inv(s) && AllFace(s) && c in Next(s, Bind(d, newUid)).clients
    ensures Faces(Next(s, Bind(d, newUid)), c)
  {
    BindMoves(s, d, newUid);
    MovedFaces(s, Next(s, Bind(d, newUid)), d, c);
  }

  lemma MovedFaces(s: State, t: State, d: Cid, c: Cid)
    requires AllFace(s) && KeepsTags(s, t) && c in t.clients
    requires t.clients == s.clients || (d in s.clients && d in t.clients && t.clients == s.clients[d := t.clients[d]]
                                        && t.clients[d].phase == Outside)
    ensures Faces(t, c)
  {
    assert c in s.clients && Faces(s, c);
  }

  lemma StepFaces(s: State, e: Event)
    requires Inv(s) && AllFace(s)
    ensures AllFace(Next(s, e))
  {
    var t := Next(s, e);
    forall c {:trigger Faces(t, c)} | c in t.clients ensures Faces(t, c) {
      if Private(e) {
        assert Faces(s, c);
        if c == e.c { PrivateFaces(s, e); }
      } else if e.Finish? {
        assert c in s.clients by { if c !in s.clients { FinishAddsNobody(s, e.c, e.outcome); } }
        FinishFaces(s, e.c, e.outcome, c);
      } else if e.NewClient? {
        NewClientFaces(s, e, c);
      } else if e.Bind? {
        BindFaces(s, e.c, e.newUid, c);
      } else {
        OthersFace(s, e, c);
      }
    }
  }

  lemma FinishAddsNobody(s: State, d: Cid, outcome: Outcome)
    ensures Next(s, Finish(d, outcome)).clients.Keys == s.clients.Keys
  {
    if d in s.clients && s.clients[d].uid.Some? && Pending(s.clients[d]).Some? && outcome.Lands? {
      LandingTags(s, d, Pending(s.clients[d]).value, outcome.newUid);
    }
  }

  lemma {:induction false} RunFaces(s: State, events: seq<Event>)
    requires Inv(s) && AllFace(s)
    ensures AllFace(Run(s, events))
    decreases |events|
  {
    if events != [] {
      NextKeeps(s, events[0]);
      StepFaces(s, events[0]);
      RunFaces(Next(s, events[0]), events[1..]);
    }
  }

  /** An accepted claim replaces exactly the operation its sender had read, however long it was under way. */
  lemma ClaimReplacesWhatItRead(events: seq<Event>, c: Cid, version: nat, identity: Option<Cid>, newUid: Uid, heard: bool)
    requires Accepts(Run(Initial, events), c, ClaimRoot(version, identity), newUid)
    ensures var s := Run(Initial, events);
            var u := s.clients[c].uid.value;
            var t := Next(s, Finish(c, Lands(newUid, heard)));
            s.roots[u].tag == identity && u in t.roots && t.roots[u].tag == Some(c)
  {
    var s := Run(Initial, events);
    RunFaces(Initial, events);
    assert Faces(s, c);
    ClaimWrites(s, c, version, identity, newUid, heard);
  }

  // ----- Temporary submissions and retained storage -----

  /** A temporary submission changes a dependency only if it made it. */
  lemma TemporaryLeavesStorage(events: seq<Event>, c: Cid, req: Request, newUid: Uid)
    requires var s := Run(Initial, events);
             && Accepts(s, c, req, newUid) && s.clients[c].kind == Deploy(true)
             && Target(req).Some? && Target(req).value.0.Dependency? && Target(req).value.0 in s.objs
    ensures var s := Run(Initial, events);
            var o := s.objs[Target(req).value.0];
            o.uid in s.makers && s.makers[o.uid] == c
  {
    var s := Run(Initial, events);
    ReachableInv(events);
    var (ref, base) := Target(req).value;
    assert DataOk(s, c, s.clients[c]) && RequestOk(s, c, s.clients[c], req);
    assert ref in s.clients[c].created ==> ReceiptOk(s, c, s.clients[c], ref);
  }

  // ----- Who may change the record -----

  /**
   The record is deleted only by a deletion or by the submission that made it, and its services are
   given up only by a temporary submission.
   */
  lemma RecordChangedByRight(events: seq<Event>, c: Cid, req: Request, newUid: Uid)
    requires Accepts(Run(Initial, events), c, req, newUid)
    ensures var s := Run(Initial, events);
            var cl := s.clients[c];
            && (req.DeleteRoot? ==> cl.kind.Delete? || s.roots[cl.uid.value].creator == Some(c))
            && (req.RequestRoot? ==> cl.kind.Deploy? && (req.services || cl.kind.temporary))
            && (!req.ClaimRoot? ==> cl.uid.value in s.roots && s.roots[cl.uid.value].tag == Some(c))
  {
    var s := Run(Initial, events);
    ReachableInv(events);
    assert DataOk(s, c, s.clients[c]) && LockOk(s, c, s.clients[c]) && RequestOk(s, c, s.clients[c], req);
  }
}
