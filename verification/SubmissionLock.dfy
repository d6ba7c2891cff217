/** The submission protocol's holder is a lock of `LockSpec`, and grants and frees whatever that allows. */
module SubmissionLock {
  import opened Common
  import opened Submission
  import opened SubmissionInv
  import opened SubmissionSteps
  import Spec = LockSpec

  function Owners(roots: map<Uid, Root>): map<Uid, Cid> {
    map u | u in roots && roots[u].holder.Some? :: roots[u].holder.value
  }

  function Busy(clients: map<Cid, Client>): map<Cid, Uid> {
    map c | c in clients && InLock(clients[c].phase) && clients[c].uid.Some? :: clients[c].uid.value
  }

  function View(s: State): Spec.Lock {
    Spec.Lock(Owners(s.roots), Busy(s.clients))
  }

  lemma ViewIsOk(s: State)
    requires Inv(s)
    ensures Spec.Ok(View(s))
  {
    forall c | c in View(s).busy ensures View(s).busy[c] in View(s).owner && View(s).owner[View(s).busy[c]] == c {
      assert LockOk(s, c, s.clients[c]);
    }
  }

  predicate HoldersKept(s: State, t: State) {
    forall u | u in s.roots && s.roots[u].holder.Some? && u in t.roots && t.roots[u].holder.Some? ::
      t.roots[u].holder == s.roots[u].holder
  }

  lemma LandingKeepsHolders(s: State, c: Cid, req: Request, newUid: Uid)
    requires c in s.clients && s.clients[c].uid.Some?
    ensures HoldersKept(s, Land(s, c, req, newUid).0)
  {
  }

  lemma FinishKeepsHolders(s: State, c: Cid, outcome: Outcome)
    requires c in s.clients && s.clients[c].uid.Some?
    ensures HoldersKept(s, Complete(s, c, outcome))
  {
    if outcome.Lands? && (s.clients[c].phase.Lost? || s.clients[c].phase.Sent?) {
      LandingKeepsHolders(s, c, s.clients[c].phase.req, outcome.newUid);
    }
  }

  lemma OthersKeepHolders(s: State, e: Event)
    requires !e.Finish?
    ensures HoldersKept(s, Next(s, e))
  {
  }

  lemma StepKeepsHolders(s: State, e: Event)
    ensures HoldersKept(s, Next(s, e))
  {
    if e.Finish? {
      if e.c in s.clients && s.clients[e.c].uid.Some? { FinishKeepsHolders(s, e.c, e.outcome); }
    } else {
      OthersKeepHolders(s, e);
    }
  }

  lemma HoldersStep(s: State, t: State)
    requires Inv(s) && Inv(t) && HoldersKept(s, t)
    ensures Spec.Step(View(s), View(t))
  {
    ViewIsOk(s);
    ViewIsOk(t);
  }

  /** Every step of every reachable state of the submission protocol is a step of the specification. */
  lemma SubmissionUsesSpec(events: seq<Event>, e: Event)
    ensures var s := Run(Initial, events); Spec.Step(View(s), View(Next(s, e)))
  {
    RunKeeps(Initial, events);
    var s := Run(Initial, events);
    NextKeeps(s, e);
    StepKeepsHolders(s, e);
    HoldersStep(s, Next(s, e));
  }

  lemma OwnersUpdate(roots: map<Uid, Root>, u: Uid, r: Root)
    ensures Owners(roots[u := r]) == if r.holder.Some? then Owners(roots)[u := r.holder.value] else Owners(roots) - {u}
  {
  }

  lemma BusyUpdate(clients: map<Cid, Client>, c: Cid, cl: Client)
    ensures Busy(clients[c := cl]) ==
            if InLock(cl.phase) && cl.uid.Some? then Busy(clients)[c := cl.uid.value] else Busy(clients) - {c}
  {
  }

  lemma AcquireShape(s: State, c: Cid, u: Uid)
    requires CanAcquire(s, c) && s.clients[c].uid == Some(u)
    ensures var t := Next(s, Acquire(c));
            && t.roots == s.roots[u := s.roots[u].(holder := Some(c), version := s.clock + 1)]
            && t.clients == s.clients[c := s.clients[c].(phase := Holding)]
  {
  }

  lemma ReleaseShape(s: State, c: Cid, u: Uid)
    requires c in s.clients && InLock(s.clients[c].phase) && !s.clients[c].phase.Sent? && !s.clients[c].phase.Lost?
    requires s.clients[c].uid == Some(u) && u in s.roots
    ensures var t := Next(s, Release(c));
            && t.roots == s.roots[u := s.roots[u].(holder := None, version := s.clock + 1)]
            && t.clients == s.clients[c := s.clients[c].(phase := Outside)]
  {
  }

  lemma RecoverShape(s: State, c: Cid, u: Uid)
    requires c in s.clients && s.clients[c].phase == Dead && u in s.roots && s.roots[u].holder == Some(c)
    ensures var t := Next(s, Recover(u));
            t.roots == s.roots[u := s.roots[u].(holder := None, version := s.clock + 1)] && t.clients == s.clients
  {
  }

  /** A free, current, undeleted record is granted to any bound client outside the lock. */
  lemma GrantIsAdmitted(s: State, c: Cid, u: Uid)
    requires c in s.clients && s.clients[c].phase == Outside && s.clients[c].uid == Some(u)
    requires s.current == Some(u) && u in s.roots && !s.roots[u].deleting && u !in View(s).owner
    ensures var t := Next(s, Acquire(c));
            && View(t).owner == View(s).owner[u := c] && View(t).busy == View(s).busy[c := u]
  {
    assert s.roots[u].holder == None;
    AcquireShape(s, c, u);
    OwnersUpdate(s.roots, u, s.roots[u].(holder := Some(c), version := s.clock + 1));
    BusyUpdate(s.clients, c, s.clients[c].(phase := Holding));
  }

  predicate OwnerWorks(s: State, c: Cid) {
    c in s.clients && (InLock(s.clients[c].phase) || s.clients[c].phase.Dead?)
  }

  predicate OwnerAt(s: State, u: Uid) {
    u in s.roots && s.roots[u].holder.Some? ==> OwnerWorks(s, s.roots[u].holder.value)
  }

  /** Every owner is in the lock, or dead. */
  ghost predicate OwnersWork(s: State) {
    forall u {:trigger OwnerAt(s, u)} :: OwnerAt(s, u)
  }

  lemma HearStaysIn(s: State, cl: Client)
    requires cl.phase.Sent? && !cl.phase.reply.Waiting?
    ensures InLock(Receive(s, cl).phase)
  {
    var reply, req := cl.phase.reply, cl.phase.req;
    if reply.Done? && reply.obj.Some? && Target(req).Some? && !req.DeleteMember? {
      assert Receive(s, cl) == Commit(cl, req, reply.obj.value);
      CommitStaysIn(cl, req, reply.obj.value);
    } else {
      assert Receive(s, cl).phase == AfterReply(s, cl);
    }
  }

  lemma CommitStaysIn(cl: Client, req: Request, o: Obj)
    requires Target(req).Some? && !req.DeleteMember?
    ensures Commit(cl, req, o).phase == Checked || Commit(cl, req, o).phase.Observed?
  {
  }

  lemma PhaseStaysIn(s: State, e: Event)
    requires Private(e) && !e.Snapshot? && !e.Hear? && OwnerWorks(s, e.c)
    ensures InLock(NextPhase(s, e)) || NextPhase(s, e).Dead?
  {
  }

  lemma PrivateStaysIn(s: State, e: Event)
    requires Private(e) && OwnerWorks(s, e.c)
    ensures InLock(Acting(s, e).phase) || Acting(s, e).phase.Dead?
  {
    var cl := s.clients[e.c];
    if e.Hear? {
      if cl.phase.Sent? && !cl.phase.reply.Waiting? { HearStaysIn(s, cl); }
    } else if !e.Snapshot? {
      PhaseStaysIn(s, e);
    }
  }

  lemma CompletionStaysIn(s: State, d: Cid, outcome: Outcome, c: Cid)
    requires d in s.clients && s.clients[d].uid.Some? && OwnerWorks(s, c)
    ensures OwnerWorks(Complete(s, d, outcome), c)
  {
    var phase := s.clients[d].phase;
    if outcome.Lands? && (phase.Lost? || phase.Sent?) { LandingKeepsClients(s, d, phase.req, outcome.newUid); }
  }

  lemma LandingKeepsClients(s: State, d: Cid, req: Request, newUid: Uid)
    requires d in s.clients && s.clients[d].uid.Some?
    ensures Land(s, d, req, newUid).0.clients == s.clients
  {
  }

  predicate HolderKept(s: State, t: State, u: Uid) {
    t.roots.Keys == s.roots.Keys && (u in s.roots ==> t.roots[u].holder == s.roots[u].holder)
  }

  lemma MemberLandingKeepsRoots(s: State, c: Cid, req: Request, newUid: Uid)
    requires c in s.clients && s.clients[c].uid.Some? && Target(req).Some?
    ensures LandMember(s, c, req, newUid).0.roots == s.roots
  {
  }

  lemma RootLandingKeepsHolder(s: State, c: Cid, req: Request, u: Uid)
    requires c in s.clients && s.clients[c].uid.Some? && Target(req).None?
    ensures HolderKept(s, LandRoot(s, c, req).0, u)
  {
  }

  lemma CompletionKeepsRoots(s: State, c: Cid, outcome: Outcome, u: Uid)
    requires c in s.clients && s.clients[c].uid.Some?
    ensures HolderKept(s, Complete(s, c, outcome), u)
  {
    var phase := s.clients[c].phase;
    if outcome.Lands? && (phase.Lost? || phase.Sent?) {
      if Target(phase.req).Some? { MemberLandingKeepsRoots(s, c, phase.req, outcome.newUid); }
      else { RootLandingKeepsHolder(s, c, phase.req, u); }
    }
  }

  lemma PrivateKeepsOwner(s: State, e: Event, u: Uid)
    requires Private(e) && OwnerAt(s, u)
    ensures OwnerAt(Next(s, e), u)
  {
    if e.c in s.clients && u in s.roots && s.roots[u].holder == Some(e.c) { PrivateStaysIn(s, e); }
  }

  lemma FinishKeepsOwner(s: State, e: Event, u: Uid)
    requires e.Finish? && OwnerAt(s, u)
    ensures OwnerAt(Next(s, e), u)
  {
    if e.c in s.clients && s.clients[e.c].uid.Some? {
      CompletionKeepsRoots(s, e.c, e.outcome, u);
      if u in s.roots && s.roots[u].holder.Some? { CompletionStaysIn(s, e.c, e.outcome, s.roots[u].holder.value); }
    }
  }

  lemma BindingKeepsOwner(s: State, e: Event, u: Uid)
    requires (e.NewClient? || e.Bind?) && OwnerAt(s, u)
    ensures OwnerAt(Next(s, e), u)
  {
  }

  lemma LockingKeepsOwner(s: State, e: Event, u: Uid)
    requires (e.Acquire? || e.Release? || e.Recover?) && OwnerAt(s, u)
    requires u in s.roots && s.roots[u].holder.Some? && s.roots[u].holder.value in s.clients ==>
               s.clients[s.roots[u].holder.value].uid == Some(u)
    ensures OwnerAt(Next(s, e), u)
  {
  }

  lemma RootEditKeepsOwner(s: State, e: Event, u: Uid)
    requires (e.TouchRoot? || e.RemoveRoot?) && OwnerAt(s, u)
    ensures OwnerAt(Next(s, e), u)
  {
  }

  lemma MemberEditKeepsRoots(s: State, e: Event)
    requires e.Edit? || e.Remove? || e.Create?
    ensures Next(s, e).roots == s.roots && Next(s, e).clients == s.clients
  {
  }

  lemma OwnersWorkAfter(s: State, e: Event)
    requires Inv(s) && OwnersWork(s)
    ensures OwnersWork(Next(s, e))
  {
    var t := Next(s, e);
    forall u: Uid ensures OwnerAt(t, u) {
      assert OwnerAt(s, u) && (u in s.roots ==> RootOk(s, u));
      if Private(e) { PrivateKeepsOwner(s, e, u); }
      else if e.Finish? { FinishKeepsOwner(s, e, u); }
      else if e.NewClient? || e.Bind? { BindingKeepsOwner(s, e, u); }
      else if e.Acquire? || e.Release? || e.Recover? { LockingKeepsOwner(s, e, u); }
      else if e.TouchRoot? || e.RemoveRoot? { RootEditKeepsOwner(s, e, u); }
      else { MemberEditKeepsRoots(s, e); }
    }
  }

  lemma {:induction false} OwnersAlwaysWork(s: State, events: seq<Event>)
    requires Inv(s) && OwnersWork(s)
    ensures OwnersWork(Run(s, events))
    decreases |events|
  {
    if events != [] {
      OwnersWorkAfter(s, events[0]);
      NextKeeps(s, events[0]);
      OwnersAlwaysWork(Next(s, events[0]), events[1..]);
    }
  }

  /**
   Every owner without a request in flight frees the record, by leaving if it is alive and by recovery
   if it is dead.
   */
  lemma FreeIsAdmitted(events: seq<Event>, c: Cid, u: Uid)
    requires var s := Run(Initial, events);
             u in View(s).owner && View(s).owner[u] == c
             && (c in s.clients ==> !s.clients[c].phase.Sent? && !s.clients[c].phase.Lost?)
    ensures var s := Run(Initial, events);
            && c in s.clients
            && var t := if s.clients[c].phase.Dead? then Next(s, Recover(u)) else Next(s, Release(c));
               View(t).owner == View(s).owner - {u} && c !in View(t).busy
  {
    RunKeeps(Initial, events);
    OwnersAlwaysWork(Initial, events);
    var s := Run(Initial, events);
    assert RootOk(s, u) && OwnerAt(s, u);
    OwnersUpdate(s.roots, u, s.roots[u].(holder := None, version := s.clock + 1));
    if s.clients[c].phase.Dead? {
      RecoverShape(s, c, u);
    } else {
      ReleaseShape(s, c, u);
      BusyUpdate(s.clients, c, s.clients[c].(phase := Outside));
    }
  }
}
