/** What the submission protocol promises over every run of any number of clients. */
module SubmissionTheorems {
  import opened Common
  import opened Submission
  import opened SubmissionInv
  import opened SubmissionFrames
  import opened SubmissionProofs
  import opened SubmissionSteps

  lemma ReachableInv(events: seq<Event>)
    ensures Inv(Run(Initial, events))
  {
    RunKeeps(Initial, events);
  }

  /**
   Once a newer operation has claimed the instance, be it a submission or a deletion, the earlier
   claimant never again writes or deletes the record, a service or a dependency of that instance.
   */
  lemma Supersession(events: seq<Event>, i: nat, j: nat, k: nat)
    requires var log := Run(Initial, events).log;
             && i < j < k < |log| && log[i].Claimed? && log[j].Claimed? && log[i].uid == log[j].uid
    ensures var log := Run(Initial, events).log;
            && log[i].author != log[j].author
            && !(log[k].author == log[i].author && log[k].uid == log[i].uid)
  {
    ReachableInv(events);
    var s := Run(Initial, events);
    assert EntryOk(s, i) && EntryOk(s, j) && EntryOk(s, k);
    if !s.log[k].Claimed? {
      var m := LastClaimIndex(s.log[..k], s.log[k].uid);
      assert EntryOk(s, m);
      assert s.log[..k][j] == s.log[j];
    }
  }

  /** Every write is made under the author's own, still current, claim. */
  lemma WritesAreClaimed(events: seq<Event>, k: nat)
    requires k < |Run(Initial, events).log| && !Run(Initial, events).log[k].Claimed?
    ensures var log := Run(Initial, events).log;
            exists i :: 0 <= i < k && log[i].Claimed? && log[i].uid == log[k].uid && log[i].author == log[k].author
                        && forall j | i < j < k :: !(log[j].Claimed? && log[j].uid == log[k].uid)
  {
    ReachableInv(events);
    var s := Run(Initial, events);
    assert EntryOk(s, k);
    var i := LastClaimIndex(s.log[..k], s.log[k].uid);
    forall j | i < j < k ensures !(s.log[j].Claimed? && s.log[j].uid == s.log[k].uid) {
      assert s.log[..k][j] == s.log[j];
    }
    assert s.log[..k][i] == s.log[i];
  }

  /** The entry is about the object the server had under its ref before, and the one it has now. */
  predicate Honest(s: State, t: State, e: Entry) {
    && (e.ServiceWritten? || e.DependencyWritten? ==> Stored(s, e.ref) == e.before && Stored(t, e.ref) == Some(e.after))
    && (e.MemberDeleted? ==> Stored(s, e.ref) == Some(e.gone) && Stored(t, e.ref).Some? && Stored(t, e.ref).value.deleting)
  }

  /** From s to t at most one entry is added, an honest one, and member `ref` changes only with an entry about it. */
  predicate Logged(s: State, t: State, ref: Ref) {
    && s.log <= t.log && |t.log| <= |s.log| + 1
    && (|t.log| > |s.log| ==> Honest(s, t, t.log[|s.log|]))
    && (Stored(t, ref) != Stored(s, ref) ==> |t.log| > |s.log| && Concerns(t.log[|s.log|], ref))
  }

  predicate Concerns(e: Entry, ref: Ref) {
    (e.ServiceWritten? || e.DependencyWritten? || e.MemberDeleted?) && e.ref == ref
  }

  lemma MemberLandingIsLogged(s: State, c: Cid, req: Request, newUid: Uid, ref: Ref)
    requires c in s.clients && s.clients[c].uid.Some? && Target(req).Some?
    ensures Logged(s, LandMember(s, c, req, newUid).0, ref)
  {
  }

  lemma RootLandingIsLogged(s: State, c: Cid, req: Request, ref: Ref)
    requires c in s.clients && s.clients[c].uid.Some? && Target(req).None?
    ensures Logged(s, LandRoot(s, c, req).0, ref)
  {
  }

  /** One client's accepted write is one honest entry, and a client changes no member without one. */
  lemma LandingIsLogged(s: State, c: Cid, req: Request, newUid: Uid, ref: Ref)
    requires c in s.clients && s.clients[c].uid.Some?
    ensures Logged(s, Land(s, c, req, newUid).0, ref)
  {
    if Target(req).Some? { MemberLandingIsLogged(s, c, req, newUid, ref); } else { RootLandingIsLogged(s, c, req, ref); }
  }

  lemma BindingLogsNothing(s: State, e: Event)
    requires e.NewClient? || e.Bind?
    ensures Next(s, e).log == s.log && Next(s, e).objs == s.objs
  {
  }

  lemma LockingLogsNothing(s: State, e: Event)
    requires e.Acquire? || e.Release? || e.Recover? || e.TouchRoot? || e.RemoveRoot?
    ensures Next(s, e).log == s.log && Next(s, e).objs == s.objs
  {
  }

  lemma OutsideStepsLogNothing(s: State, e: Event)
    requires e.Edit? || e.Remove? || e.Create?
    ensures Next(s, e).log == s.log
  {
  }

  /** A completed request is landed or changes nothing but its sender's phase. */
  lemma CompletionIsLogged(s: State, c: Cid, outcome: Outcome, ref: Ref)
    requires c in s.clients && s.clients[c].uid.Some?
    ensures Logged(s, Complete(s, c, outcome), ref)
  {
    var cl := s.clients[c];
    if Pending(cl).Some? && outcome.Lands? { LandingIsLogged(s, c, cl.phase.req, outcome.newUid, ref); }
  }

  /**
   The log is honest and complete: in every step each new entry tells what the server stored before and
   after, and a member changes only by a logged write or by someone outside the protocol.
   */
  lemma LogIsHonest(s: State, e: Event, ref: Ref)
    ensures Logged(s, Next(s, e), ref) || ((e.Edit? || e.Remove? || e.Create?) && Next(s, e).log == s.log)
  {
    if e.Finish? {
      if e.c in s.clients && s.clients[e.c].uid.Some? { CompletionIsLogged(s, e.c, e.outcome, ref); }
    } else if e.Edit? || e.Remove? || e.Create? {
      OutsideStepsLogNothing(s, e);
    } else if e.NewClient? || e.Bind? {
      BindingLogsNothing(s, e);
    } else if !Private(e) {
      LockingLogsNothing(s, e);
    }
  }

  /** Every service write replaces exactly the intent of the author's snapshot or last commit. */
  lemma NoIntentOverwrittenUnseen(events: seq<Event>, k: nat)
    requires k < |Run(Initial, events).log| && Run(Initial, events).log[k].ServiceWritten?
    ensures var e := Run(Initial, events).log[k]; IntentOpt(e.before) == e.want
  {
    ReachableInv(events);
    assert EntryOk(Run(Initial, events), k);
  }

  /** A suspended service is set running only with the configuration its author committed. */
  lemma StagedResume(events: seq<Event>, k: nat)
    requires k < |Run(Initial, events).log|
    requires var e := Run(Initial, events).log[k];
             e.ServiceWritten? && e.before.Some? && e.before.value.spec.suspend && !e.after.spec.suspend
    ensures var e := Run(Initial, events).log[k];
            e.config == Some(e.before.value.spec.config) && e.after.spec.config == e.before.value.spec.config
  {
    ReachableInv(events);
    assert EntryOk(Run(Initial, events), k);
  }

  /** Cleanup deletes only what its author created, and a service only while its intent is the last commit. */
  lemma CleanupDeletesOwnCreations(events: seq<Event>, k: nat)
    requires k < |Run(Initial, events).log| && Run(Initial, events).log[k].MemberDeleted?
    ensures var s := Run(Initial, events);
            var e := s.log[k];
            && e.receipt == Some(e.gone.uid) && e.gone.uid in s.makers && s.makers[e.gone.uid] == e.author
            && e.gone.owner == e.uid
            && (e.ref.Service? ==> e.want == Some(IntentOf(e.gone)))
            && (e.ref.Dependency? ==> e.gone.tag == Some(e.author))
  {
    ReachableInv(events);
    assert EntryOk(Run(Initial, events), k);
  }

  /** Between two temporary claims of one instance a request has stripped its service references. */
  lemma TemporaryClaimsAreExclusive(events: seq<Event>, i: nat, k: nat)
    requires var log := Run(Initial, events).log;
             && i < k < |log| && log[i].Claimed? && log[i].temporary
             && log[k].Claimed? && log[k].temporary && log[i].uid == log[k].uid
    ensures var log := Run(Initial, events).log;
            exists j :: i < j < k && log[j].Requested? && log[j].uid == log[i].uid && !log[j].services
  {
    ReachableInv(events);
    var s := Run(Initial, events);
    assert EntryOk(s, k);
    var j := ClosedBetween(s.log[..k], s.log[k].uid, i);
    assert s.log[..k][j] == s.log[j];
  }

  lemma {:induction false} ClosedBetween(log: seq<Entry>, u: Uid, i: nat) returns (j: nat)
    requires i < |log| && log[i].Claimed? && log[i].uid == u && log[i].temporary && !TempOpen(log, u)
    ensures i < j < |log| && log[j].Requested? && log[j].uid == u && !log[j].services
  {
    var e := log[|log| - 1];
    if e.Requested? && e.uid == u && !e.services {
      j := |log| - 1;
    } else {
      j := ClosedBetween(log[..|log| - 1], u, i);
    }
  }

  /** The first temporary claim of an instance is its creator's; later ones found it storage-only. */
  lemma TemporaryClaimGuard(events: seq<Event>, c: Cid)
    requires var s := Run(Initial, events);
             c in s.clients && s.clients[c].kind == Deploy(true) && ClaimPending(s.clients[c].phase)
    ensures var s := Run(Initial, events);
            && s.clients[c].uid.Some? && s.clients[c].uid.value in s.roots
            && (s.clients[c].createdRoot || StorageOnly(s.roots[s.clients[c].uid.value]))
  {
    ReachableInv(events);
    var s := Run(Initial, events);
    assert DataOk(s, c, s.clients[c]) && LockOk(s, c, s.clients[c]);
  }
}
