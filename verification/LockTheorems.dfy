/** What the mutation lock promises over every run of any number of operations. */
module LockTheorems {
  import opened Common
  import opened MutationLock
  import opened LockProofs

  /** For each instance UID at most one operation owns the lock. */
  lemma MutualExclusion(events: seq<Event>, a: OpId, b: OpId)
    requires var s := Run(Initial, events);
             a in s.ops && b in s.ops && s.ops[a].uid == s.ops[b].uid && Owning(s.ops[a]) && Owning(s.ops[b])
    ensures a == b
  {
    RunKeeps(Initial, events);
    var s := Run(Initial, events);
    assert OpOk(s, a) && OpOk(s, b);
  }

  /**
   An operation enters only by hearing that its own patch was accepted, and at that moment no
   other operation on the same UID is in its body, still releasing, or outlived by a subprocess
   that its body started and that inherited its lock descriptor.
   */
  lemma EntryExcludesOthers(events: seq<Event>, e: Event, o: OpId, b: OpId)
    requires var s, t := Run(Initial, events), Next(Run(Initial, events), e);
             && Enters(s, e, o) && b in s.ops && b != o && s.ops[b].uid == t.ops[o].uid
    ensures e == Receive(o)
    ensures var s := Run(Initial, events); !Owning(s.ops[b])
  {
    RunKeeps(Initial, events);
    var s := Run(Initial, events);
    OnlyReplyEnters(s, e, o);
    assert OpOk(s, o) && OpOk(s, b);
  }

  ghost predicate Enters(s: State, e: Event, o: OpId) {
    var t := Next(s, e);
    o in t.ops && Inside(t.ops[o]) && !(o in s.ops && Inside(s.ops[o]))
  }

  lemma OwnStepsDoNotEnter(s: State, e: Event, o: OpId)
    requires e.Start? || e.Flock? || e.Read? || e.GiveUp? || e.SendAcquire? || e.Spawn? || e.ChildExit? || e.Finish?
    ensures !Enters(s, e, o)
  {
  }

  lemma ReleaseAndRecoveryDoNotEnter(s: State, e: Event, o: OpId)
    requires e.ReadRelease? || e.Unlink? || e.Close? || e.OpenOwner? || e.TryLock? || e.SendClear?
             || e.UnlinkOwner? || e.Crash?
    ensures !Enters(s, e, o)
  {
  }

  lemma ServerDoesNotEnter(s: State, e: Event, o: OpId)
    requires e.Deliver? || e.Lose? || e.CreateRecord? || e.Touch? || e.MarkDeleting? || e.RemoveRecord?
    ensures !Enters(s, e, o)
  {
  }

  lemma OnlyReplyEnters(s: State, e: Event, o: OpId)
    requires Enters(s, e, o)
    ensures e == Receive(o) && o in s.ops && s.ops[o].phase.Acquiring? && s.ops[o].phase.reply == Accepted
    ensures Next(s, e).ops[o].uid == s.ops[o].uid
  {
    if e.Deliver? || e.Lose? || e.CreateRecord? || e.Touch? || e.MarkDeleting? || e.RemoveRecord? {
      ServerDoesNotEnter(s, e, o);
    } else if e.ReadRelease? || e.Unlink? || e.Close? || e.OpenOwner? || e.TryLock? || e.SendClear?
              || e.UnlinkOwner? || e.Crash? {
      ReleaseAndRecoveryDoNotEnter(s, e, o);
    } else if !e.Receive? && !e.Timeout? {
      OwnStepsDoNotEnter(s, e, o);
    }
  }

  /** While an operation is releasing, the record still names it: the "ownership changed" error never fires. */
  lemma OwnershipNeverChanges(events: seq<Event>, o: OpId)
    requires var s := Run(Initial, events); o in s.ops && s.ops[o].phase == Releasing
    ensures var t := Next(Run(Initial, events), ReadRelease(o)); o in t.ops && !t.ops[o].phase.Leaving?
  {
    RunKeeps(Initial, events);
    assert OpOk(Run(Initial, events), o);
  }

  /**
   Whenever a live record names an operation, or a patch still on the wire could make it do so,
   that operation's lock file exists.
   */
  lemma LockFileKept(events: seq<Event>, a: OpId)
    requires var s := Run(Initial, events);
             || (exists u :: u in s.recs && s.recs[u].live && s.recs[u].holder == Some(a))
             || (exists p :: p in s.net && p.to == Some(a))
    ensures a in Run(Initial, events).files
  {
    RunKeeps(Initial, events);
    var s := Run(Initial, events);
    if u :| u in s.recs && s.recs[u].live && s.recs[u].holder == Some(a) {
      assert RecordOk(s, u);
    } else {
      var p :| p in s.net && p.to == Some(a);
      assert PatchOk(s, p);
    }
  }

  /** The steps by which operation `r` clears the stale holder of version `v` of record `u`. */
  function Recovery(r: OpId, u: Uid, v: nat, a: OpId): seq<Event> {
    [Read(r), OpenOwner(r), TryLock(r)]
    + [SendClear(r), Deliver(Patch(r, u, v, Some(a), None), true), Receive(r), UnlinkOwner(r)]
  }

  lemma RunStep(s: State, e: Event, rest: seq<Event>)
    ensures Run(s, [e] + rest) == Run(Next(s, e), rest)
  {
    assert ([e] + rest)[1..] == rest;
  }

  /**
   A dead holder can always be cleared from its own workstation: its lock file exists, and once no
   other recoverer has that file locked, any operation polling there frees the record.
   */
  lemma StaleHolderCleared(events: seq<Event>, u: Uid, a: OpId, r: OpId)
    requires var s := Run(Initial, events);
             && s.current == Some(u) && u in s.recs && !s.recs[u].deleting
             && s.recs[u].holder == Some(a) && a in s.ops && Dead(s.ops[a])
             && r in s.ops && s.ops[r].phase == Polling && s.ops[r].host == s.ops[a].host
             && (s.ops[r].uid == None || s.ops[r].uid == Some(u))
    ensures var s := Run(Initial, events);
            && (a in s.locks ==> s.locks[a] in s.ops && Pinned(s.ops[s.locks[a]].phase) == Some(a))
            && (a !in s.locks ==>
                  var t := Run(s, Recovery(r, u, s.recs[u].version, a));
                  && u in t.recs && t.recs[u].holder == None && a !in t.files
                  && r in t.ops && t.ops[r].phase == Polling)
  {
    RunKeeps(Initial, events);
    var s := Run(Initial, events);
    assert RecordOk(s, u) && OpOk(s, a) && OpOk(s, r);
    assert a in s.locks ==> LockOk(s, a);
    if a !in s.locks {
      var v := s.recs[u].version;
      var lock := [Read(r), OpenOwner(r), TryLock(r)];
      var clear := [SendClear(r), Deliver(Patch(r, u, v, Some(a), None), true), Receive(r), UnlinkOwner(r)];
      ReachOwnerLocked(s, u, a, r);
      RunThree(s, lock);
      ReachCleared(Run(s, lock), u, v, a, r);
      RunFour(Run(s, lock), clear);
      RunSplit(s, lock, clear);
    }
  }

  lemma {:induction false} RunSplit(s: State, a: seq<Event>, b: seq<Event>)
    ensures Run(s, a + b) == Run(Run(s, a), b)
    decreases |a|
  {
    if a == [] {
      assert a + b == b;
    } else {
      assert (a + b)[0] == a[0] && (a + b)[1..] == a[1..] + b;
      RunSplit(Next(s, a[0]), a[1..], b);
    }
  }

  lemma RunFour(s: State, e: seq<Event>)
    requires |e| == 4
    ensures Run(s, e) == Next(Next(Next(Next(s, e[0]), e[1]), e[2]), e[3])
  {
    RunStep(s, e[0], e[1..]);
    assert [e[0]] + e[1..] == e;
    RunThree(Next(s, e[0]), e[1..]);
  }

  lemma RunThree(s: State, e: seq<Event>)
    requires |e| == 3
    ensures Run(s, e) == Next(Next(Next(s, e[0]), e[1]), e[2])
  {
    RunStep(s, e[0], e[1..]);
    RunStep(Next(s, e[0]), e[1], e[2..]);
    RunStep(Next(Next(s, e[0]), e[1]), e[2], []);
    assert [e[0]] + e[1..] == e && [e[1]] + e[2..] == e[1..] && [e[2]] + [] == e[2..];
  }

  /** Up to the flock: the stale file is opened and found unlocked. */
  lemma ReachOwnerLocked(s: State, u: Uid, a: OpId, r: OpId)
    requires s.current == Some(u) && u in s.recs && s.recs[u].live && !s.recs[u].deleting
    requires s.recs[u].holder == Some(a) && a in s.ops && a != r && a in s.files && a !in s.locks
    requires r in s.ops && s.ops[r].phase == Polling && s.ops[r].host == s.ops[a].host
    requires s.ops[r].uid == None || s.ops[r].uid == Some(u)
    ensures var t := Next(Next(Next(s, Read(r)), OpenOwner(r)), TryLock(r));
            r in t.ops && t.ops[r].phase == OwnerLocked(u, s.recs[u].version, a) && t.recs == s.recs
  {
    var s1 := Next(s, Read(r));
    assert s1.ops[r].phase == Observed(u, s.recs[u].version, Some(a));
    var s2 := Next(s1, OpenOwner(r));
    assert s2.ops[r].phase == OwnerOpen(u, s.recs[u].version, a);
  }

  /** From the flock on: the versioned patch is accepted and the file removed. */
  lemma ReachCleared(s: State, u: Uid, v: nat, a: OpId, r: OpId)
    requires r in s.ops && s.ops[r].phase == OwnerLocked(u, v, a) && a != r
    requires u in s.recs && s.recs[u].live && s.recs[u].version == v
    ensures var p := Patch(r, u, v, Some(a), None);
            var t := Next(Next(Next(Next(s, SendClear(r)), Deliver(p, true)), Receive(r)), UnlinkOwner(r));
            && u in t.recs && t.recs[u].holder == None && a !in t.files
            && r in t.ops && t.ops[r].phase == Polling
  {
    var p := Patch(r, u, v, Some(a), None);
    CloseRecovery(Next(Next(s, SendClear(r)), Deliver(p, true)), p, a, r);
  }

  lemma CloseRecovery(s: State, p: Patch, a: OpId, r: OpId)
    requires r in s.ops && s.ops[r].phase == Recovering(p, Accepted) && p.seen == Some(a)
    ensures var t := Next(Next(s, Receive(r)), UnlinkOwner(r));
            t.recs == s.recs && a !in t.files && r in t.ops && t.ops[r].phase == Polling
  {
    assert Next(s, Receive(r)).ops[r].phase == OwnerCleared(a);
  }
}
