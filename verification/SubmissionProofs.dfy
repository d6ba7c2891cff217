/** Every step of `Submission` keeps `SubmissionInv.Inv`. */
module SubmissionProofs {
  import opened Common
  import opened Submission
  import opened SubmissionInv
  import opened SubmissionFrames

  // ----- Writes to members -----

  /** `o` is a legal next version of the object under `ref`, or a newly created one. */
  predicate NewVersion(s: State, ref: Ref, o: Obj) {
    && o.version == s.clock + 1
    && (o.tag.Some? ==> TagOk(s, o.tag.value, o.owner))
    && ((o.uid !in s.used && o.generation == 1)
        || (ref in s.objs && o.uid == s.objs[ref].uid && o.owner == s.objs[ref].owner
            && ((o.generation == s.objs[ref].generation && o.spec == s.objs[ref].spec)
                || o.generation == s.objs[ref].generation + 1)))
  }

  lemma StoreExtends(s: State, ref: Ref, o: Obj)
    requires Inv(s) && NewVersion(s, ref, o)
    ensures Extends(s, Store(s, ref, o))
    ensures ObjsOk(Store(s, ref, o))
  {
    var t := Store(s, ref, o);
    assert ref in s.objs ==> ObjOk(s, ref, s.objs[ref]);
    forall k | k in s.specs ensures k in t.specs && t.specs[k] == s.specs[k] {
      if k == (o.uid, o.generation) { assert k.0 in s.used; }
    }
    forall r | r in t.objs ensures MemberExtends(s, t, r) {}
    StoreObjs(s, ref, o);
  }

  lemma StoreObjs(s: State, ref: Ref, o: Obj)
    requires Inv(s) && NewVersion(s, ref, o) && Extends(s, Store(s, ref, o))
    ensures ObjsOk(Store(s, ref, o))
  {
    var t := Store(s, ref, o);
    forall r | r in t.objs ensures ObjOk(t, r, t.objs[r]) {
      if r != ref {
        assert ObjOk(s, r, s.objs[r]);
        ObjFrame(s, t, r, s.objs[r]);
      }
    }
    forall a, b | a in t.objs && b in t.objs && t.objs[a].uid == t.objs[b].uid ensures a == b {
      assert a in s.objs ==> ObjOk(s, a, s.objs[a]);
      assert b in s.objs ==> ObjOk(s, b, s.objs[b]);
    }
    forall a, k | a in t.objs && k in t.specs && k.0 == t.objs[a].uid ensures k.1 <= t.objs[a].generation {
      assert a in s.objs ==> ObjOk(s, a, s.objs[a]);
      assert k in s.specs ==> k.0 in s.used;
    }
  }

  lemma RootsAfterPlainEntry(s: State, t: State, added: seq<Entry>)
    requires RootsOk(s) && t.roots == s.roots && t.current == s.current && Extends(s, t)
    requires t.log == s.log + added && |added| <= 1
    requires |added| == 1 ==> !added[0].Claimed? && !added[0].Requested?
    ensures RootsOk(t)
  {
    forall u | u in t.roots ensures RootOk(t, u) {
      assert RootOk(s, u);
      OtherRoot(s, t, added, u, u);
    }
  }

  lemma SameLocks(s: State, t: State)
    requires LocksOk(s) && t.roots == s.roots && t.clients == s.clients
    ensures LocksOk(t)
  {
    forall x | x in t.clients ensures LockOk(t, x, t.clients[x]) { assert LockOk(s, x, s.clients[x]); }
  }

  /** A step that writes members and appends at most one entry that is neither a claim nor a request. */
  lemma MemberStep(s: State, t: State, added: seq<Entry>)
    requires Inv(s) && Extends(s, t) && ObjsOk(t)
    requires t.roots == s.roots && t.current == s.current && t.clients == s.clients && t.landed == s.landed
    requires t.log == s.log + added && |added| <= 1
    requires |added| == 1 ==> !added[0].Claimed? && !added[0].Requested? && EntryOk(t, |s.log|)
    ensures Inv(t)
  {
    RootsAfterPlainEntry(s, t, added);
    AllClients(s, t);
    SameLocks(s, t);
    GrownLog(s, t, added);
  }

  /** The request client c has on the wire. */
  function Pending(cl: Client): Option<Request> {
    if cl.phase.Lost? then Some(cl.phase.req)
    else if cl.phase.Sent? && cl.phase.reply == Waiting then Some(cl.phase.req)
    else None
  }

  lemma WrittenIsNew(s: State, c: Cid, req: Request, newUid: Uid)
    requires Inv(s) && c in s.clients && s.clients[c].uid.Some? && Pending(s.clients[c]) == Some(req)
    requires Target(req).Some? && newUid !in s.used
    requires var (ref, base) := Target(req).value; MemberFence(s, ref, base)
    ensures var (ref, base) := Target(req).value;
            && Stored(s, ref) == base
            && NewVersion(s, ref, Written(c, s.clients[c].uid.value, req, Stored(s, ref), s.clock + 1, newUid))
  {
    var cl := s.clients[c];
    assert DataOk(s, c, cl);
    var (ref, base) := Target(req).value;
    assert RequestOk(s, c, cl, req);
    assert c in s.landed;
    if base.Some? {
      assert ObjOk(s, ref, base.value);
      assert s.objs[ref] == base.value;
      assert ObjOk(s, ref, s.objs[ref]);
    }
  }

  /** A committed configuration is the one stored at the committed generation. */
  lemma AppliedIsStored(s: State, c: Cid, cl: Client, ref: Ref, o: Obj)
    requires DataOk(s, c, cl) && ref in cl.applied && ObjOk(s, ref, o) && Some(IntentOf(o)) == Want(cl, ref)
    ensures o.spec.config == cl.applied[ref]
  {
    assert ref in cl.committed;
    assert CommitOk(s, c, cl, ref);
  }

  /** A service write replaces what its author wanted, and resumes only its own configuration. */
  lemma ServiceEntryOk(s: State, c: Cid, req: Request, stored: Option<Obj>, o: Obj)
    requires c in s.clients && s.clients[c].uid.Some? && (req.Configure? || req.Toggle?)
    requires DataOk(s, c, s.clients[c]) && RequestOk(s, c, s.clients[c], req) && Target(req) == Some((req.ref, stored))
    requires o.spec == Written(c, s.clients[c].uid.value, req, stored, s.clock + 1, o.uid).spec
    ensures var e := Log(c, s.clients[c], s.clients[c].uid.value, req, stored, o);
            && e.ServiceWritten? && IntentOpt(e.before) == e.want
            && (e.before.Some? && e.before.value.spec.suspend && !e.after.spec.suspend ==>
                  e.config == Some(e.after.spec.config) && e.config == Some(e.before.value.spec.config))
  {
    if req.Toggle? && !req.suspend { AppliedIsStored(s, c, s.clients[c], req.ref, req.prior); }
  }

  /** A cleanup deletes what its author created, at the intent it committed. */
  lemma DeletionEntryOk(s: State, c: Cid, req: Request, stored: Option<Obj>, o: Obj)
    requires c in s.clients && s.clients[c].uid.Some? && req.DeleteMember?
    requires DataOk(s, c, s.clients[c]) && RequestOk(s, c, s.clients[c], req) && Target(req) == Some((req.ref, stored))
    ensures var e := Log(c, s.clients[c], s.clients[c].uid.value, req, stored, o);
            && e.MemberDeleted? && e.receipt == Some(e.gone.uid) && e.gone.uid in s.makers && s.makers[e.gone.uid] == c
            && e.gone.owner == e.uid
            && (e.ref.Service? ==> e.want == Some(IntentOf(e.gone)))
            && (e.ref.Dependency? ==> e.gone.tag == Some(c))
  {
    var cl := s.clients[c];
    assert ReceiptOk(s, c, cl, req.ref);
    assert req.ref in cl.committed ==> CommitOk(s, c, cl, req.ref);
  }

  /** An entry by the current claimant, whatever its kind says about it. */
  lemma ClaimedEntry(s: State, t: State, c: Cid, e: Entry)
    requires Inv(s) && c in s.clients && Extends(s, t) && t.log == s.log + [e] && !e.Claimed?
    requires s.clients[c].uid == Some(e.uid) && e.author == c && Pending(s.clients[c]).Some? && !Pending(s.clients[c]).value.ClaimRoot?
    ensures e.author in t.landed && e.uid in t.roots && t.log[..|s.log|] == s.log && LastClaim(s.log, e.uid) == Some(c)
  {
    assert DataOk(s, c, s.clients[c]) && LockOk(s, c, s.clients[c]);
    assert RequestOk(s, c, s.clients[c], Pending(s.clients[c]).value);
    assert RootOk(s, e.uid);
  }

  lemma LandedEntry(s: State, t: State, c: Cid, req: Request, newUid: Uid)
    requires Inv(s) && c in s.clients && s.clients[c].uid.Some? && Pending(s.clients[c]) == Some(req)
    requires Target(req).Some? && newUid !in s.used && t == LandMember(s, c, req, newUid).0
    requires var (ref, base) := Target(req).value; MemberFence(s, ref, base)
    requires Extends(s, t)
    ensures EntryOk(t, |s.log|)
  {
    var (ref, base) := Target(req).value;
    WrittenIsNew(s, c, req, newUid);
    var u := s.clients[c].uid.value;
    var o := Written(c, u, req, base, s.clock + 1, newUid);
    LoggedEntry(s, t, c, req, newUid, base, Log(c, s.clients[c], u, req, base, o));
  }

  lemma LoggedEntry(s: State, t: State, c: Cid, req: Request, newUid: Uid, stored: Option<Obj>, e: Entry)
    requires Inv(s) && c in s.clients && s.clients[c].uid.Some? && Pending(s.clients[c]) == Some(req) && Target(req).Some?
    requires Target(req).value.1 == stored
    requires e == Log(c, s.clients[c], s.clients[c].uid.value, req, stored,
                      Written(c, s.clients[c].uid.value, req, stored, s.clock + 1, newUid))
    requires Extends(s, t) && t.log == s.log + [e]
    ensures EntryOk(t, |s.log|)
  {
    var cl := s.clients[c];
    var o := Written(c, cl.uid.value, req, stored, s.clock + 1, newUid);
    assert DataOk(s, c, cl);
    assert RequestOk(s, c, cl, req);
    ClaimedEntry(s, t, c, e);
    if req.Configure? || req.Toggle? {
      ServiceEntryOk(s, c, req, stored, o);
    } else if req.DeleteMember? {
      DeletionEntryOk(s, c, req, stored, o);
    }
  }

  lemma LandExtends(s: State, c: Cid, req: Request, newUid: Uid)
    requires Inv(s) && c in s.clients && s.clients[c].uid.Some? && Pending(s.clients[c]) == Some(req)
    requires Target(req).Some? && newUid !in s.used
    requires var (ref, base) := Target(req).value; MemberFence(s, ref, base)
    ensures var t := LandMember(s, c, req, newUid).0; Extends(s, t) && ObjsOk(t)
  {
    var (ref, base) := Target(req).value;
    WrittenIsNew(s, c, req, newUid);
    var o := Written(c, s.clients[c].uid.value, req, base, s.clock + 1, newUid);
    StoreExtends(s, ref, o);
    LandedIsStored(s, c, req, newUid, ref, base, o);
    Receipted(s, Store(s, ref, o), LandMember(s, c, req, newUid).0);
  }

  lemma LandedIsStored(s: State, c: Cid, req: Request, newUid: Uid, ref: Ref, base: Option<Obj>, o: Obj)
    requires c in s.clients && s.clients[c].uid.Some? && Target(req) == Some((ref, base)) && MemberFence(s, ref, base)
    requires o == Written(c, s.clients[c].uid.value, req, Stored(s, ref), s.clock + 1, newUid)
    requires s.makers.Keys <= s.used && (base.None? ==> o.uid !in s.used)
    ensures var t := LandMember(s, c, req, newUid).0;
            && t == Store(s, ref, o).(log := t.log, makers := t.makers)
            && t.makers.Keys <= t.used && forall x | x in s.makers :: x in t.makers && t.makers[x] == s.makers[x]
  {
  }

  /** Recording an entry and a creator on top of a stored object. */
  lemma Receipted(s: State, u: State, t: State)
    requires Extends(s, u) && ObjsOk(u) && t == u.(log := t.log, makers := t.makers)
    requires t.makers.Keys <= u.used && forall x | x in s.makers :: x in t.makers && t.makers[x] == s.makers[x]
    ensures Extends(s, t) && ObjsOk(t)
  {
    forall r | r in t.objs ensures MemberExtends(s, t, r) && ObjOk(t, r, t.objs[r]) {
      assert MemberExtends(s, u, r) && ObjOk(u, r, u.objs[r]);
    }
  }

  lemma LandReply(s: State, c: Cid, req: Request, newUid: Uid)
    requires Target(req).Some? && c in s.clients && s.clients[c].uid.Some?
    requires ObjsOk(LandMember(s, c, req, newUid).0)
    requires var (ref, base) := Target(req).value; MemberFence(s, ref, base) ==> Stored(s, ref) == base
    requires Target(req).value.1.Some? ==> Target(req).value.1.value.uid in s.used
    ensures var (t, reply) := LandMember(s, c, req, newUid); ReplyOk(t, c, req, reply)
  {
    var (t, reply) := LandMember(s, c, req, newUid);
    var (ref, base) := Target(req).value;
    if MemberFence(s, ref, base) {
      assert ObjOk(t, ref, t.objs[ref]);
    }
  }

  lemma LandMemberInv(s: State, t: State, c: Cid, req: Request, newUid: Uid, e: Entry)
    requires Inv(s) && c in s.clients && s.clients[c].uid.Some? && Pending(s.clients[c]) == Some(req)
    requires Target(req).Some? && newUid !in s.used
    requires MemberFence(s, Target(req).value.0, Target(req).value.1)
    requires t == LandMember(s, c, req, newUid).0
    requires t.roots == s.roots && t.current == s.current && t.clients == s.clients && t.landed == s.landed
    requires t.log == s.log + [e] && !e.Claimed? && !e.Requested?
    ensures Inv(t)
  {
    LandExtends(s, c, req, newUid);
    LandedEntry(s, t, c, req, newUid);
    MemberStep(s, t, [e]);
  }

  lemma BaseUsed(s: State, c: Cid, req: Request)
    requires Inv(s) && c in s.clients && Pending(s.clients[c]) == Some(req) && Target(req).Some?
    ensures Target(req).value.1.Some? ==> Target(req).value.1.value.uid in s.used
  {
    assert DataOk(s, c, s.clients[c]);
  }

  lemma LandMemberKeeps(s: State, c: Cid, req: Request, newUid: Uid)
    requires Inv(s) && c in s.clients && s.clients[c].uid.Some? && Pending(s.clients[c]) == Some(req)
    requires Target(req).Some? && newUid !in s.used
    ensures var (t, reply) := LandMember(s, c, req, newUid); Inv(t) && ReplyOk(t, c, req, reply)
  {
    var (ref, base) := Target(req).value;
    var (t, reply) := LandMember(s, c, req, newUid);
    if MemberFence(s, ref, base) {
      WrittenIsNew(s, c, req, newUid);
      var o := Written(c, s.clients[c].uid.value, req, base, s.clock + 1, newUid);
      LandMemberInv(s, t, c, req, newUid, Log(c, s.clients[c], s.clients[c].uid.value, req, base, o));
      BaseUsed(s, c, req);
      LandReply(s, c, req, newUid);
    }
  }

  // ----- Writes to the record -----

  lemma RootExtends(s: State, t: State, c: Cid)
    requires t == s.(roots := t.roots, clock := t.clock, landed := t.landed, log := t.log, clients := t.clients)
    requires s.clock <= t.clock && s.landed <= t.landed && c in s.clients && c in t.clients
    requires t.clients == s.clients[c := t.clients[c]]
    requires SameIdentity(s.clients[c], t.clients[c])
    requires forall w | w in s.roots :: w in t.roots && t.roots[w].creator == s.roots[w].creator
    ensures Extends(s, t)
  {
    forall ref | ref in t.objs ensures MemberExtends(s, t, ref) {}
  }

  lemma RootsAfterWrite(s: State, t: State, u: Uid, added: seq<Entry>)
    requires RootsOk(s) && Extends(s, t) && u in s.roots && u in t.roots && t.roots == s.roots[u := t.roots[u]]
    requires t.current == s.current && t.roots[u].live == s.roots[u].live
    requires t.log == s.log + added && |added| <= 1 && (|added| == 1 ==> added[0].uid == u)
    requires RootOk(t, u)
    ensures RootsOk(t)
  {
    forall w | w in t.roots ensures RootOk(t, w) {
      if w != u {
        assert RootOk(s, w);
        OtherRoot(s, t, added, u, w);
      }
    }
  }

  lemma LocksAfterWrite(s: State, t: State, u: Uid, c: Cid)
    requires LocksOk(s) && u in s.roots && u in t.roots && t.roots == s.roots[u := t.roots[u]]
    requires c in s.clients && c in t.clients && t.clients == s.clients[c := t.clients[c]]
    requires s.roots[u].holder.Some? && s.roots[u].holder.value != c ==>
               s.roots[u].holder.value in s.clients && !InLock(s.clients[s.roots[u].holder.value].phase)
    requires LockOk(t, c, t.clients[c])
    ensures LocksOk(t)
  {
    forall x | x in t.clients ensures LockOk(t, x, t.clients[x]) {
      if x != c { assert LockOk(s, x, s.clients[x]); }
    }
  }

  /** A step of client c that writes record u, which no other client has locked. */
  lemma RootStep(s: State, t: State, u: Uid, c: Cid, added: seq<Entry>)
    requires Inv(s) && u in s.roots && u in t.roots && c in s.clients && c in t.clients
    requires t == s.(roots := t.roots, clock := s.clock + 1, landed := t.landed, log := s.log + added, clients := t.clients)
    requires t.roots == s.roots[u := t.roots[u]] && t.roots[u].creator == s.roots[u].creator
    requires t.roots[u].live == s.roots[u].live
    requires t.clients == s.clients[c := t.clients[c]] && SameIdentity(s.clients[c], t.clients[c])
    requires t.landed == s.landed || t.landed == s.landed + {c}
    requires |added| <= 1 && (|added| == 1 ==> added[0].uid == u && EntryOk(t, |s.log|))
    requires s.roots[u].holder.Some? && s.roots[u].holder.value != c ==>
               s.roots[u].holder.value in s.clients && !InLock(s.clients[s.roots[u].holder.value].phase)
    requires RootOk(t, u) && DataOk(t, c, t.clients[c]) && LockOk(t, c, t.clients[c])
    ensures Inv(t)
  {
    RootExtends(s, t, c);
    SameObjs(s, t);
    RootsAfterWrite(s, t, u, added);
    OtherClients(s, t, c);
    LocksAfterWrite(s, t, u, c);
    GrownLog(s, t, added);
  }
}
