/** How one step affects the parts of the state it does not write. */
module SubmissionFrames {
  import opened Common
  import opened Submission
  import opened SubmissionInv

  /** Nothing that was ever observed is forgotten or reinterpreted. */
  ghost predicate Extends(s: State, t: State) {
    && s.used <= t.used && s.clock <= t.clock && s.landed <= t.landed
    && (forall k | k in s.specs :: k in t.specs && t.specs[k] == s.specs[k])
    && (forall u | u in s.owners :: u in t.owners && t.owners[u] == s.owners[u])
    && (forall u | u in s.makers :: u in t.makers && t.makers[u] == s.makers[u])
    && (forall u | u in s.roots :: u in t.roots && t.roots[u].creator == s.roots[u].creator)
    && (forall x | x in s.clients :: x in t.clients && SameIdentity(s.clients[x], t.clients[x]))
    && (forall ref {:trigger MemberExtends(s, t, ref)} | ref in t.objs :: MemberExtends(s, t, ref))
  }

  predicate SameIdentity(before: Client, after: Client) {
    after.kind == before.kind && (before.uid.Some? ==> after.uid == before.uid)
  }

  predicate MemberExtends(s: State, t: State, ref: Ref)
    requires ref in t.objs
  {
    || (ref in s.objs && t.objs[ref] == s.objs[ref])
    || (s.clock < t.objs[ref].version
        && (t.objs[ref].uid !in s.used
            || (ref in s.objs && t.objs[ref].uid == s.objs[ref].uid
                && s.objs[ref].generation <= t.objs[ref].generation)))
  }

  lemma ObjFrame(s: State, t: State, ref: Ref, o: Obj)
    requires Extends(s, t) && ObjOk(s, ref, o)
    ensures ObjOk(t, ref, o)
  {
    assert ref in t.objs ==> MemberExtends(s, t, ref);
  }

  lemma IntentFrame(s: State, t: State, ref: Ref, v: Intent)
    requires Extends(s, t) && IntentOk(s, ref, v)
    ensures IntentOk(t, ref, v)
  {
    assert ref in t.objs ==> MemberExtends(s, t, ref);
  }

  lemma PhaseFrame(s: State, t: State, c: Cid, cl: Client)
    requires Extends(s, t) && PhaseOk(s, c, cl)
    ensures PhaseOk(t, c, cl)
  {
    match cl.phase
    case Observed(ref, obj) => if obj.Some? { ObjFrame(s, t, ref, obj.value); }
    case Sent(req, reply) =>
      RequestFrame(s, t, c, cl, req);
      if reply.Done? && reply.obj.Some? { ObjFrame(s, t, Target(req).value.0, reply.obj.value); }
    case Lost(req) => RequestFrame(s, t, c, cl, req);
    case _ =>
  }

  lemma RequestFrame(s: State, t: State, c: Cid, cl: Client, req: Request)
    requires Extends(s, t) && RequestOk(s, c, cl, req)
    ensures RequestOk(t, c, cl, req)
  {
    if Target(req).Some? && Target(req).value.1.Some? {
      ObjFrame(s, t, Target(req).value.0, Target(req).value.1.value);
    }
  }

  /** A client's own knowledge stays right under every step that does not accept its claim. */
  lemma DataFrame(s: State, t: State, c: Cid, cl: Client)
    requires Extends(s, t) && DataOk(s, c, cl) && (c in t.landed ==> c in s.landed)
    ensures DataOk(t, c, cl)
  {
    PhaseFrame(s, t, c, cl);
    forall ref | ref in cl.expected && cl.expected[ref].Some? ensures IntentOk(t, ref, cl.expected[ref].value) {
      IntentFrame(s, t, ref, cl.expected[ref].value);
    }
    forall ref | ref in cl.committed ensures CommitOk(t, c, cl, ref) {
      assert CommitOk(s, c, cl, ref);
      IntentFrame(s, t, ref, cl.committed[ref]);
    }
    forall ref | ref in cl.created ensures ReceiptOk(t, c, cl, ref) {
      assert ReceiptOk(s, c, cl, ref);
    }
  }

  // ----- The log -----

  lemma EntryFrame(s: State, t: State, k: nat)
    requires k < |s.log| && EntryOk(s, k) && s.log <= t.log && Extends(s, t)
    ensures EntryOk(t, k)
  {
    assert t.log[..k] == s.log[..k];
  }

  // ----- Each part of the invariant under a step that leaves it alone -----

  lemma SameObjs(s: State, t: State)
    requires ObjsOk(s) && Extends(s, t) && t.objs == s.objs && t.specs == s.specs
    requires t.owners == s.owners && t.makers == s.makers
    ensures ObjsOk(t)
  {
    forall r | r in t.objs ensures ObjOk(t, r, t.objs[r]) {
      assert ObjOk(s, r, s.objs[r]);
      ObjFrame(s, t, r, s.objs[r]);
    }
  }

  /** Records other than `u` under a step whose entry, if any, concerns `u`. */
  lemma OtherRoot(s: State, t: State, added: seq<Entry>, u: Uid, w: Uid)
    requires w in s.roots && w in t.roots && RootOk(s, w) && t.roots[w] == s.roots[w]
    requires Extends(s, t) && (t.roots[w].live ==> t.current == s.current) && t.log == s.log + added
    requires |added| <= 1
    requires |added| == 1 ==> (added[0].uid == u && w != u) || (!added[0].Claimed? && !added[0].Requested?)
    ensures RootOk(t, w)
  {
    if |added| == 1 {
      assert added == [added[0]];
    } else {
      assert t.log == s.log;
    }
  }

  lemma OtherClients(s: State, t: State, c: Cid)
    requires ClientsOk(s) && Extends(s, t) && t.clients.Keys == s.clients.Keys + {c}
    requires forall x | x in s.clients && x != c :: t.clients[x] == s.clients[x]
    requires t.landed <= s.landed + {c}
    requires DataOk(t, c, t.clients[c])
    ensures ClientsOk(t)
  {
    forall x | x in t.clients ensures DataOk(t, x, t.clients[x]) {
      if x != c {
        assert DataOk(s, x, s.clients[x]);
        DataFrame(s, t, x, s.clients[x]);
      }
    }
  }

  lemma AllClients(s: State, t: State)
    requires ClientsOk(s) && Extends(s, t) && t.clients == s.clients && t.landed == s.landed
    ensures ClientsOk(t)
  {
    forall x | x in t.clients ensures DataOk(t, x, t.clients[x]) {
      assert DataOk(s, x, s.clients[x]);
      DataFrame(s, t, x, s.clients[x]);
    }
  }

  lemma GrownLog(s: State, t: State, added: seq<Entry>)
    requires LogOk(s) && Extends(s, t) && t.log == s.log + added && |added| <= 1
    requires |added| == 1 ==> EntryOk(t, |s.log|)
    ensures LogOk(t)
  {
    forall k: nat | k < |t.log| ensures EntryOk(t, k) {
      if k < |s.log| {
        assert EntryOk(s, k);
        EntryFrame(s, t, k);
      }
    }
  }

  /** A step of client c that changes only c. */
  lemma ClientStep(s: State, c: Cid, cl: Client)
    requires Inv(s) && c in s.clients && SameIdentity(s.clients[c], cl)
    requires var t := s.(clients := s.clients[c := cl]); DataOk(t, c, cl) && LockOk(t, c, cl)
    ensures Inv(s.(clients := s.clients[c := cl]))
  {
    var t := s.(clients := s.clients[c := cl]);
    ExtendsSame(s, t);
    SameObjs(s, t);
    SameRoots(s, t);
    OtherClients(s, t, c);
    OtherLocks(s, t, c);
    GrownLog(s, t, []);
  }

  lemma ExtendsSame(s: State, t: State)
    requires t == s.(clients := t.clients)
    requires forall x | x in s.clients :: x in t.clients && SameIdentity(s.clients[x], t.clients[x])
    ensures Extends(s, t)
  {
    forall ref | ref in t.objs ensures MemberExtends(s, t, ref) {}
  }

  lemma SameRoots(s: State, t: State)
    requires RootsOk(s) && Extends(s, t) && t.roots == s.roots && t.current == s.current && t.log == s.log
    ensures RootsOk(t)
  {
    forall u | u in t.roots ensures RootOk(t, u) {
      assert RootOk(s, u);
      OtherRoot(s, t, [], u, u);
    }
  }

  lemma OtherLocks(s: State, t: State, c: Cid)
    requires LocksOk(s) && t.roots == s.roots && t.clients.Keys == s.clients.Keys + {c}
    requires forall x | x in s.clients && x != c :: t.clients[x] == s.clients[x]
    requires LockOk(t, c, t.clients[c])
    ensures LocksOk(t)
  {
    forall x | x in t.clients ensures LockOk(t, x, t.clients[x]) {
      assert x in s.clients ==> LockOk(s, x, s.clients[x]);
    }
  }
}
