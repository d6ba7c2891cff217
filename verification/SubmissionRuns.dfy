/** What a submission, a cleanup or a deletion achieves when nobody interferes. */
module SubmissionRuns {
  import opened Common
  import opened Submission
  import opened SubmissionInv
  import opened SubmissionProofs
  import opened SubmissionTheorems
  import opened SubmissionEffects

  // ----- Runs -----

  lemma {:induction false} RunSplit(s: State, a: seq<Event>, b: seq<Event>)
    ensures Run(s, a + b) == Run(Run(s, a), b)
    decreases |a|
  {
    if a == [] {
      assert a + b == b;
    } else {
      assert (a + b)[0] == a[0] && (a + b)[1..] == a[1..] + b;
      RunSplit(Next(s, a[0]), a[1..], b);
    }
  }

  lemma RunOne(s: State, e: Event)
    ensures Run(s, [e]) == Next(s, e)
  {
    assert [e][1..] == [];
  }

  lemma RunTwo(s: State, e: Event, f: Event)
    ensures Run(s, [e, f]) == Next(Next(s, e), f)
  {
    RunSplit(s, [e], [f]);
    RunOne(s, e);
    RunOne(Next(s, e), f);
    assert [e] + [f] == [e, f];
  }

  /** Read the member, send the request, the server lands it, hear the reply. */
  function Exchange(c: Cid, ref: Ref, req: Request, newUid: Uid): seq<Event> {
    [ReadMember(c, ref), Send(c, req)] + [Finish(c, Lands(newUid, true)), Hear(c)]
  }

  predicate Ready(s: State, c: Cid) {
    c in s.clients && s.clients[c].uid.Some? && s.clients[c].phase == Checked
  }

  lemma PhaseTwice(s: State, c: Cid, first: Phase, second: Phase)
    requires c in s.clients
    ensures SetPhase(SetPhase(s, c, first), c, second) == SetPhase(s, c, second)
  {
  }

  lemma ReadStep(s: State, c: Cid, ref: Ref)
    requires Ready(s, c)
    ensures Next(s, ReadMember(c, ref)) == SetPhase(s, c, Observed(ref, Stored(s, ref)))
  {
  }

  lemma RequestStep(s: State, c: Cid, ref: Ref, o: Option<Obj>, req: Request)
    requires c in s.clients && s.clients[c].phase == Observed(ref, o) && MaySend(s.clients[c], c, req, ref, o)
    ensures Next(s, Send(c, req)) == SetPhase(s, c, Sent(req, Waiting))
  {
  }

  lemma SendStep(s: State, c: Cid, ref: Ref, req: Request)
    requires Ready(s, c) && MaySend(s.clients[c].(phase := Observed(ref, Stored(s, ref))), c, req, ref, Stored(s, ref))
    ensures Run(s, [ReadMember(c, ref), Send(c, req)]) == SetPhase(s, c, Sent(req, Waiting))
  {
    RunTwo(s, ReadMember(c, ref), Send(c, req));
    ReadStep(s, c, ref);
    RequestStep(SetPhase(s, c, Observed(ref, Stored(s, ref))), c, ref, Stored(s, ref), req);
    PhaseTwice(s, c, Observed(ref, Stored(s, ref)), Sent(req, Waiting));
  }

  /** The client's books after an exchange: the committed intent, the applied configuration and the creation receipt. */
  predicate Booked(cl: Client, after: Client, req: Request, ref: Ref, o: Obj) {
    && after.uid == cl.uid && after.expected == cl.expected && after.kind == cl.kind && after.claimed == cl.claimed
    && after.phase == Checked
    && (ref.Service? && !req.DeleteMember? ==> after.committed == cl.committed[ref := IntentOf(o)])
    && (req.Toggle? ==> after.applied == cl.applied)
    && (req.Configure? ==> after.applied == cl.applied[ref := req.config])
    && (req.Configure? && req.base.None? ==> after.created == cl.created[ref := o.uid])
    && (req.DeleteMember? ==> after == cl.(phase := Checked))
  }

  /** An exchange ends with the write stored and its sender's books in order. */
  predicate Exchanged(s: State, t: State, c: Cid, req: Request, ref: Ref, o: Obj) {
    && t.objs == s.objs[ref := o] && t.roots == s.roots && t.current == s.current && |t.log| == |s.log| + 1
    && t.clock == s.clock + 1 && t.used == s.used + {o.uid}
    && c in s.clients && c in t.clients && Booked(s.clients[c], t.clients[c], req, ref, o)
  }

  lemma BooksAre(s: State, cl: Client, req: Request, ref: Ref, o: Obj)
    requires cl.phase == Sent(req, Done(Some(o))) && Target(req).Some? && Target(req).value.0 == ref
    requires req.DeleteMember? || ref.Service?
    ensures Booked(cl, Receive(s, cl), req, ref, o)
  {
  }

  lemma HearStep(s: State, c: Cid, req: Request, ref: Ref, o: Obj)
    requires c in s.clients && s.clients[c].phase == Sent(req, Done(Some(o))) && Target(req).Some? && Target(req).value.0 == ref
    requires req.DeleteMember? || ref.Service?
    ensures var t := Next(s, Hear(c));
            && t == s.(clients := t.clients) && c in t.clients && Booked(s.clients[c], t.clients[c], req, ref, o)
  {
    BooksAre(s, s.clients[c], req, ref, o);
  }

  lemma FinishStep(s: State, c: Cid, ref: Ref, req: Request, o: Obj, newUid: Uid)
    requires Ready(s, c) && Target(req).Some? && Target(req).value.0 == ref && (req.DeleteMember? || ref.Service?)
    requires Stores(SetPhase(s, c, Sent(req, Waiting)), Landed(SetPhase(s, c, Sent(req, Waiting)), c, newUid, true), c, ref, o, true)
    ensures Exchanged(s, Run(SetPhase(s, c, Sent(req, Waiting)), [Finish(c, Lands(newUid, true)), Hear(c)]), c, req, ref, o)
  {
    var s2 := SetPhase(s, c, Sent(req, Waiting));
    RunTwo(s2, Finish(c, Lands(newUid, true)), Hear(c));
    HearStep(Landed(s2, c, newUid, true), c, req, ref, o);
  }

  /** The server makes `o` of the member when it lands the request. */
  predicate Yields(s: State, c: Cid, req: Request, ref: Ref, o: Obj, newUid: Uid) {
    && Ready(s, c) && Target(req).Some? && Target(req).value.0 == ref
    && Stores(SetPhase(s, c, Sent(req, Waiting)), Landed(SetPhase(s, c, Sent(req, Waiting)), c, newUid, true), c, ref, o, true)
  }

  /** From the read to the reply. */
  lemma ExchangeIs(s: State, c: Cid, ref: Ref, req: Request, o: Obj, newUid: Uid)
    requires Ready(s, c) && Target(req) == Some((ref, Stored(s, ref))) && (req.DeleteMember? || ref.Service?)
    requires MaySend(s.clients[c].(phase := Observed(ref, Stored(s, ref))), c, req, ref, Stored(s, ref))
    requires Yields(s, c, req, ref, o, newUid)
    ensures Exchanged(s, Run(s, Exchange(c, ref, req, newUid)), c, req, ref, o)
  {
    SendStep(s, c, ref, req);
    FinishStep(s, c, ref, req, o, newUid);
    RunSplit(s, [ReadMember(c, ref), Send(c, req)], [Finish(c, Lands(newUid, true)), Hear(c)]);
  }

  // ----- Deploying a service -----

  /** The service is the instance's, is not being deleted, and is as the client last committed it, or first saw it. */
  predicate Current(cl: Client, ref: Ref, o: Obj) {
    && ref.Service? && ref in cl.expected && cl.uid == Some(o.owner) && !o.deleting
    && (if ref in cl.committed then Some(cl.committed[ref]) else cl.expected[ref]) == Some(IntentOf(o))
  }

  function Configured(o: Obj, clock: nat, config: nat, source: nat, suspend: bool): Obj {
    var spec := Spec(config, suspend || o.spec.suspend);
    Obj(o.uid, clock + 1, if spec == o.spec then o.generation else o.generation + 1, o.deleting, o.owner, source, o.tag, spec)
  }

  function Toggled(o: Obj, clock: nat, c: Cid, suspend: bool): Obj {
    Obj(o.uid, clock + 1, if suspend == o.spec.suspend then o.generation else o.generation + 1, o.deleting, o.owner, o.source,
        Some(c), Spec(o.spec.config, suspend))
  }

  lemma CurrentMaySend(s: State, c: Cid, ref: Ref, o: Obj, req: Request)
    requires Ready(s, c) && Stored(s, ref) == Some(o) && Current(s.clients[c], ref, o) && Target(req) == Some((ref, Some(o)))
    requires req.Configure? || (req.Toggle? && (req.suspend || ref in s.clients[c].applied))
    ensures MaySend(s.clients[c].(phase := Observed(ref, Some(o))), c, req, ref, Some(o))
  {
  }

  lemma ConfigureYields(s: State, c: Cid, ref: Ref, o: Obj, config: nat, source: nat, suspend: bool, newUid: Uid)
    requires Ready(s, c) && Stored(s, ref) == Some(o) && newUid !in s.used
    ensures Yields(s, c, Configure(ref, Some(o), config, source, suspend), ref, Configured(o, s.clock, config, source, suspend), newUid)
  {
    var req := Configure(ref, Some(o), config, source, suspend);
    ConfigureWrites(SetPhase(s, c, Sent(req, Waiting)), c, ref, o, config, source, suspend, newUid, true);
  }

  lemma ToggleYields(s: State, c: Cid, ref: Ref, o: Obj, suspend: bool, newUid: Uid)
    requires Ready(s, c) && Stored(s, ref) == Some(o) && newUid !in s.used
    ensures Yields(s, c, Toggle(ref, o, suspend), ref, Toggled(o, s.clock, c, suspend), newUid)
  {
    ToggleWrites(SetPhase(s, c, Sent(Toggle(ref, o, suspend), Waiting)), c, ref, o, suspend, newUid, true);
  }

  /** A submission can configure every service that is as it knows it. */
  lemma ConfigureRun(s: State, c: Cid, ref: Ref, o: Obj, config: nat, source: nat, suspend: bool, newUid: Uid)
    requires Ready(s, c) && Stored(s, ref) == Some(o) && Current(s.clients[c], ref, o) && newUid !in s.used
    ensures var req := Configure(ref, Some(o), config, source, suspend);
            Exchanged(s, Run(s, Exchange(c, ref, req, newUid)), c, req, ref, Configured(o, s.clock, config, source, suspend))
  {
    var req := Configure(ref, Some(o), config, source, suspend);
    CurrentMaySend(s, c, ref, o, req);
    ConfigureYields(s, c, ref, o, config, source, suspend, newUid);
    ExchangeIs(s, c, ref, req, Configured(o, s.clock, config, source, suspend), newUid);
  }

  /** A submission can stop every such service, and resume it once it has applied a configuration. */
  lemma ToggleRun(s: State, c: Cid, ref: Ref, o: Obj, suspend: bool, newUid: Uid)
    requires Ready(s, c) && Stored(s, ref) == Some(o) && Current(s.clients[c], ref, o) && newUid !in s.used
    requires suspend || ref in s.clients[c].applied
    ensures var req := Toggle(ref, o, suspend);
            Exchanged(s, Run(s, Exchange(c, ref, req, newUid)), c, req, ref, Toggled(o, s.clock, c, suspend))
  {
    var req := Toggle(ref, o, suspend);
    CurrentMaySend(s, c, ref, o, req);
    ToggleYields(s, c, ref, o, suspend, newUid);
    ExchangeIs(s, c, ref, req, Toggled(o, s.clock, c, suspend), newUid);
  }

  /** Without a committed configuration of its own a submission resumes nothing. */
  lemma ResumeNeedsConfiguration(s: State, c: Cid, ref: Ref, o: Obj)
    requires Ready(s, c) && Stored(s, ref) == Some(o) && ref !in s.clients[c].applied
    ensures var t := Run(s, [ReadMember(c, ref), Send(c, Toggle(ref, o, false))]);
            c in t.clients && t.clients[c].phase == Observed(ref, Some(o))
  {
    RunTwo(s, ReadMember(c, ref), Send(c, Toggle(ref, o, false)));
    ReadStep(s, c, ref);
    UnreadyStep(SetPhase(s, c, Observed(ref, Some(o))), c, ref, o);
  }

  lemma UnreadyStep(s: State, c: Cid, ref: Ref, o: Obj)
    requires c in s.clients && s.clients[c].phase == Observed(ref, Some(o)) && ref !in s.clients[c].applied
    ensures var t := Next(s, Send(c, Toggle(ref, o, false))); c in t.clients && t.clients[c].phase == Observed(ref, Some(o))
  {
  }

  /** The stages of a deployment of an existing service: apply its configuration, then set it running. */
  function Stages(c: Cid, ref: Ref, o: Obj, clock: nat, config: nat, source: nat, newUid: Uid): seq<Event> {
    Exchange(c, ref, Configure(ref, Some(o), config, source, false), newUid)
    + Exchange(c, ref, Toggle(ref, Configured(o, clock, config, source, false), false), newUid)
  }

  /** The service runs the submitted configuration and source under the submission's name, and nothing else changed. */
  predicate Deployed(s: State, t: State, c: Cid, ref: Ref, o: Obj, config: nat, source: nat) {
    && ref in t.objs && t.objs[ref].spec == Spec(config, false) && t.objs[ref].source == source
    && t.objs[ref].tag == Some(c) && t.objs[ref].uid == o.uid && t.objs[ref].owner == o.owner
    && t.objs == s.objs[ref := t.objs[ref]] && t.roots == s.roots && |t.log| == |s.log| + 2
    && Ready(t, c) && Current(t.clients[c], ref, t.objs[ref])
  }

  /** In every reachable state the two stages of an undisturbed deployment end with the service deployed. */
  lemma DeployRuns(events: seq<Event>, c: Cid, ref: Ref, config: nat, source: nat, newUid: Uid)
    requires var s := Run(Initial, events);
             Ready(s, c) && ref in s.objs && Current(s.clients[c], ref, s.objs[ref]) && newUid !in s.used
    ensures var s := Run(Initial, events);
            Deployed(s, Run(s, Stages(c, ref, s.objs[ref], s.clock, config, source, newUid)), c, ref, s.objs[ref], config, source)
  {
    var s := Run(Initial, events);
    ReachableInv(events);
    assert ObjOk(s, ref, s.objs[ref]);
    DeployFrom(s, c, ref, s.objs[ref], config, source, newUid);
  }

  lemma DeployFrom(s: State, c: Cid, ref: Ref, o: Obj, config: nat, source: nat, newUid: Uid)
    requires Ready(s, c) && Stored(s, ref) == Some(o) && Current(s.clients[c], ref, o) && newUid !in s.used && o.uid in s.used
    ensures Deployed(s, Run(s, Stages(c, ref, o, s.clock, config, source, newUid)), c, ref, o, config, source)
  {
    var configure := Configure(ref, Some(o), config, source, false);
    var o1 := Configured(o, s.clock, config, source, false);
    var toggle := Toggle(ref, o1, false);
    var s1 := Run(s, Exchange(c, ref, configure, newUid));
    ConfigureRun(s, c, ref, o, config, source, false, newUid);
    StillCurrent(s, s1, c, configure, ref, o, o1);
    ToggleRun(s1, c, ref, o1, false, newUid);
    RunSplit(s, Exchange(c, ref, configure, newUid), Exchange(c, ref, toggle, newUid));
    var t := Run(s1, Exchange(c, ref, toggle, newUid));
    var o2 := Toggled(o1, s1.clock, c, false);
    StillCurrent(s1, t, c, toggle, ref, o1, o2);
    TwoExchanges(s, s1, t, c, configure, toggle, ref, o1, o2);
  }

  lemma StillCurrent(s: State, t: State, c: Cid, req: Request, ref: Ref, o: Obj, after: Obj)
    requires Exchanged(s, t, c, req, ref, after) && Ready(s, c) && Current(s.clients[c], ref, o)
    requires (req.Configure? || req.Toggle?) && after.owner == o.owner && after.deleting == o.deleting
    ensures Ready(t, c) && Stored(t, ref) == Some(after) && Current(t.clients[c], ref, after)
    ensures req.Configure? || ref in s.clients[c].applied ==> ref in t.clients[c].applied
  {
  }

  lemma TwoExchanges(s: State, s1: State, t: State, c: Cid, first: Request, second: Request, ref: Ref, o1: Obj, o2: Obj)
    requires Exchanged(s, s1, c, first, ref, o1) && Exchanged(s1, t, c, second, ref, o2)
    ensures t.objs == s.objs[ref := o2] && t.roots == s.roots && |t.log| == |s.log| + 2
  {
  }

  /** A service that was not there is created as submitted, and recorded as this submission's creation. */
  lemma CreateRun(s: State, c: Cid, ref: Ref, config: nat, source: nat, suspend: bool, newUid: Uid)
    requires Ready(s, c) && ref !in s.objs && newUid !in s.used
    requires var cl := s.clients[c]; ref.Service? && ref in cl.expected && ref !in cl.committed && cl.expected[ref] == None
    ensures var req := Configure(ref, None, config, source, suspend);
            var t := Run(s, Exchange(c, ref, req, newUid));
            && ref in t.objs && t.objs[ref].spec == Spec(config, suspend) && t.objs[ref].source == source && t.objs[ref].uid == newUid
            && Some(t.objs[ref].owner) == s.clients[c].uid && !t.objs[ref].deleting
            && Exchanged(s, t, c, req, ref, t.objs[ref]) && t.clients[c].created[ref] == newUid
  {
    var req := Configure(ref, None, config, source, suspend);
    ConfigureCreates(SetPhase(s, c, Sent(req, Waiting)), c, ref, config, source, suspend, newUid, true);
    ExchangeIs(s, c, ref, req, Obj(newUid, s.clock + 1, 1, false, s.clients[c].uid.value, source, None, Spec(config, suspend)), newUid);
  }

  // ----- Cleaning up -----

  /** What a client created and still is as it left it, it can delete. */
  lemma CleanupRun(s: State, c: Cid, ref: Ref, o: Obj, newUid: Uid)
    requires Ready(s, c) && Stored(s, ref) == Some(o) && !o.deleting && s.clients[c].uid == Some(o.owner) && newUid !in s.used
    requires var cl := s.clients[c];
             && ref in cl.created
             && (if ref in cl.expected then ref in cl.committed && cl.committed[ref] == IntentOf(o)
                 else cl.created[ref] == o.uid && o.tag == Some(c))
    ensures var req := DeleteMember(ref, o);
            var t := Run(s, Exchange(c, ref, req, newUid));
            && ref in t.objs && t.objs[ref].uid == o.uid && t.objs[ref].deleting && t.objs[ref].spec == o.spec
            && Exchanged(s, t, c, req, ref, t.objs[ref])
  {
    var req := DeleteMember(ref, o);
    DeleteYields(s, c, ref, o, newUid);
    ExchangeIs(s, c, ref, req, o.(version := s.clock + 1, deleting := true), newUid);
  }

  lemma DeleteYields(s: State, c: Cid, ref: Ref, o: Obj, newUid: Uid)
    requires Ready(s, c) && Stored(s, ref) == Some(o) && newUid !in s.used
    ensures Yields(s, c, DeleteMember(ref, o), ref, o.(version := s.clock + 1, deleting := true), newUid)
  {
    DeleteMemberWrites(SetPhase(s, c, Sent(DeleteMember(ref, o), Waiting)), c, ref, o, newUid, true);
  }

  // ----- The record -----

  function RootExchange(c: Cid, req: Request, newUid: Uid): seq<Event> {
    [SeeRoot(c), Send(c, req)] + [Finish(c, Lands(newUid, true)), Hear(c)]
  }

  predicate RootThere(s: State, c: Cid, u: Uid) {
    && Ready(s, c) && s.clients[c].uid == Some(u) && s.current == Some(u)
    && u in s.roots && s.roots[u].live && !s.roots[u].deleting
  }

  lemma SeeStep(s: State, c: Cid, u: Uid)
    requires RootThere(s, c, u)
    ensures Next(s, SeeRoot(c)) == SetPhase(s, c, RootSeen(s.roots[u].version))
  {
  }

  lemma RootRequestStep(s: State, c: Cid, version: nat, req: Request)
    requires c in s.clients && s.clients[c].phase == RootSeen(version) && MaySendRoot(s.clients[c], req, version)
    ensures Next(s, Send(c, req)) == SetPhase(s, c, Sent(req, Waiting))
  {
  }

  lemma RootSendStep(s: State, c: Cid, u: Uid, req: Request)
    requires RootThere(s, c, u) && (req.RequestRoot? || req.DeleteRoot?) && req.version == s.roots[u].version
    requires MaySendRoot(s.clients[c].(phase := RootSeen(s.roots[u].version)), req, s.roots[u].version)
    ensures Run(s, [SeeRoot(c), Send(c, req)]) == SetPhase(s, c, Sent(req, Waiting))
  {
    RunTwo(s, SeeRoot(c), Send(c, req));
    SeeStep(s, c, u);
    RootRequestStep(SetPhase(s, c, RootSeen(s.roots[u].version)), c, s.roots[u].version, req);
    PhaseTwice(s, c, RootSeen(s.roots[u].version), Sent(req, Waiting));
  }

  lemma RootFinishStep(s: State, c: Cid, req: Request, r: Root, e: Entry, newUid: Uid)
    requires Ready(s, c) && (req.RequestRoot? || req.DeleteRoot?)
    requires Records(SetPhase(s, c, Sent(req, Waiting)), Landed(SetPhase(s, c, Sent(req, Waiting)), c, newUid, true), c, r, e, true)
    ensures var t := Run(SetPhase(s, c, Sent(req, Waiting)), [Finish(c, Lands(newUid, true)), Hear(c)]);
            t.roots == s.roots[s.clients[c].uid.value := r] && t.objs == s.objs && t.log == s.log + [e] && Ready(t, c)
  {
    var s2 := SetPhase(s, c, Sent(req, Waiting));
    RunTwo(s2, Finish(c, Lands(newUid, true)), Hear(c));
  }

  lemma RootExchangeIs(s: State, c: Cid, u: Uid, req: Request, r: Root, e: Entry, newUid: Uid)
    requires RootThere(s, c, u) && (req.RequestRoot? || req.DeleteRoot?) && req.version == s.roots[u].version
    requires MaySendRoot(s.clients[c].(phase := RootSeen(s.roots[u].version)), req, s.roots[u].version)
    requires Records(SetPhase(s, c, Sent(req, Waiting)), Landed(SetPhase(s, c, Sent(req, Waiting)), c, newUid, true), c, r, e, true)
    ensures var t := Run(s, RootExchange(c, req, newUid));
            t.roots == s.roots[u := r] && t.objs == s.objs && t.log == s.log + [e] && Ready(t, c)
  {
    RootSendStep(s, c, u, req);
    RootFinishStep(s, c, req, r, e, newUid);
    RunSplit(s, [SeeRoot(c), Send(c, req)], [Finish(c, Lands(newUid, true)), Hear(c)]);
  }

  /** A deletion, or a submission that made the record itself, marks the record deleted. */
  lemma DeletionRun(s: State, c: Cid, u: Uid, newUid: Uid)
    requires RootThere(s, c, u) && (s.clients[c].kind.Delete? || s.clients[c].createdRoot)
    ensures var t := Run(s, RootExchange(c, DeleteRoot(s.roots[u].version), newUid));
            && u in t.roots && t.roots[u].deleting && t.roots[u].tag == s.roots[u].tag && t.objs == s.objs
            && t.log == s.log + [RootDeleted(u, c)] && Ready(t, c)
  {
    var req := DeleteRoot(s.roots[u].version);
    DeleteRootWrites(SetPhase(s, c, Sent(req, Waiting)), c, req.version, newUid, true);
    RootExchangeIs(s, c, u, req, s.roots[u].(version := s.clock + 1, deleting := true), RootDeleted(u, c), newUid);
  }

  /** A submission declares its members; only a temporary one may declare none, which leaves storage only. */
  lemma RequestRun(s: State, c: Cid, u: Uid, services: bool, newUid: Uid)
    requires RootThere(s, c, u) && (s.clients[c].kind == Deploy(true) || (s.clients[c].kind == Deploy(false) && services))
    ensures var t := Run(s, RootExchange(c, RequestRoot(s.roots[u].version, services), newUid));
            && u in t.roots && t.roots[u].requested && t.roots[u].services == services && !t.roots[u].deleting
            && t.objs == s.objs && t.log == s.log + [Requested(u, c, services)] && Ready(t, c)
  {
    var req := RequestRoot(s.roots[u].version, services);
    var r := s.roots[u].(version := s.clock + 1, services := services, requested := true);
    RequestWrites(SetPhase(s, c, Sent(req, Waiting)), c, req.version, services, newUid, true);
    RootExchangeIs(s, c, u, req, r, Requested(u, c, services), newUid);
  }
}
