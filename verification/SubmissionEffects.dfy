/** What each request leaves on the server when it is accepted, field by field. */
module SubmissionEffects {
  import opened Common
  import opened Submission
  import opened SubmissionInv
  import opened SubmissionProofs
  import opened SubmissionStaleness

  /** The request is on the wire and meets the object, or the record, it was computed from. */
  predicate Accepts(s: State, c: Cid, req: Request, newUid: Uid) {
    && c in s.clients && s.clients[c].uid.Some? && Pending(s.clients[c]) == Some(req)
    && (Target(req).Some? ==> MemberFence(s, Target(req).value.0, Target(req).value.1) && newUid !in s.used)
    && (Target(req).None? ==> RootFence(s, s.clients[c].uid.value, req.version))
  }

  predicate Refuses(s: State, c: Cid, req: Request, newUid: Uid) {
    && c in s.clients && s.clients[c].uid.Some? && Pending(s.clients[c]) == Some(req)
    && (Target(req).Some? ==> !MemberFence(s, Target(req).value.0, Target(req).value.1) && newUid !in s.used)
    && (Target(req).None? ==> !RootFence(s, s.clients[c].uid.value, req.version))
  }

  function Landed(s: State, c: Cid, newUid: Uid, heard: bool): State {
    Next(s, Finish(c, Lands(newUid, heard)))
  }

  lemma LandedIs(s: State, c: Cid, req: Request, newUid: Uid, heard: bool)
    requires c in s.clients && s.clients[c].uid.Some? && Pending(s.clients[c]) == Some(req)
    requires Target(req).Some? ==> newUid !in s.used
    ensures var (t, reply) := Land(s, c, req, newUid);
            var phase := if s.clients[c].phase.Lost? then Dead else Sent(req, if heard then reply else Failed);
            c in t.clients && Landed(s, c, newUid, heard) == SetPhase(t, c, phase)
  {
    var (t, reply) := Land(s, c, req, newUid);
    var phase := if s.clients[c].phase.Lost? then Dead else Sent(req, if heard then reply else Failed);
    LandingIs(s, c, Lands(newUid, heard), t, reply, phase);
  }

  /** A write computed from anything but the current object or record changes neither. */
  lemma StaleWriteIsRefused(s: State, c: Cid, req: Request, newUid: Uid, heard: bool)
    requires Refuses(s, c, req, newUid)
    ensures var t := Landed(s, c, newUid, heard);
            && t.objs == s.objs && t.roots == s.roots && t.log == s.log
            && c in t.clients && (s.clients[c].phase.Sent? && heard ==> t.clients[c].phase == Sent(req, Conflict))
  {
    LandedIs(s, c, req, newUid, heard);
  }

  // ----- Members -----

  /** Exactly member `ref` is written, and the sender, if it hears, hears what is stored. */
  predicate Stores(s: State, t: State, c: Cid, ref: Ref, o: Obj, heard: bool) {
    && t.objs == s.objs[ref := o] && t.roots == s.roots && t.current == s.current && |t.log| == |s.log| + 1
    && t.clock == s.clock + 1 && t.used == s.used + {o.uid} && c in s.clients
    && (s.clients[c].phase.Sent? && heard ==>
          t.clients == s.clients[c := s.clients[c].(phase := Sent(s.clients[c].phase.req, Done(Some(o))))])
  }

  /** A stop stops and a resume resumes: the configuration stays, and the operation is the sender's. */
  lemma ToggleWrites(s: State, c: Cid, ref: Ref, prior: Obj, suspend: bool, newUid: Uid, heard: bool)
    requires Accepts(s, c, Toggle(ref, prior, suspend), newUid)
    ensures var o := s.objs[ref];
            var generation := if suspend == o.spec.suspend then o.generation else o.generation + 1;
            Stores(s, Landed(s, c, newUid, heard), c, ref,
                   o.(version := s.clock + 1, generation := generation, tag := Some(c), spec := Spec(o.spec.config, suspend)), heard)
  {
    LandedIs(s, c, Toggle(ref, prior, suspend), newUid, heard);
  }

  /** Applying a configuration to an existing service sets configuration and source, and may stop but never resumes it. */
  lemma ConfigureWrites(s: State, c: Cid, ref: Ref, prior: Obj, config: nat, source: nat, suspend: bool, newUid: Uid, heard: bool)
    requires Accepts(s, c, Configure(ref, Some(prior), config, source, suspend), newUid)
    ensures var o := s.objs[ref];
            var spec := Spec(config, suspend || o.spec.suspend);
            var generation := if spec == o.spec then o.generation else o.generation + 1;
            Stores(s, Landed(s, c, newUid, heard), c, ref,
                   o.(version := s.clock + 1, generation := generation, source := source, spec := spec), heard)
  {
    LandedIs(s, c, Configure(ref, Some(prior), config, source, suspend), newUid, heard);
  }

  /** A new service has the requested configuration, source and state, and belongs to the sender's instance. */
  lemma ConfigureCreates(s: State, c: Cid, ref: Ref, config: nat, source: nat, suspend: bool, newUid: Uid, heard: bool)
    requires Accepts(s, c, Configure(ref, None, config, source, suspend), newUid)
    ensures Stores(s, Landed(s, c, newUid, heard), c, ref,
                   Obj(newUid, s.clock + 1, 1, false, s.clients[c].uid.value, source, None, Spec(config, suspend)), heard)
    ensures newUid in Landed(s, c, newUid, heard).makers && Landed(s, c, newUid, heard).makers[newUid] == c
  {
    LandedIs(s, c, Configure(ref, None, config, source, suspend), newUid, heard);
  }

  /** A new dependency runs the requested configuration and carries the sender's operation. */
  lemma CreateWrites(s: State, c: Cid, ref: Ref, config: nat, newUid: Uid, heard: bool)
    requires Accepts(s, c, CreateMember(ref, config), newUid)
    ensures Stores(s, Landed(s, c, newUid, heard), c, ref,
                   Obj(newUid, s.clock + 1, 1, false, s.clients[c].uid.value, 0, Some(c), Spec(config, false)), heard)
    ensures newUid in Landed(s, c, newUid, heard).makers && Landed(s, c, newUid, heard).makers[newUid] == c
  {
    LandedIs(s, c, CreateMember(ref, config), newUid, heard);
  }

  /** Claiming a dependency changes its operation and nothing it runs. */
  lemma ClaimMemberWrites(s: State, c: Cid, ref: Ref, prior: Obj, newUid: Uid, heard: bool)
    requires Accepts(s, c, ClaimMember(ref, prior), newUid)
    ensures Stores(s, Landed(s, c, newUid, heard), c, ref, s.objs[ref].(version := s.clock + 1, tag := Some(c)), heard)
  {
    LandedIs(s, c, ClaimMember(ref, prior), newUid, heard);
  }

  lemma ApplyMemberWrites(s: State, c: Cid, ref: Ref, prior: Obj, config: nat, newUid: Uid, heard: bool)
    requires Accepts(s, c, ApplyMember(ref, prior, config), newUid)
    ensures var o := s.objs[ref];
            var generation := if config == o.spec.config then o.generation else o.generation + 1;
            Stores(s, Landed(s, c, newUid, heard), c, ref,
                   o.(version := s.clock + 1, generation := generation, tag := Some(c), spec := Spec(config, o.spec.suspend)), heard)
  {
    LandedIs(s, c, ApplyMember(ref, prior, config), newUid, heard);
  }

  /** A deletion marks the object; what it is and whose it is stays readable until it is gone. */
  lemma DeleteMemberWrites(s: State, c: Cid, ref: Ref, prior: Obj, newUid: Uid, heard: bool)
    requires Accepts(s, c, DeleteMember(ref, prior), newUid)
    ensures Stores(s, Landed(s, c, newUid, heard), c, ref, s.objs[ref].(version := s.clock + 1, deleting := true), heard)
  {
    LandedIs(s, c, DeleteMember(ref, prior), newUid, heard);
  }

  // ----- The record -----

  /** Exactly the sender's record is written. */
  predicate Records(s: State, t: State, c: Cid, r: Root, e: Entry, heard: bool) {
    && c in s.clients && s.clients[c].uid.Some?
    && t.roots == s.roots[s.clients[c].uid.value := r] && t.objs == s.objs && t.current == s.current && t.log == s.log + [e]
    && t.clock == s.clock + 1 && t.used == s.used
    && (s.clients[c].phase.Sent? && heard ==>
          t.clients == s.clients[c := s.clients[c].(phase := Sent(s.clients[c].phase.req, Done(None)))])
  }

  /** A claim makes the instance the sender's; a temporary one declares its services in the same write. */
  lemma ClaimWrites(s: State, c: Cid, version: nat, identity: Option<Cid>, newUid: Uid, heard: bool)
    requires Accepts(s, c, ClaimRoot(version, identity), newUid)
    ensures var r := s.roots[s.clients[c].uid.value];
            var temporary := s.clients[c].kind == Deploy(true);
            Records(s, Landed(s, c, newUid, heard), c,
                    r.(version := s.clock + 1, tag := Some(c), services := temporary || r.services),
                    Claimed(s.clients[c].uid.value, c, temporary), heard)
    ensures c in Landed(s, c, newUid, heard).landed
  {
    LandedIs(s, c, ClaimRoot(version, identity), newUid, heard);
  }

  /** A request declares the members it was sent with. */
  lemma RequestWrites(s: State, c: Cid, version: nat, services: bool, newUid: Uid, heard: bool)
    requires Accepts(s, c, RequestRoot(version, services), newUid)
    ensures var r := s.roots[s.clients[c].uid.value];
            Records(s, Landed(s, c, newUid, heard), c, r.(version := s.clock + 1, services := services, requested := true),
                    Requested(s.clients[c].uid.value, c, services), heard)
  {
    LandedIs(s, c, RequestRoot(version, services), newUid, heard);
  }

  lemma DeleteRootWrites(s: State, c: Cid, version: nat, newUid: Uid, heard: bool)
    requires Accepts(s, c, DeleteRoot(version), newUid)
    ensures var r := s.roots[s.clients[c].uid.value];
            Records(s, Landed(s, c, newUid, heard), c, r.(version := s.clock + 1, deleting := true),
                    RootDeleted(s.clients[c].uid.value, c), heard)
  {
    LandedIs(s, c, DeleteRoot(version), newUid, heard);
  }
}
