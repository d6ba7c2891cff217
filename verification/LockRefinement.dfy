/** The annotation and lock-file protocol implements `LockSpec`. */
module LockRefinement {
  import opened Common
  import opened MutationLock
  import opened LockProofs
  import Spec = LockSpec

  function View(s: State): Spec.Lock {
    Spec.Lock(map u | u in s.recs && s.recs[u].holder.Some? :: s.recs[u].holder.value,
              map o | o in s.ops && Inside(s.ops[o]) && s.ops[o].uid.Some? :: s.ops[o].uid.value)
  }

  lemma ViewIsOk(s: State)
    requires Inv(s)
    ensures Spec.Ok(View(s))
  {
    forall o | o in View(s).busy ensures View(s).busy[o] in View(s).owner && View(s).owner[View(s).busy[o]] == o {
      assert OpOk(s, o);
    }
  }

  lemma RecordsKept(s: State, e: Event)
    requires !e.Deliver?
    ensures forall u | u in s.recs :: u in Next(s, e).recs && Next(s, e).recs[u].holder == s.recs[u].holder
  {
  }

  /** A patch takes effect only on the holder it was computed from, and acquires only a free record. */
  lemma DeliveryFrees(s: State, p: Patch, heard: bool, u: Uid)
    requires Inv(s) && p in s.net && u in s.recs && s.recs[u].holder.Some?
    ensures var t := Next(s, Deliver(p, heard));
            u in t.recs && (t.recs[u].holder == s.recs[u].holder || t.recs[u].holder == None)
  {
    assert PatchOk(s, p);
  }

  /** Every step of every reachable state of the protocol is a step of the specification. */
  lemma LockImplementsSpec(events: seq<Event>, e: Event)
    ensures var s := Run(Initial, events); Spec.Step(View(s), View(Next(s, e)))
  {
    RunKeeps(Initial, events);
    var s := Run(Initial, events);
    NextKeeps(s, e);
    var t := Next(s, e);
    ViewIsOk(s);
    ViewIsOk(t);
    if e.Deliver? {
      forall u | u in View(s).owner && u in View(t).owner ensures View(t).owner[u] == View(s).owner[u] {
        if e.p in s.net { DeliveryFrees(s, e.p, e.heard, u); }
      }
    } else {
      RecordsKept(s, e);
    }
  }
}
