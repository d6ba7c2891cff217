/**
 What the submission protocol relies on and the mutation lock provides: an exclusive owner per
 instance UID that is replaced only after it was freed, and whoever is busy under the lock owns it.
 */
module LockSpec {
  type Id = nat
  type Uid = nat

  /** `busy`: operations whose process or subprocess may still write under the lock, and where. */
  datatype Lock = Lock(owner: map<Uid, Id>, busy: map<Id, Uid>)

  predicate Ok(v: Lock) {
    forall o | o in v.busy :: v.busy[o] in v.owner && v.owner[v.busy[o]] == o
  }

  /** No owner is replaced directly, and none is freed or replaced while busy. */
  predicate Step(v: Lock, w: Lock) {
    && Ok(v) && Ok(w)
    && forall u | u in v.owner && u in w.owner :: w.owner[u] == v.owner[u]
  }

  /** The states of a run, one after the other. */
  predicate Steps(states: seq<Lock>) {
    forall i | 0 < i < |states| :: Step(states[i - 1], states[i])
  }

  /** Two operations busy on one instance at different times are separated by a moment at which it is free. */
  lemma Handover(states: seq<Lock>, i: nat, j: nat, a: Id, b: Id, u: Uid) returns (k: nat)
    requires Steps(states) && i < j < |states| && a != b
    requires a in states[i].busy && states[i].busy[a] == u && Ok(states[i])
    requires b in states[j].busy && states[j].busy[b] == u && Ok(states[j])
    ensures i < k < j && u !in states[k].owner
  {
    k := OwnerChange(states, i, j, a, u);
  }

  lemma {:induction false} OwnerChange(states: seq<Lock>, i: nat, j: nat, a: Id, u: Uid) returns (k: nat)
    requires Steps(states) && i < j < |states|
    requires u in states[i].owner && states[i].owner[u] == a && u in states[j].owner && states[j].owner[u] != a
    ensures i < k < j && u !in states[k].owner
    decreases j - i
  {
    assert Step(states[i], states[i + 1]);
    if u !in states[i + 1].owner {
      k := i + 1;
    } else {
      k := OwnerChange(states, i + 1, j, a, u);
    }
  }
}
