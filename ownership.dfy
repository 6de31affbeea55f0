/** Allocation bookkeeping for the four owned `char*` slots of the parameter
    record: every `new char[]` gets a fresh id, every `delete[]` appends the
    id it frees to the release log. */
module Ownership {
  import opened CStrings

  /** `issued` ids have been handed out (0 .. issued-1), `released` lists
      freed ids in order, `owner` says which id each non-null slot holds. */
  datatype Ledger = Ledger(issued: nat, released: seq<nat>, owner: map<Slot, nat>)

  /** The empty ledger: nothing issued, nothing held. */
  const Empty := Ledger(0, [], map[])

  /** 1 when slot `s` holds `id`, else 0. */
  function HeldBy(owner: map<Slot, nat>, s: Slot, id: nat): (r: nat)
  {
    if s in owner && owner[s] == id then 1 else 0
  }

  /** How many of the four slots hold `id`. */
  function Holders(owner: map<Slot, nat>, id: nat): (r: nat)
  {
    HeldBy(owner, OutputProfile, id) + HeldBy(owner, CameraProfile, id)
      + HeldBy(owner, BadPixels, id) + HeldBy(owner, DarkFrame, id)
  }

  /** How many times `id` has been freed. */
  function Frees(l: Ledger, id: nat): (r: nat)
  {
    multiset(l.released)[id]
  }

  /** The ledger is consistent: every issued id is, exactly once, either
      freed or held by one slot, and no other id appears. So no buffer leaks,
      none is freed twice, none is freed while still held, and no two slots
      share one. */
  ghost predicate Sound(l: Ledger)
  {
    forall id: nat :: Frees(l, id) + Holders(l.owner, id) == if id < l.issued then 1 else 0
  }

  /** `delete[] dest; dest = nullptr;` when the slot is non-null. */
  function Release(l: Ledger, s: Slot): (r: Ledger)
  {
    if s in l.owner then Ledger(l.issued, l.released + [l.owner[s]], l.owner - {s}) else l
  }

  /** `dest = new char[...]`: the slot takes the next fresh id. */
  function Allocate(l: Ledger, s: Slot): (r: Ledger)
  {
    Ledger(l.issued + 1, l.released, l.owner[s := l.issued])
  }

  /** The bookkeeping of `setStringMember` on slot `s`: release the old
      buffer, then allocate a new one only for a non-empty value. */
  function SetSlot(l: Ledger, s: Slot, nonEmpty: bool): (r: Ledger)
  {
    var freed := Release(l, s);
    if nonEmpty then Allocate(freed, s) else freed
  }

  /** The bookkeeping of `cleanupParamsStrings`: the four slots in source order. */
  function Cleanup(l: Ledger): (r: Ledger)
  {
    Release(Release(Release(Release(l, OutputProfile), CameraProfile), BadPixels), DarkFrame)
  }

  lemma EmptyIsSound()
    ensures Sound(Empty) && Empty.owner == map[]
  {
    forall id: nat ensures Frees(Empty, id) + Holders(Empty.owner, id) == 0 {
    }
  }

  /** Emptying slot `s` drops exactly its id from the held ids. */
  lemma HoldersWithout(owner: map<Slot, nat>, s: Slot, id: nat)
    requires s in owner
    ensures Holders(owner - {s}, id) + (if owner[s] == id then 1 else 0) == Holders(owner, id)
  {
  }

  /** Filling an empty slot `s` with `n` adds exactly `n` to the held ids. */
  lemma HoldersWith(owner: map<Slot, nat>, s: Slot, n: nat, id: nat)
    requires s !in owner
    ensures Holders(owner[s := n], id) == Holders(owner, id) + (if n == id then 1 else 0)
  {
  }

  /** Releasing a slot frees exactly the id it held, once, leaves the other
      slots alone and keeps the ledger sound. */
  lemma ReleaseSound(l: Ledger, s: Slot)
    requires Sound(l)
    ensures Sound(Release(l, s))
    ensures s !in Release(l, s).owner
    ensures Release(l, s).released == l.released + (if s in l.owner then [l.owner[s]] else [])
    ensures Release(l, s).issued == l.issued
    ensures forall t :: t != s ==> (t in Release(l, s).owner <==> t in l.owner)
    ensures forall t :: t != s && t in l.owner ==> Release(l, s).owner[t] == l.owner[t]
  {
    if s in l.owner {
      var r := Release(l, s);
      forall id: nat
        ensures Frees(r, id) + Holders(r.owner, id) == if id < r.issued then 1 else 0
      {
        HoldersWithout(l.owner, s, id);
        assert Frees(r, id) == Frees(l, id) + (if l.owner[s] == id then 1 else 0);
      }
    }
  }

  /** In a sound ledger the next id has never been seen: it was never freed
      and no slot holds it. */
  lemma NextIdIsFresh(l: Ledger)
    requires Sound(l)
    ensures Frees(l, l.issued) == 0
    ensures forall t :: t in l.owner ==> l.owner[t] != l.issued
  {
    assert Frees(l, l.issued) + Holders(l.owner, l.issued) == 0;
    forall t | t in l.owner ensures l.owner[t] != l.issued {
      if l.owner[t] == l.issued {
        HolderCounted(l.owner, t, l.issued);
      }
    }
  }

  /** A fresh allocation keeps the ledger sound. */
  lemma AllocateSound(l: Ledger, s: Slot)
    requires Sound(l) && s !in l.owner
    ensures Sound(Allocate(l, s))
  {
    var r := Allocate(l, s);
    forall id: nat
      ensures Frees(r, id) + Holders(r.owner, id) == if id < r.issued then 1 else 0
    {
      HoldersWith(l.owner, s, l.issued, id);
    }
  }

  /** `setStringMember` frees the slot's previous buffer exactly once, takes a
      buffer never used before only for a non-empty value, leaves the other
      slots alone and keeps the ledger sound. */
  lemma SetSlotSound(l: Ledger, s: Slot, nonEmpty: bool)
    requires Sound(l)
    ensures var r := SetSlot(l, s, nonEmpty);
      && Sound(r)
      && (s in r.owner <==> nonEmpty)
      && r.released == l.released + (if s in l.owner then [l.owner[s]] else [])
      && (nonEmpty ==> r.owner[s] == l.issued && Frees(l, r.owner[s]) == 0)
      && (nonEmpty ==> forall t :: t in l.owner ==> l.owner[t] != r.owner[s])
      && (forall t :: t != s ==> (t in r.owner <==> t in l.owner))
      && (forall t :: t != s && t in l.owner ==> r.owner[t] == l.owner[t])
  {
    ReleaseSound(l, s);
    NextIdIsFresh(l);
    if nonEmpty {
      AllocateSound(Release(l, s), s);
    }
  }

  /** `cleanupParamsStrings` leaves no slot held and only appends to the
      release log. */
  lemma CleanupEmptiesSlots(l: Ledger)
    ensures Cleanup(l).owner == map[]
    ensures Cleanup(l).issued == l.issued
    ensures Cleanup(l).released[..|l.released|] == l.released
  {
    var r := Cleanup(l);
    assert OutputProfile !in r.owner && CameraProfile !in r.owner;
    assert BadPixels !in r.owner && DarkFrame !in r.owner;
    assert r.owner == map[] by {
      forall t: Slot ensures t !in r.owner {
        match t
        case OutputProfile =>
        case CameraProfile =>
        case BadPixels =>
        case DarkFrame =>
      }
    }
  }

  /** `cleanupParamsStrings` keeps the ledger sound. */
  lemma CleanupSound(l: Ledger)
    requires Sound(l)
    ensures Sound(Cleanup(l))
  {
    var l1 := Release(l, OutputProfile);
    var l2 := Release(l1, CameraProfile);
    var l3 := Release(l2, BadPixels);
    ReleaseSound(l, OutputProfile);
    ReleaseSound(l1, CameraProfile);
    ReleaseSound(l2, BadPixels);
    ReleaseSound(l3, DarkFrame);
  }

  /** `cleanupParamsStrings` frees exactly the ids the slots held, each once. */
  lemma CleanupFreesHeld(l: Ledger, id: nat)
    requires Sound(l)
    ensures Frees(Cleanup(l), id) == Frees(l, id) + Holders(l.owner, id)
  {
    CleanupEmptiesSlots(l);
    CleanupSound(l);
    var r := Cleanup(l);
    assert Frees(r, id) + Holders(r.owner, id) == if id < r.issued then 1 else 0;
    assert Frees(l, id) + Holders(l.owner, id) == if id < l.issued then 1 else 0;
  }

  /** A second cleanup frees nothing: cleanup is idempotent. */
  lemma CleanupIdempotent(l: Ledger)
    ensures Cleanup(Cleanup(l)) == Cleanup(l)
  {
    CleanupEmptiesSlots(l);
  }

  /** A slot holding `id` counts among its holders. */
  lemma HolderCounted(owner: map<Slot, nat>, t: Slot, id: nat)
    requires t in owner && owner[t] == id
    ensures Holders(owner, id) >= 1
  {
    match t
    case OutputProfile =>
    case CameraProfile =>
    case BadPixels =>
    case DarkFrame =>
  }

  /** In a sound ledger no id is freed twice, and none is freed while held. */
  lemma FreedAtMostOnce(l: Ledger, id: nat)
    requires Sound(l)
    ensures Frees(l, id) <= 1
    ensures Frees(l, id) == 1 ==> forall t :: t in l.owner ==> l.owner[t] != id
  {
    assert Frees(l, id) + Holders(l.owner, id) == if id < l.issued then 1 else 0;
    forall t | t in l.owner && Frees(l, id) == 1 ensures l.owner[t] != id {
      if l.owner[t] == id {
        HolderCounted(l.owner, t, id);
      }
    }
  }

  /** Once no slot is held, every id ever issued has been freed exactly once
      and nothing else has been freed. */
  lemma NothingHeldAllFreedOnce(l: Ledger, id: nat)
    requires Sound(l) && l.owner == map[]
    ensures Frees(l, id) == if id < l.issued then 1 else 0
  {
    assert Frees(l, id) + Holders(l.owner, id) == if id < l.issued then 1 else 0;
  }
}
