/** A leased lock on one Redis key: SET NX with a lease to acquire, compare-and-delete to release. */
module RedisLocks {
  import opened Text

  type Owner = nat

  /** The key's value and the moment it lapses. */
  datatype Lease = Lease(owner: Owner, until: int)

  /** The value Redis shows at a moment: a lapsed key is gone. */
  function Holder(key: Option<Lease>, now: int): Option<Owner> {
    if key.Some? && now < key.value.until then Some(key.value.owner) else None
  }

  function Acquired(key: Option<Lease>, owner: Owner, now: int, ttl: nat): Option<Lease> {
    if Holder(key, now).None? then Some(Lease(owner, now + ttl)) else key
  }

  function Released(key: Option<Lease>, owner: Owner, now: int): Option<Lease> {
    if Holder(key, now) == Some(owner) then None else key
  }

  class RedisKey {
    var value: Option<Lease>

    constructor ()
      ensures value == None
    {
      value := None;
    }
  }

  class Lock {
    const key: RedisKey
    const owner: Owner

    constructor (key: RedisKey, owner: Owner)
      ensures this.key == key && this.owner == owner
    {
      this.key, this.owner := key, owner;
    }

    method Acquire(now: int, ttl: nat) returns (ok: bool)
      modifies key
      ensures ok <==> Holder(old(key.value), now).None?
      ensures key.value == Acquired(old(key.value), owner, now, ttl)
      ensures key.value == if ok then Some(Lease(owner, now + ttl)) else old(key.value)
    {
      ok := Holder(key.value, now).None?;
      if ok { key.value := Some(Lease(owner, now + ttl)); }
    }

    method Release(now: int)
      modifies key
      ensures key.value == Released(old(key.value), owner, now)
    {
      if Holder(key.value, now) == Some(owner) { key.value := None; }
    }
  }

  // ----- Runs of the lock alone, with no assumption on how long anyone holds it

  datatype Event = Acquire(owner: Owner, ttl: nat) | Release(owner: Owner) | Pass(span: nat)

  datatype World = World(now: int, key: Option<Lease>)

  function Step(w: World, e: Event): World {
    match e
    case Acquire(o, ttl) => w.(key := Acquired(w.key, o, w.now, ttl))
    case Release(o) => w.(key := Released(w.key, o, w.now))
    case Pass(span) => w.(now := w.now + span)
  }

  function After(w: World, events: seq<Event>): World
    decreases |events|
  {
    if events == [] then w else After(Step(w, events[0]), events[1..])
  }

  /**
   While an owner has not released and its lease has not lapsed, it stays the holder, whatever acquires and
   releases the others attempt meanwhile; in particular a late release by a previous holder frees nothing.
   */
  lemma {:induction false} HolderStays(w: World, events: seq<Event>, owner: Owner)
    requires Holder(w.key, w.now) == Some(owner)
    requires forall i :: 0 <= i < |events| ==> events[i] != Release(owner)
    requires After(w, events).now < w.key.value.until
    ensures After(w, events).key == w.key
    ensures Holder(After(w, events).key, After(w, events).now) == Some(owner)
    decreases |events|
  {
    if events != [] {
      TimeOnlyPasses(Step(w, events[0]), events[1..]);
      HolderStays(Step(w, events[0]), events[1..], owner);
    }
  }

  lemma {:induction false} TimeOnlyPasses(w: World, events: seq<Event>)
    ensures w.now <= After(w, events).now
    decreases |events|
  {
    if events != [] { TimeOnlyPasses(Step(w, events[0]), events[1..]); }
  }

  lemma {:induction false} FreeStaysFree(w: World, tail: seq<Event>)
    requires Holder(w.key, w.now).None? && forall i :: 0 <= i < |tail| ==> !tail[i].Acquire?
    ensures Holder(After(w, tail).key, After(w, tail).now).None?
    decreases |tail|
  {
    if tail != [] { FreeStaysFree(Step(w, tail[0]), tail[1..]); }
  }

  lemma {:induction false} FreedInTail(w: World, tail: seq<Event>, owner: Owner)
    requires Holder(w.key, w.now) == Some(owner) && forall i :: 0 <= i < |tail| ==> !tail[i].Acquire?
    ensures Holder(After(w, tail).key, After(w, tail).now)
         == if Release(owner) in tail || After(w, tail).now >= w.key.value.until then None else Some(owner)
    decreases |tail|
  {
    if tail != [] {
      var w' := Step(w, tail[0]);
      TimeOnlyPasses(w', tail[1..]);
      if Holder(w'.key, w'.now).None? { FreeStaysFree(w', tail[1..]); } else { FreedInTail(w', tail[1..], owner); }
    }
  }

  /** A key obtained is held for exactly its lease if nobody releases it: another gets it then and not before. */
  lemma LeaseExact(w: World, owner: Owner, other: Owner, ttl: nat, span: nat)
    requires ttl > 0 && other != owner && Holder(w.key, w.now).None?
    ensures var later := Step(Step(w, Acquire(owner, ttl)), Pass(span));
            Holder(Step(later, Acquire(other, ttl)).key, later.now) == Some(other) <==> span >= ttl
  {
  }

  /**
   While the lease runs and the owner keeps the key, every attempt by another fails; the first attempt after that
   obtains the key exactly when meanwhile the owner released it or its lease lapsed.
   */
  lemma FreedExact(w: World, before: seq<Event>, tail: seq<Event>, owner: Owner, other: Owner, ttl: nat)
    requires ttl > 0 && other != owner && Holder(w.key, w.now) == Some(owner)
    requires Release(owner) !in before && After(w, before).now < w.key.value.until
    requires forall i :: 0 <= i < |tail| ==> !tail[i].Acquire?
    ensures var held := After(w, before);
            var later := After(held, tail);
            && Step(held, Acquire(other, ttl)) == held
            && (Holder(Step(later, Acquire(other, ttl)).key, later.now) == Some(other) <==>
                  Release(owner) in tail || later.now >= w.key.value.until)
  {
    HolderStays(w, before, owner);
    FreedInTail(After(w, before), tail, owner);
  }
}
