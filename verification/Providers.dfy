/** The world below the library: librdmacm, libibverbs and the allocator, as a ledger of the
    resources whose destructors the library still owes, under an arbitrary schedule of failures. */
module Providers {

  import opened Wrappers

  datatype Kind =
    | Heap | Mapping | MemoryRegion | CompChannel | CompQueue | QueuePair | CmId | EventChannel | CmEvent | AddrInfo

  /** A resource, with the resources it was created on and needs as long as it lives. */
  datatype Handle = Handle(kind: Kind, n: nat, on: set<Handle>)

  /** No call from time `from` on and before time `to` fails. */
  ghost predicate Quiet(fails: nat -> bool, from: nat, to: nat)
  {
    forall i :: from <= i < to ==> !fails(i)
  }

  /** The answer of an operation that makes these calls one after the other from time t on and gives up at
      the first that fails: the code that goes with that call, or 0. */
  function Code(fails: nat -> bool, t: nat, codes: seq<int>): int
    decreases |codes|
  {
    if codes == [] then 0 else if fails(t) then codes[0] else Code(fails, t + 1, codes[1..])
  }

  ghost predicate Negative(codes: seq<int>)
  {
    forall i :: 0 <= i < |codes| ==> codes[i] < 0
  }

  lemma {:induction false} CodeJoin(fails: nat -> bool, t: nat, a: seq<int>, b: seq<int>)
    requires Negative(a)
    ensures Code(fails, t, a + b) ==
            if Code(fails, t, a) != 0 then Code(fails, t, a) else Code(fails, t + |a|, b)
    decreases |a|
  {
    if a == [] {
      assert a + b == b;
    } else {
      assert (a + b)[1..] == a[1..] + b;
      CodeJoin(fails, t + 1, a[1..], b);
    }
  }

  lemma CodeOne(fails: nat -> bool, t: nat, c: int)
    ensures Code(fails, t, [c]) == if fails(t) then c else 0
  {
    assert [c][1..] == [];
  }

  lemma CodeTwo(fails: nat -> bool, t: nat, c: int, d: int)
    ensures Code(fails, t, [c, d]) == if fails(t) then c else if fails(t + 1) then d else 0
  {
    assert [c, d][1..] == [d];
    CodeOne(fails, t + 1, d);
  }

  lemma CodeThree(fails: nat -> bool, t: nat, c: int, d: int, e: int)
    ensures Code(fails, t, [c, d, e]) ==
            if fails(t) then c else if fails(t + 1) then d else if fails(t + 2) then e else 0
  {
    assert [c, d, e][1..] == [d, e];
    CodeTwo(fails, t + 1, d, e);
  }

  /** No live resource needs h. */
  ghost predicate Unneeded(live: set<Handle>, h: Handle)
  {
    forall g :: g in live ==> h !in g.on
  }

  /** The resources of `part` are live, and nothing outside needs them. */
  ghost predicate Holds(live: set<Handle>, part: set<Handle>)
  {
    part <= live && forall g, h :: g in live && g !in part && h in g.on ==> h !in part
  }

  /** `part` was added to the ledger, all of it new. */
  ghost predicate Acquired(before: set<Handle>, after: set<Handle>, part: set<Handle>)
  {
    after == before + part && part !! before && Holds(after, part)
  }

  /** A new resource that nothing needs, and then the rest of a part. */
  lemma Grown(live0: set<Handle>, live1: set<Handle>, live2: set<Handle>, h: Handle, part: set<Handle>)
    requires live1 == live0 + {h} && h !in live0 && Unneeded(live1, h)
    requires h in part && Acquired(live1, live2, part - {h})
    ensures Acquired(live0, live2, part)
  {
  }

  /** A part that nothing outside needs, and then a new resource that needs nothing and that nothing needs. */
  lemma GrownLater(live0: set<Handle>, live1: set<Handle>, live2: set<Handle>, part: set<Handle>, h: Handle)
    requires Acquired(live0, live1, part) && live2 == live1 + {h} && h !in live1 && Unneeded(live2, h) && h.on == {}
    ensures Acquired(live0, live2, {h} + part)
  {
  }

  class Provider {
    /** Which calls fail, by their position in time. */
    const fails: nat -> bool
    var clock: nat
    /** How many calls have failed so far. */
    var failures: nat
    /** The resources that the library owes a destructor. */
    var live: set<Handle>
    /** The event channel of each CM ID that has one. */
    var attached: map<Handle, Handle>
    /** The CM IDs that have had their event channel destroyed while they were attached to it. */
    var orphaned: set<Handle>

    ghost predicate Valid()
      reads this
    {
      && (forall h :: h in live ==> h.n < clock)
      && (forall h, g :: h in live && g in h.on ==> g.n < clock)
      && (forall id :: id in attached ==> id.kind.CmId? && id in live && attached[id].n < clock)
      && (forall id :: id in orphaned ==> id.n < clock)
    }

    /** The CM IDs attached to an event channel. */
    function Under(evch: Handle): set<Handle>
      reads this`attached
    {
      set id | id in attached && attached[id] == evch
    }

    constructor (fails: nat -> bool)
      ensures Valid() && live == orphaned == {} && attached == map[] && clock == failures == 0 && this.fails == fails
    {
      this.fails, clock, failures, live, attached, orphaned := fails, 0, 0, {}, map[], {};
    }

    /** A call that only succeeds or fails. */
    method Attempt() returns (err: bool)
      requires Valid()
      modifies this`clock, this`failures
      ensures Valid()
      ensures clock == old(clock) + 1 && err == fails(old(clock))
      ensures failures == old(failures) + if err then 1 else 0
    {
      err := fails(clock);
      clock := clock + 1;
      if err {
        failures := failures + 1;
      }
    }

    /** Acquire a resource that needs `on`. */
    method Create(kind: Kind, on: set<Handle>) returns (h: Option<Handle>)
      requires Valid() && on <= live
      modifies this`clock, this`failures, this`live
      ensures Valid() && clock == old(clock) + 1
      ensures h.None? <==> fails(old(clock))
      ensures failures == old(failures) + if h.None? then 1 else 0
      ensures h.None? ==> live == old(live)
      ensures h.Some? ==> h.value == Handle(kind, old(clock), on) && live == old(live) + {h.value}
      ensures h.Some? ==> h.value !in old(live) && Unneeded(live, h.value)
      ensures h.Some? ==> Under(h.value) == {} && h.value !in attached && h.value !in orphaned
    {
      var n := clock;
      var err := Attempt();
      if err {
        h := None;
      } else {
        h := Some(Handle(kind, n, on));
        live := live + {h.value};
      }
    }

    /** Call a destructor, once, after everything that needs the resource is gone.  Its failure is
        reported, but the library has then done what it owed. */
    method Destroy(h: Handle) returns (err: bool)
      requires Valid() && h in live && Unneeded(live, h) && !h.kind.EventChannel? && !h.kind.CmId?
      modifies this`clock, this`failures, this`live
      ensures Valid() && live == old(live) - {h}
      ensures clock == old(clock) + 1 && err == fails(old(clock))
      ensures failures == old(failures) + if err then 1 else 0
    {
      err := Attempt();
      live := live - {h};
    }

    /** Release a resource whose destructor reports nothing. */
    method Release(h: Handle)
      requires Valid() && h in live && Unneeded(live, h) && !h.kind.EventChannel? && !h.kind.CmId?
      modifies this`live
      ensures Valid() && live == old(live) - {h}
    {
      live := live - {h};
    }

    /** Destroy a CM ID, and with it its attachment. */
    method DestroyId(id: Handle) returns (err: bool)
      requires Valid() && id in live && Unneeded(live, id) && id.kind.CmId?
      modifies this`clock, this`failures, this`live, this`attached
      ensures Valid() && live == old(live) - {id} && attached == old(attached) - {id}
      ensures clock == old(clock) + 1 && err == fails(old(clock))
      ensures failures == old(failures) + if err then 1 else 0
    {
      err := Attempt();
      live, attached := live - {id}, attached - {id};
    }

    /** Destroy an event channel; a CM ID that is still attached to it is left without one. */
    method DestroyEventChannel(evch: Handle)
      requires Valid() && evch in live && Unneeded(live, evch) && evch.kind.EventChannel?
      modifies this`live, this`orphaned
      ensures Valid() && live == old(live) - {evch} && orphaned == old(orphaned) + Under(evch)
    {
      live, orphaned := live - {evch}, orphaned + Under(evch);
    }

    /** A CM ID created on an event channel. */
    method CreateId(evch: Handle) returns (id: Option<Handle>)
      requires Valid() && evch in live
      modifies this`clock, this`failures, this`live, this`attached
      ensures Valid() && clock == old(clock) + 1
      ensures failures == old(failures) + if id.None? then 1 else 0
      ensures id.None? <==> fails(old(clock))
      ensures id.None? ==> live == old(live) && attached == old(attached)
      ensures id.Some? ==> id.value == Handle(CmId, old(clock), {}) && live == old(live) + {id.value}
      ensures id.Some? ==>
                id.value !in old(live) && Unneeded(live, id.value) && attached == old(attached)[id.value := evch]
    {
      id := Create(CmId, {});
      if id.Some? {
        attached := attached[id.value := evch];
      }
    }

    /** Take an event from an event channel; a connection request brings a CM ID of its own along. */
    method GetCmEvent(evch: Handle, request: bool) returns (event: Option<Handle>, id: Handle)
      requires Valid() && evch in live
      modifies this`clock, this`failures, this`live, this`attached
      ensures Valid() && clock == old(clock) + 1
      ensures event.None? <==> fails(old(clock))
      ensures failures == old(failures) + if event.None? then 1 else 0
      ensures event.None? ==> live == old(live) && attached == old(attached)
      ensures event.Some? ==>
                && event.value == Handle(CmEvent, old(clock), {}) && event.value !in old(live)
                && id == Handle(CmId, old(clock), {}) && id !in old(live)
                && live == old(live) + {event.value} + (if request then {id} else {})
                && Unneeded(live, event.value) && Unneeded(live, id)
                && attached == if request then old(attached)[id := evch] else old(attached)
    {
      id := Handle(CmId, clock, {});
      event := Create(CmEvent, {});
      if event.Some? && request {
        live, attached := live + {id}, attached[id := evch];
      }
    }

    /** Attach a CM ID to an event channel. */
    method Migrate(id: Handle, evch: Handle) returns (err: bool)
      requires Valid() && id in live && id.kind.CmId? && evch in live
      modifies this`clock, this`failures, this`attached
      ensures Valid() && clock == old(clock) + 1 && err == fails(old(clock))
      ensures failures == old(failures) + if err then 1 else 0
      ensures attached == if err then old(attached) else old(attached)[id := evch]
    {
      err := Attempt();
      if !err {
        attached := attached[id := evch];
      }
    }

    /** Detach a CM ID from its event channel. */
    method Detach(id: Handle) returns (err: bool)
      requires Valid() && id in live
      modifies this`clock, this`failures, this`attached
      ensures Valid() && clock == old(clock) + 1 && err == fails(old(clock))
      ensures failures == old(failures) + if err then 1 else 0
      ensures attached == if err then old(attached) else old(attached) - {id}
    {
      err := Attempt();
      if !err {
        attached := attached - {id};
      }
    }
  }

  /** Everything live is older than what is yet to come. */
  lemma LiveIsOld(p: Provider)
    requires p.Valid()
    ensures forall h :: h in p.live ==> h.n < p.clock
  {
  }

  /** What is yet to come is neither live nor attached nor orphaned. */
  lemma NotYet(p: Provider, kind: Kind, n: nat)
    requires p.Valid() && n >= p.clock
    ensures var h := Handle(kind, n, {}); h !in p.live && h !in p.attached && h !in p.orphaned
  {
  }
}
