/** Whole sessions: whatever the provider and the allocator refuse along the way, everything acquired
    is released, and it is known exactly what becomes of every CM ID. */
module Sessions {
  import opened Wrappers
  import opened ByteStrings
  import opened Providers
  import opened Connections
  import opened Lifecycle
  import opened Endpoints
  import opened ConnEvents

  /** Handle a connection's events and delete it. */
  method UseAndDelete(p: Provider, conn: Connection, arrivals: seq<Arrival>)
    requires p.Valid() && conn.Ok() && conn.Alone(p) && Holds(p.live, conn.Part())
    modifies p
    ensures p.Valid() && p.clock >= old(p.clock) && p.live == old(p.live) - conn.Part()
    ensures p.attached == old(p.attached) - {conn.base.id} && p.orphaned == old(p.orphaned)
  {
    hide Provider.Valid, Holds, Connection.Ok, Connection.Part;
    var conn' := Pump(p, conn, arrivals);
    ghost var live1 := p.live;
    var _ := Disconnect(p, conn');
    PartWithData(conn, conn.data);
    PartWithData(conn, conn'.data);
    Gone(old(p.live), live1, conn.(data := None).Part(), conn.data, conn'.data);
    assert conn.(data := conn.data) == conn;
  }

  lemma Gone(live0: set<Handle>, live1: set<Handle>, bare: set<Handle>, had: Option<Data>, data: Option<Data>)
    requires DataSwapped(live0, live1, had, data)
    ensures live1 - (bare + DataPart(data)) == live0 - (bare + DataPart(had))
  {
  }

  /** Connect a request and, if that works, use and delete the connection: of what was live before, the
      request's part is gone, and the CM ID besides exactly if the connection was made. */
  method ConnectUseDelete(p: Provider, req: Request, arrivals: seq<Arrival>)
    requires p.Valid() && req.Ok() && Holds(p.live, req.Part()) && Holds(p.live, req.Part() + {req.base.id})
    modifies p
    ensures p.Valid()
    ensures p.orphaned == old(p.orphaned) + OrphanPart(ConnectFate(p.fails, old(p.clock), req.passive), req.base.id)
    ensures p.clock >= old(p.clock) && p.clock >= ConnectKnown(p.fails, old(p.clock), req.passive)
    ensures if Quiet(p.fails, old(p.clock), old(p.clock) + CONNECT_CALLS)
            then p.live == old(p.live) - req.Part() - {req.base.id} && p.attached == old(p.attached) - {req.base.id}
            else p.live == old(p.live) - req.Part() && LeftAttached(p, old(p.attached), req, old(p.clock))
  {
    hide Provider.Valid, Holds, Request.Ok, Request.Part, Connection.Ok, Connection.Part;
    hide ConnectFate, ConnectKnown, LeftAttached, OrphanPart;
    var ret, req', conn := Connect(p, Some(req), true);
    if ret == 0 {
      ghost var kept, part := old(p.live) - req.Part(), conn.value.Part();
      UseAndDelete(p, conn.value, arrivals);
      OwnsId(conn.value);
      Left(kept, part, req.base.id);
    }
  }

  lemma OwnsId(conn: Connection)
    ensures conn.base.id in conn.Part()
  {
  }

  lemma Left(kept: set<Handle>, part: set<Handle>, id: Handle)
    requires part * kept <= {id} && id in part
    ensures kept + part - part == kept - {id}
  {
    forall h | h in kept && h in part
      ensures h == id
    {
      assert h in part * kept;
    }
  }

  // ---------------------------------------------------------------- the client side

  /** Request, connect, any events, delete.  For every failure schedule the ledger ends exactly as it
      began; the CM ID of the request loses an event channel exactly if making the connection fails and
      the CM ID can then not be moved back. */
  method ActiveSession(p: Provider, cfg: Cfg, arrivals: seq<Arrival>) returns (ghost id: Handle)
    requires p.Valid()
    modifies p
    ensures p.Valid() && p.live == old(p.live) && p.attached == old(p.attached)
    ensures var t := old(p.clock) + 5 + FromIdCalls(cfg);
            p.orphaned == old(p.orphaned) +
              if Quiet(p.fails, old(p.clock), t) then OrphanPart(ConnFate(p.fails, t), id) else {}
  {
    hide Provider.Valid, Holds, Request.Ok, Request.Part, OrphanPart, ConnFate, AcceptFate, FromIdCalls;
    id := Handle(CmId, 0, {});
    var ret, req := RequestNew(p, true, cfg);
    if ret == 0 {
      id := req.value.base.id;
      ActiveOwnsId(req.value);
      Fresh(old(p.live), req.value.Part(), id);
      ConnectUseDelete(p, req.value, arrivals);
    }
  }

  lemma Fresh(live: set<Handle>, part: set<Handle>, id: Handle)
    requires part !! live && part + {id} == part
    ensures live + part - part == live && live - {id} == live
  {
    assert id in part + {id};
  }

  // ---------------------------------------------------------------- the server side

  /** One client as the server meets it: the data it sends along, whether the server refuses it, and the
      events of the connection. */
  datatype Visitor = Visitor(bytes: Bytes, refuse: bool, arrivals: seq<Arrival>)

  /** What is left of a visit that begins at time t: nothing if no event came, if only the copy of the
      private data failed, or if the connection was made and deleted; otherwise the CM ID. */
  ghost function VisitFate(fails: nat -> bool, t: nat, cfg: Cfg, v: Visitor): Option<Fate>
  {
    var asked := t + NextCalls(cfg, v.bytes);
    if fails(t) || CopyFails(fails, t + 1, cfg, v.bytes) then None
    else if v.refuse || !Quiet(fails, t, asked) then Some(Kept)
    else if Quiet(fails, asked, asked + CONNECT_CALLS) then None
    else Some(AcceptFate(fails, asked))
  }

  /** The first call from time `from` on that fails, if one before `to` does. */
  function FirstFailure(fails: nat -> bool, from: nat, to: nat): nat
    decreases if from < to then to - from else 0
  {
    if from >= to || fails(from) then from else FirstFailure(fails, from + 1, to)
  }

  lemma {:induction false} FirstFailureIs(fails: nat -> bool, from: nat, to: nat, i: nat)
    requires from <= i < to && fails(i)
    ensures from <= FirstFailure(fails, from, to) <= i && fails(FirstFailure(fails, from, to))
    ensures Quiet(fails, from, FirstFailure(fails, from, to))
    decreases if from < to then to - from else 0
  {
    if !fails(from) {
      FirstFailureIs(fails, from + 1, to, i);
    }
  }

  /** When the fate of a visit is settled: just after the last call that it depends on. */
  ghost function VisitKnown(fails: nat -> bool, t: nat, cfg: Cfg, v: Visitor): nat
  {
    var asked := t + NextCalls(cfg, v.bytes);
    if fails(t) then t + 1
    else if CopyFails(fails, t + 1, cfg, v.bytes) then t + 2 + FromIdCalls(cfg)
    else if !Quiet(fails, t, asked) then FirstFailure(fails, t, asked) + 1
    else if v.refuse then asked
    else AcceptKnown(fails, asked)
  }

  /** The ledger after a visit. */
  ghost predicate Visited(p: Provider, live0: set<Handle>, attached0: map<Handle, Handle>, orphaned0: set<Handle>,
                          ep: Endpoint, id: Handle, fate: Option<Fate>)
    reads p
  {
    match fate
    case None => p.live == live0 && p.attached == attached0 && p.orphaned == orphaned0
    case Some(f) =>
      && p.live == live0 + {id} && p.orphaned == orphaned0 + OrphanPart(f, id) && p.attached - {id} == attached0
      && (f.Kept? ==> id in p.attached && p.attached[id] == ep.evch)
      && (f.Detached? ==> id !in p.attached)
      && (f.Orphaned? ==> id in p.attached && p.attached[id] !in p.live)
      && !f.Connected?
  }

  /** One request on a listening endpoint: take it, refuse or connect it, any events, delete.  For every
      failure schedule nothing but the CM ID that came with the request can stay, and it is said exactly
      when it does and what it is then attached to. */
  method PassiveSession(p: Provider, ep: Endpoint, cfg: Cfg, v: Visitor) returns (ghost id: Handle)
    requires p.Valid() && ep.evch in p.live
    modifies p
    ensures p.Valid() && p.clock > old(p.clock) && p.clock >= VisitKnown(p.fails, old(p.clock), cfg, v)
    ensures id == Handle(CmId, old(p.clock), {})
    ensures id !in old(p.live) && id !in old(p.orphaned) && id !in old(p.attached)
    ensures Visited(p, old(p.live), old(p.attached), old(p.orphaned), ep, id,
                    VisitFate(p.fails, old(p.clock), cfg, v))
  {
    hide Provider.Valid, Holds, Request.Ok, Request.Part, NextCalls, CopyFails, Quiet, Copied;
    hide ConnFate, AcceptFate, AcceptKnown, VisitFate, VisitKnown, FromIdCalls, NextCodes, RequestDeletes;
    hide Configured, Code;
    NotYet(p, CmId, p.clock);
    var ret, req;
    ret, req, id := NextConnReq(p, ep, cfg, true, v.bytes, false);
    if ret != 0 {
      NotAsked(p.fails, old(p.clock), p.clock, cfg, v);
    } else {
      Asked(p.fails, old(p.clock), cfg, v);
      ConnectedIffQuiet(p.fails, p.clock);
      Passing(old(p.live), req.value.Part(), id);
      if v.refuse {
        var _ := TearDown(p, req.value);
      } else {
        ConnectUseDelete(p, req.value, v.arrivals);
      }
    }
  }

  /** A visit that does not come to a request. */
  lemma NotAsked(fails: nat -> bool, t: nat, now: nat, cfg: Cfg, v: Visitor)
    requires !Quiet(fails, t, t + NextCalls(cfg, v.bytes)) && !Quiet(fails, t, now)
    requires !fails(t) && CopyFails(fails, t + 1, cfg, v.bytes) ==> now > t + 1 + FromIdCalls(cfg)
    ensures now >= VisitKnown(fails, t, cfg, v)
    ensures VisitFate(fails, t, cfg, v) ==
            if fails(t) || CopyFails(fails, t + 1, cfg, v.bytes) then None else Some(Kept)
  {
    hide CopyFails, NextCalls;
    FailureMade(fails, t, now, t + NextCalls(cfg, v.bytes));
    assert now > t;
  }

  /** A visit that does. */
  lemma Asked(fails: nat -> bool, t: nat, cfg: Cfg, v: Visitor)
    requires Quiet(fails, t, t + NextCalls(cfg, v.bytes))
    ensures var asked := t + NextCalls(cfg, v.bytes);
            && VisitKnown(fails, t, cfg, v) == (if v.refuse then asked else AcceptKnown(fails, asked))
            && VisitFate(fails, t, cfg, v) ==
                 if v.refuse then Some(Kept)
                 else if Quiet(fails, asked, asked + CONNECT_CALLS) then None
                 else Some(AcceptFate(fails, asked))
  {
    QuietCopies(fails, t, cfg, v.bytes);
  }

  /** A visit without failures up to the acknowledgement copies the private data. */
  lemma QuietCopies(fails: nat -> bool, t: nat, cfg: Cfg, bytes: Bytes)
    requires Quiet(fails, t, t + NextCalls(cfg, bytes))
    ensures !fails(t) && !CopyFails(fails, t + 1, cfg, bytes)
  {
  }

  lemma FailureMade(fails: nat -> bool, t: nat, now: nat, to: nat)
    requires !Quiet(fails, t, now)
    ensures !Quiet(fails, t, to) ==> FirstFailure(fails, t, to) < now
  {
    if !Quiet(fails, t, to) {
      var i :| t <= i < to && fails(i);
      FirstFailureIs(fails, t, to, i);
    }
  }

  /** No later call has a say in the fate of a visit. */
  lemma VisitSettled(f: nat -> bool, g: nat -> bool, t: nat, cfg: Cfg, v: Visitor)
    requires Agree(f, g, t, VisitKnown(f, t, cfg, v))
    ensures VisitFate(f, t, cfg, v) == VisitFate(g, t, cfg, v)
  {
    if f(t) {
      assert g(t);
    } else if CopyFails(f, t + 1, cfg, v.bytes) {
      assert CopyFails(g, t + 1, cfg, v.bytes);
    } else if Quiet(f, t, t + NextCalls(cfg, v.bytes)) {
      AskedSettled(f, g, t, cfg, v);
    } else {
      NotAskedSettled(f, g, t, cfg, v);
    }
  }

  lemma AskedSettled(f: nat -> bool, g: nat -> bool, t: nat, cfg: Cfg, v: Visitor)
    requires Agree(f, g, t, VisitKnown(f, t, cfg, v)) && Quiet(f, t, t + NextCalls(cfg, v.bytes))
    ensures VisitFate(f, t, cfg, v) == VisitFate(g, t, cfg, v)
  {
    hide VisitKnown, VisitFate, AcceptFate, AcceptKnown, CopyFails, NextCalls;
    var asked := t + NextCalls(cfg, v.bytes);
    Asked(f, t, cfg, v);
    KnownLater(f, asked);
    QuietAgrees(f, g, t, asked, cfg, v.bytes);
    Asked(g, t, cfg, v);
    if !v.refuse {
      FateSettled(f, g, asked);
      ConnectedIffQuiet(f, asked);
      ConnectedIffQuiet(g, asked);
    }
  }

  lemma KnownLater(fails: nat -> bool, t: nat)
    ensures AcceptKnown(fails, t) > t
  {
  }

  lemma NotAskedSettled(f: nat -> bool, g: nat -> bool, t: nat, cfg: Cfg, v: Visitor)
    requires Agree(f, g, t, VisitKnown(f, t, cfg, v)) && !Quiet(f, t, t + NextCalls(cfg, v.bytes))
    requires !f(t) && !CopyFails(f, t + 1, cfg, v.bytes)
    ensures VisitFate(f, t, cfg, v) == VisitFate(g, t, cfg, v) == Some(Kept)
  {
    hide AcceptFate, AcceptKnown, CopyFails, NextCalls, FirstFailure;
    var asked := t + NextCalls(cfg, v.bytes);
    var i :| t <= i < asked && f(i);
    FirstFailureIs(f, t, asked, i);
    EarlyFailure(f, g, t, cfg, v.bytes);
  }

  /** The first failure is neither the event nor the copy: so it is for every schedule that agrees so far. */
  lemma EarlyFailure(f: nat -> bool, g: nat -> bool, t: nat, cfg: Cfg, bytes: Bytes)
    requires var asked := t + NextCalls(cfg, bytes);
             var i := FirstFailure(f, t, asked);
             t < i < asked && f(i) && Quiet(f, t, i) && Agree(f, g, t, i + 1)
    requires !CopyFails(f, t + 1, cfg, bytes)
    ensures !g(t) && !CopyFails(g, t + 1, cfg, bytes) && !Quiet(g, t, t + NextCalls(cfg, bytes))
  {
    hide FirstFailure, FromIdCalls;
    var i, copy := FirstFailure(f, t, t + NextCalls(cfg, bytes)), t + 1 + FromIdCalls(cfg);
    assert g(i);
    if bytes != [] && i == copy {
      assert Quiet(f, t + 1, copy);
    }
  }

  lemma QuietAgrees(f: nat -> bool, g: nat -> bool, t: nat, asked: nat, cfg: Cfg, bytes: Bytes)
    requires asked == t + NextCalls(cfg, bytes) && Quiet(f, t, asked) && Agree(f, g, t, asked)
    ensures Quiet(g, t, asked) && !g(t) && !CopyFails(g, t + 1, cfg, bytes)
  {
    hide FromIdCalls;
    assert bytes != [] ==> t + 1 + FromIdCalls(cfg) < asked;
  }

  lemma Passing(live: set<Handle>, part: set<Handle>, id: Handle)
    requires part !! (live + {id}) && id !in live
    ensures live + {id} + part - part == live + {id}
    ensures live + {id} - {id} == live
  {
  }

  // ---------------------------------------------------------------- a server from start to end

  /** The visits that leave a CM ID with this fate. */
  ghost predicate Any(fates: seq<Option<Fate>>, fate: Fate)
  {
    Some(fate) in fates
  }

  /** What any number of visits have left behind: the CM IDs `left`, of which those of `waiting` are still
      attached to the endpoint's event channel and those of `lost` have lost one of their own. */
  datatype Remains = Remains(left: set<Handle>, waiting: set<Handle>, lost: set<Handle>)

  ghost predicate Tally(r: Remains, fates: seq<Option<Fate>>)
  {
    && r.waiting + r.lost <= r.left
    && (r.waiting != {} <==> Any(fates, Kept))
    && (r.lost != {} <==> Any(fates, Orphaned))
    && (r.left != {} <==> Any(fates, Kept) || Any(fates, Detached) || Any(fates, Orphaned))
  }

  ghost function Remaining(r: Remains, id: Handle, fate: Option<Fate>): Remains
  {
    match fate
    case None => r
    case Some(f) =>
      Remains(r.left + {id}, if f.Kept? then r.waiting + {id} else r.waiting,
              if f.Orphaned? then r.lost + {id} else r.lost)
  }

  lemma TallyGrows(r: Remains, fates: seq<Option<Fate>>, id: Handle, fate: Option<Fate>)
    requires Tally(r, fates) && fate != Some(Connected)
    ensures Tally(Remaining(r, id, fate), fates + [fate])
  {
    assert forall f :: Any(fates + [fate], f) <==> Any(fates, f) || fate == Some(f);
    assert fate.Some? ==> id in r.left + {id};
    assert fate == Some(Kept) ==> id in r.waiting + {id};
    assert fate == Some(Orphaned) ==> id in r.lost + {id};
  }

  /** The ledger after some visits. */
  ghost predicate Served(p: Provider, live0: set<Handle>, attached0: map<Handle, Handle>, orphaned0: set<Handle>,
                         ep: Endpoint, r: Remains)
    reads p
  {
    && p.live == live0 + r.left && r.left !! live0
    && p.orphaned == orphaned0 + r.lost && r.left !! orphaned0
    && p.attached - r.left == attached0 && p.Under(ep.evch) == {ep.id} + r.waiting
    && forall h :: h in r.left ==> h.on == {}
  }

  /** Every visit's fate is the one its schedule makes it, and no visit begins before the fates of the earlier
      ones are settled. */
  ghost predicate Fated(fails: nat -> bool, cfg: Cfg, plan: seq<Visitor>, times: seq<nat>, fates: seq<Option<Fate>>)
  {
    && |times| == |fates| <= |plan|
    && (forall i :: 0 <= i < |fates| ==> fates[i] == VisitFate(fails, times[i], cfg, plan[i]))
    && (forall i, j :: 0 <= i < j < |times| ==> times[j] >= VisitKnown(fails, times[i], cfg, plan[i]))
  }

  /** One more visit. */
  method ServeOne(p: Provider, ep: Endpoint, cfg: Cfg, v: Visitor, ghost r: Remains, ghost live0: set<Handle>,
                  ghost attached0: map<Handle, Handle>, ghost orphaned0: set<Handle>)
      returns (ghost id: Handle)
    requires p.Valid() && ep.evch in live0 && Served(p, live0, attached0, orphaned0, ep, r)
    modifies p
    ensures p.Valid() && p.clock >= VisitKnown(p.fails, old(p.clock), cfg, v) && p.clock >= old(p.clock)
    ensures var fate := VisitFate(p.fails, old(p.clock), cfg, v);
            fate != Some(Connected) && Served(p, live0, attached0, orphaned0, ep, Remaining(r, id, fate))
  {
    hide Provider.Valid, VisitFate, VisitKnown;
    ghost var attached1 := p.attached;
    id := PassiveSession(p, ep, cfg, v);
    if id in p.live {
      assert p.attached - (r.left + {id}) == (p.attached - {id}) - r.left;
    }
    UnderGrows(attached1, p.attached, id, ep.evch);
  }

  ghost function UnderOf(attached: map<Handle, Handle>, evch: Handle): set<Handle>
  {
    set id | id in attached && attached[id] == evch
  }

  lemma UnderGrows(a: map<Handle, Handle>, b: map<Handle, Handle>, id: Handle, evch: Handle)
    requires id !in a && b - {id} == a
    ensures UnderOf(b, evch) == UnderOf(a, evch) + if id in b && b[id] == evch then {id} else {}
  {
    assert forall h :: h in a ==> h in b - {id} && b[h] == a[h];
    assert forall h :: h in b && h != id ==> h in b - {id};
  }

  /** Any number of visits. */
  method Serve(p: Provider, ep: Endpoint, cfg: Cfg, plan: seq<Visitor>)
      returns (ghost times: seq<nat>, ghost fates: seq<Option<Fate>>, ghost r: Remains)
    requires p.Valid() && ep.evch in p.live && p.Under(ep.evch) == {ep.id}
    modifies p
    ensures p.Valid() && |fates| == |plan| && Fated(p.fails, cfg, plan, times, fates)
    ensures plan != [] ==> times[0] == old(p.clock)
    ensures Tally(r, fates) && Served(p, old(p.live), old(p.attached), old(p.orphaned), ep, r)
  {
    hide Provider.Valid, Served, VisitFate, VisitKnown, Tally, Remaining;
    times, fates, r := [], [], Remains({}, {}, {});
    NothingYet(p, ep);
    for i := 0 to |plan|
      invariant p.Valid() && |fates| == i && Fated(p.fails, cfg, plan, times, fates)
      invariant i > 0 ==> times[0] == old(p.clock)
      invariant i == 0 ==> p.clock == old(p.clock)
      invariant forall k :: 0 <= k < i ==> p.clock >= VisitKnown(p.fails, times[k], cfg, plan[k])
      invariant Tally(r, fates) && Served(p, old(p.live), old(p.attached), old(p.orphaned), ep, r)
    {
      ghost var t := p.clock;
      ghost var id := ServeOne(p, ep, cfg, plan[i], r, old(p.live), old(p.attached), old(p.orphaned));
      ghost var fate := VisitFate(p.fails, t, cfg, plan[i]);
      TallyGrows(r, fates, id, fate);
      times, fates, r := times + [t], fates + [fate], Remaining(r, id, fate);
    }
  }

  lemma NothingYet(p: Provider, ep: Endpoint)
    requires p.Under(ep.evch) == {ep.id}
    ensures Served(p, p.live, p.attached, p.orphaned, ep, Remains({}, {}, {})) && Tally(Remains({}, {}, {}), [])
  {
    assert p.attached - {} == p.attached;
  }

  /** A server: listen, meet any number of clients, shut down.  For every failure schedule all that can stay
      is the CM IDs of some visits; and an event channel is destroyed under a CM ID if and only if some
      visit leaves its CM ID attached to the endpoint's, or to its own after it could not be moved back. */
  method ServerSession(p: Provider, cfg: Cfg, plan: seq<Visitor>)
      returns (ret: int, ghost times: seq<nat>, ghost fates: seq<Option<Fate>>, ghost r: Remains)
    requires p.Valid()
    modifies p
    ensures p.Valid()
    ensures ret == 0 <==> Quiet(p.fails, old(p.clock), old(p.clock) + LISTEN_CALLS)
    ensures ret != 0 ==> p.live == old(p.live) && p.attached == old(p.attached) && p.orphaned == old(p.orphaned)
    ensures ret == 0 ==>
              && |fates| == |plan| && Fated(p.fails, cfg, plan, times, fates) && Tally(r, fates)
              && (plan != [] ==> times[0] == old(p.clock) + LISTEN_CALLS)
              && p.live == old(p.live) + r.left && r.left !! old(p.live)
              && p.orphaned == old(p.orphaned) + r.lost + r.waiting
              && (p.orphaned == old(p.orphaned) <==> !Any(fates, Kept) && !Any(fates, Orphaned))
  {
    hide Provider.Valid, Holds, Fated, Any;
    var ep;
    ret, ep := Listen(p, true);
    times, fates, r := [], [], Remains({}, {}, {});
    if ret == 0 {
      ghost var live1 := p.live;
      times, fates, r := Serve(p, ep.value, cfg, plan);
      StillHeld(live1, r.left, ep.value.Part());
      var _, _ := Shutdown(p, true, ep);
      assert r.left !! old(p.live) && r.left !! ep.value.Part();
      assert p.orphaned == old(p.orphaned) + r.lost + r.waiting;
      Fewer(old(p.orphaned), r.lost + r.waiting);
      assert r.lost + r.waiting == {} <==> r.lost == {} && r.waiting == {};
    }
  }

  lemma StillHeld(live: set<Handle>, more: set<Handle>, part: set<Handle>)
    requires Holds(live, part) && forall h :: h in more ==> h.on == {}
    ensures Holds(live + more, part)
  {
  }

  lemma Fewer(a: set<Handle>, b: set<Handle>)
    requires a !! b
    ensures a + b == a <==> b == {}
  {
    if a + b == a {
      forall h
        ensures h !in b
      {
        assert h in b ==> h in a + b;
      }
    }
  }

  // ---------------------------------------------------------------- three schedules

  const PLAIN := Cfg(false, 0)

  /** Exactly the calls at these times fail. */
  ghost predicate FailsAt(fails: nat -> bool, times: set<nat>)
  {
    forall n :: fails(n) <==> n in times
  }

  lemma RefusedClientFate(fails: nat -> bool)
    requires FailsAt(fails, {})
    ensures Quiet(fails, 0, LISTEN_CALLS)
    ensures VisitFate(fails, LISTEN_CALLS, PLAIN, Visitor([], true, [])) == Some(Kept)
  {
  }

  lemma RefusedDetachFate(fails: nat -> bool)
    requires FailsAt(fails, {18, 19})
    ensures Quiet(fails, 0, LISTEN_CALLS)
    ensures VisitFate(fails, LISTEN_CALLS, PLAIN, Visitor([], false, [])) == Some(Orphaned)
  {
    assert NextCalls(PLAIN, []) == 8 && fails(18) && fails(19);
    assert AcceptFate(fails, 15) == ConnFate(fails, 16) == Orphaned;
  }

  lemma FailedCopySchedule(fails: nat -> bool)
    requires FailsAt(fails, {14})
    ensures Quiet(fails, 0, LISTEN_CALLS)
    ensures !fails(LISTEN_CALLS) && CopyFails(fails, LISTEN_CALLS + 1, PLAIN, [7])
  {
    assert FromIdCalls(PLAIN) == 6 && fails(14);
  }

  /** One visit on a fresh provider. */
  method OneVisit(p: Provider, v: Visitor) returns (ret: int)
    requires p.Valid() && p.clock == 0 && p.orphaned == {}
    requires Quiet(p.fails, 0, LISTEN_CALLS)
    modifies p
    ensures p.Valid() && ret == 0 && p.orphaned <= p.live
    ensures p.orphaned != {} <==> VisitFate(p.fails, LISTEN_CALLS, PLAIN, v) in {Some(Kept), Some(Orphaned)}
  {
    hide Provider.Valid, VisitFate;
    ghost var times, fates, r;
    ret, times, fates, r := ServerSession(p, PLAIN, [v]);
    assert fates == [VisitFate(p.fails, LISTEN_CALLS, PLAIN, v)];
  }

  /** Nothing fails, one client is refused, and the shutdown still destroys the event channel under the
      client's CM ID. */
  method RefusedClient() returns (p: Provider, ret: int)
    ensures FailsAt(p.fails, {}) && ret == 0 && p.orphaned != {} && p.orphaned <= p.live
  {
    hide Provider.Valid, VisitFate;
    p := new Provider(_ => false);
    RefusedClientFate(p.fails);
    ret := OneVisit(p, Visitor([], true, []));
  }

  /** The flush object of an accepted client cannot be made, and the CM ID cannot be moved back from the
      connection's event channel, which is destroyed all the same. */
  method RefusedDetach() returns (p: Provider, ret: int)
    ensures FailsAt(p.fails, {18, 19}) && ret == 0 && p.orphaned != {} && p.orphaned <= p.live
  {
    hide Provider.Valid, VisitFate;
    p := new Provider(n => n == 18 || n == 19);
    RefusedDetachFate(p.fails);
    ret := OneVisit(p, Visitor([], false, []));
  }

  /** The first request on a fresh provider. */
  method FirstRequest(p: Provider, bytes: Bytes) returns (ret: int, req: Option<Request>, ghost id: Handle)
    requires p.Valid() && p.clock == 0 && Quiet(p.fails, 0, LISTEN_CALLS)
    modifies p
    ensures p.Valid() && id == Handle(CmId, LISTEN_CALLS, {})
    ensures ret == 0 <==> Quiet(p.fails, LISTEN_CALLS, LISTEN_CALLS + NextCalls(PLAIN, bytes))
    ensures CopyFails(p.fails, LISTEN_CALLS + 1, PLAIN, bytes) ==> ret != 0 && id !in p.live
    ensures ret == 0 ==>
              && p.clock == LISTEN_CALLS + NextCalls(PLAIN, bytes)
              && req.Some? && req.value.Ok() && req.value.passive && Copied(req.value.data, bytes)
              && Holds(p.live, req.value.Part()) && Holds(p.live, req.value.Part() + {req.value.base.id})
  {
    hide Provider.Valid, Provider.Under, CopyFails, NextCalls, Copied, Holds, Request.Ok, Request.Part;
    var ep;
    ret, ep := Listen(p, true);
    ret, req, id := NextConnReq(p, ep.value, PLAIN, true, bytes, false);
    if ret == 0 {
      QuietCopies(p.fails, LISTEN_CALLS, PLAIN, bytes);
    }
  }

  /** The private data of a request cannot be copied: its CM ID is destroyed, although every other failure
      would have left it alone. */
  method FailedCopy() returns (p: Provider, ret: int, ghost id: Handle)
    ensures FailsAt(p.fails, {14}) && ret != 0 && id == Handle(CmId, LISTEN_CALLS, {}) && id !in p.live
  {
    hide Provider.Valid, CopyFails, Quiet;
    p := new Provider(n => n == 14);
    FailedCopySchedule(p.fails);
    var req;
    ret, req, id := FirstRequest(p, [7]);
  }

  /** A client sends private data along and is accepted; the acknowledgement of the connection's first event
      fails, and the data is gone. */
  method LostData() returns (p: Provider, conn: Option<Connection>, data: Option<Data>)
    ensures FailsAt(p.fails, {27}) && conn.Some? && Copied(conn.value.data, [7]) && data == None
  {
    hide Provider.Valid, Request.Ok, Request.Part, Holds, Quiet, FailsAt, DataSwapped, Connection.Ok, Connection.Part;
    hide LeftAttached, Moved, ConnectKnown, ConnectFate, CopyFails;
    p := new Provider(n => n == 27);
    LostDataSchedule(p.fails);
    var ret, req, id := FirstRequest(p, [7]);
    var ret', req', c := Connect(p, req, true);
    conn := c;
    DataHeld(p.live, conn.value);
    var code, event;
    code, data, event := TakeEvent(p, conn.value.evch, conn.value.data, Arrival(Established, []), false);
  }

  lemma LostDataSchedule(fails: nat -> bool)
    requires forall n :: fails(n) <==> n == 27
    ensures FailsAt(fails, {27}) && NextCalls(PLAIN, [7]) == 9
    ensures Quiet(fails, 0, 7) && Quiet(fails, 7, 16) && Quiet(fails, 16, 26) && !fails(26) && fails(27)
  {
  }
}
