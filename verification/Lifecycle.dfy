/** The life of a connection, from request to connection or back to nothing, under every schedule of
    provider and allocation failures. */
module Lifecycle {
  import opened Wrappers
  import opened Errors
  import opened Providers
  import opened Resources
  import opened Connections

  // ---------------------------------------------------------------- what becomes of the CM ID

  /** How an attempt to turn a CM ID into a connection leaves it: connected; attached as before; detached;
      or attached to an event channel that has been destroyed. */
  datatype Fate = Connected | Kept | Detached | Orphaned

  /** How many calls it takes to make a connection, and to accept or connect one. */
  const CONN_CALLS := 9
  const CONNECT_CALLS := 10

  /** The moment at which the flush object and the connection's own memory, begun at time t, are undone
      if a call fails. */
  function OwnUndone(fails: nat -> bool, t: nat): Option<nat>
  {
    if FlushUndone(fails, t).Some? then FlushUndone(fails, t)
    else if fails(t + 6) then Some(t + 9)
    else None
  }

  /** The CM ID of a connection made from time t on: the event channel, the migration to it, the
      connection's own; the attempt to detach it comes once the latter is undone. */
  function ConnFate(fails: nat -> bool, t: nat): Fate
  {
    if fails(t) || fails(t + 1) then Kept
    else match OwnUndone(fails, t + 2)
      case None => Connected
      case Some(d) => if fails(d) then Orphaned else Detached
  }

  /** The same for a passive request, which is first accepted, and for either kind. */
  function AcceptFate(fails: nat -> bool, t: nat): Fate
  {
    if fails(t) then Kept else ConnFate(fails, t + 1)
  }

  function ConnectFate(fails: nat -> bool, t: nat, passive: bool): Fate
  {
    if passive then AcceptFate(fails, t) else ConnFate(fails, t)
  }

  /** When the fate is settled: just after the last call that it depends on. */
  function ConnKnown(fails: nat -> bool, t: nat): nat
  {
    if fails(t) then t + 1
    else if fails(t + 1) then t + 2
    else match OwnUndone(fails, t + 2)
      case None => t + CONN_CALLS
      case Some(d) => d + 1
  }

  function AcceptKnown(fails: nat -> bool, t: nat): nat
  {
    if fails(t) then t + 1 else ConnKnown(fails, t + 1)
  }

  function ConnectKnown(fails: nat -> bool, t: nat, passive: bool): nat
  {
    if passive then AcceptKnown(fails, t) else ConnKnown(fails, t)
  }

  /** Two schedules that agree on these calls. */
  ghost predicate Agree(f: nat -> bool, g: nat -> bool, from: nat, to: nat)
  {
    forall i :: from <= i < to ==> f(i) == g(i)
  }

  /** No later call has a say in the fate. */
  lemma FateSettled(f: nat -> bool, g: nat -> bool, t: nat)
    requires Agree(f, g, t, AcceptKnown(f, t))
    ensures AcceptFate(f, t) == AcceptFate(g, t)
  {
  }

  /** What the calls answer for: the event channel, the migration; then the flush object and the connection's
      memory; and the acceptance or the connection itself. */
  const OWN_CODES := FLUSH_CODES + [E_NOMEM]
  const CONN_CODES := [E_PROVIDER, E_PROVIDER] + OWN_CODES

  function ConnectCodes(passive: bool): seq<int>
  {
    if passive then [E_PROVIDER] + CONN_CODES else CONN_CODES + [E_PROVIDER]
  }

  lemma ConnectedIffQuiet(fails: nat -> bool, t: nat)
    ensures OwnUndone(fails, t).None? <==> Quiet(fails, t, t + 7)
    ensures ConnFate(fails, t).Connected? <==> Quiet(fails, t, t + CONN_CALLS)
    ensures AcceptFate(fails, t).Connected? <==> Quiet(fails, t, t + CONNECT_CALLS)
  {
    OwnQuiet(fails, t);
    OwnQuiet(fails, t + 2);
    OwnQuiet(fails, t + 3);
  }

  lemma OwnQuiet(fails: nat -> bool, t: nat)
    ensures OwnUndone(fails, t).None? <==> Quiet(fails, t, t + 7)
  {
  }

  ghost function OrphanPart(fate: Fate, id: Handle): set<Handle>
  {
    if fate.Orphaned? then {id} else {}
  }

  /** What is attached after an attempt that did not connect. */
  ghost function AttachedAfter(attached: map<Handle, Handle>, id: Handle, fate: Fate, evch: Handle): map<Handle, Handle>
  {
    match fate
    case Detached => attached - {id}
    case Orphaned => attached[id := evch]
    case _ => attached
  }

  // ---------------------------------------------------------------- connections

  /** What a new connection adds to its base. */
  ghost function OwnPart(conn: Connection): set<Handle>
  {
    {conn.obj, conn.evch} + FlushPart(conn.flush)
  }

  method ErrMigrateIdNull(p: Provider, id: Handle, evch: Handle)
    requires p.Valid() && evch in p.live && Unneeded(p.live, evch) && evch.kind == EventChannel
    requires id in p.live && p.Under(evch) == {id}
    modifies p
    ensures p.Valid() && p.failures >= old(p.failures) && p.clock >= old(p.clock) && p.live == old(p.live) - {evch}
    ensures p.clock == old(p.clock) + 1
    ensures p.attached == if p.fails(old(p.clock)) then old(p.attached) else old(p.attached) - {id}
    ensures p.orphaned == old(p.orphaned) + if p.fails(old(p.clock)) then {id} else {}
  {
    hide Provider.Valid;
    var err := p.Detach(id);
    assert p.Under(evch) == if err then {id} else {};
    p.DestroyEventChannel(evch);
  }

  /** The flush object and the connection's own memory. */
  method NewOwn(p: Provider) returns (ret: int, obj: Option<Handle>, flush: Option<Flush>)
    requires p.Valid()
    modifies p`clock, p`failures, p`live
    ensures p.Valid() && p.failures >= old(p.failures) && p.clock >= old(p.clock)
    ensures ret == 0 <==> p.failures == old(p.failures)
    ensures ret in {0, E_PROVIDER, E_NOMEM}
    ensures ret == Code(p.fails, old(p.clock), OWN_CODES)
    ensures var undone := OwnUndone(p.fails, old(p.clock));
            if undone.Some? then ret != 0 && p.clock == undone.value else ret == 0 && p.clock == old(p.clock) + 7
    ensures ret != 0 ==> p.live == old(p.live)
    ensures ret == 0 ==>
              && obj.Some? && obj.value.kind == Heap && obj.value.on == {} && flush.Some? && FlushOk(flush.value)
              && obj.value !in FlushPart(flush.value)
              && Acquired(old(p.live), p.live, {obj.value} + FlushPart(flush.value))
  {
    hide Provider.Valid, Provider.Under, Holds, FlushOk, FlushUndone, Code;
    CodeJoin(p.fails, p.clock, FLUSH_CODES, [E_NOMEM]);
    CodeOne(p.fails, p.clock + 6, E_NOMEM);
    obj := None;
    ret, flush := FlushNew(p);
    if ret != 0 {
      return;
    }
    ghost var live1 := p.live;
    obj := p.Create(Heap, {});
    if obj.None? {
      var _ := FlushDelete(p, flush.value);
      ret := E_NOMEM;
    } else {
      GrownLater(old(p.live), live1, p.live, FlushPart(flush.value), obj.value);
    }
  }

  /** The flush object and the connection itself, for a CM ID already moved to its event channel. */
  method Wrap(p: Provider, base: Base, evch: Handle) returns (ret: int, conn: Option<Connection>)
    requires p.Valid() && BaseOk(base) && base.id in p.live && BasePart(base) <= p.live
    requires evch in p.live && Unneeded(p.live, evch) && evch.kind == EventChannel && evch.on == {}
    requires p.Under(evch) == {base.id}
    modifies p
    ensures p.Valid() && p.failures >= old(p.failures) && p.clock >= old(p.clock)
    ensures ret == 0 <==> p.failures == old(p.failures)
    ensures ret in {0, E_PROVIDER, E_NOMEM}
    ensures ret == Code(p.fails, old(p.clock), OWN_CODES)
    ensures var undone := OwnUndone(p.fails, old(p.clock));
            if undone.None? then ret == 0 && p.clock == old(p.clock) + 7
            else
              && ret != 0 && p.clock == undone.value + 1
              && p.attached == (if p.fails(undone.value) then old(p.attached) else old(p.attached) - {base.id})
              && p.orphaned == old(p.orphaned) + if p.fails(undone.value) then {base.id} else {}
    ensures ret != 0 ==> conn == None && p.live == old(p.live) - {evch}
    ensures ret == 0 ==>
              && conn.Some? && conn.value.base == base && conn.value.evch == evch && conn.value.data == None
              && conn.value.Ok() && evch in OwnPart(conn.value)
              && Acquired(old(p.live), p.live, OwnPart(conn.value) - {evch})
              && p.attached == old(p.attached) && p.orphaned == old(p.orphaned)
  {
    hide FlushOk, Holds, Provider.Valid, Provider.Under, Code;
    var obj, flush;
    ret, obj, flush := NewOwn(p);
    if ret != 0 {
      ErrMigrateIdNull(p, base.id, evch);
      return ret, None;
    }
    conn := Some(Connection(obj.value, base, evch, flush.value, None));
    assert OwnPart(conn.value) - {evch} == {obj.value} + FlushPart(flush.value);
  }

  /** Move the CM ID to an event channel of its own and wrap everything into a connection, or leave nothing
      acquired.  The event channel is destroyed under the CM ID exactly if it was created and moved to, a
      later call failed, and so did the attempt to move back. */
  method ConnNew(p: Provider, base: Base) returns (ret: int, conn: Option<Connection>)
    requires p.Valid() && BaseOk(base) && base.id in p.live && BasePart(base) <= p.live
    modifies p
    ensures p.Valid() && p.failures >= old(p.failures) && p.clock >= old(p.clock)
    ensures ret == 0 <==> p.failures == old(p.failures)
    ensures ret in {0, E_PROVIDER, E_NOMEM}
    ensures ret == Code(p.fails, old(p.clock), CONN_CODES)
    ensures ret == 0 <==> ConnFate(p.fails, old(p.clock)).Connected?
    ensures p.clock == ConnKnown(p.fails, old(p.clock))
    ensures ret == 0 ==> p.clock == old(p.clock) + CONN_CALLS
    ensures var fate, evch := ConnFate(p.fails, old(p.clock)), Handle(EventChannel, old(p.clock), {});
            && p.orphaned == old(p.orphaned) + OrphanPart(fate, base.id)
            && (ret != 0 ==>
                  && conn == None && p.live == old(p.live) && evch !in p.live
                  && p.attached == AttachedAfter(old(p.attached), base.id, fate, evch))
    ensures ret == 0 ==>
              && conn.Some? && conn.value.base == base && conn.value.data == None
              && conn.value.Ok() && conn.value.Alone(p) && Acquired(old(p.live), p.live, OwnPart(conn.value))
              && p.attached == old(p.attached)[base.id := conn.value.evch]
  {
    hide BasePart, OwnPart, OwnUndone, Connection.Ok, Provider.Valid, Provider.Under, Holds, Code;
    CodeJoin(p.fails, p.clock, [E_PROVIDER, E_PROVIDER], OWN_CODES);
    CodeTwo(p.fails, p.clock, E_PROVIDER, E_PROVIDER);
    var evch;
    ret, evch := OwnChannel(p, base.id);
    if ret != 0 {
      return ret, None;
    }
    ghost var live1 := p.live;
    ret, conn := Wrap(p, base, evch);
    if ret == 0 {
      Grown(old(p.live), live1, p.live, evch, OwnPart(conn.value));
    }
  }

  /** A new event channel, with the CM ID moved to it. */
  method OwnChannel(p: Provider, id: Handle) returns (ret: int, evch: Handle)
    requires p.Valid() && id in p.live && id.kind == CmId
    modifies p
    ensures p.Valid() && p.failures >= old(p.failures) && p.clock >= old(p.clock) && p.orphaned == old(p.orphaned)
    ensures ret in {0, E_PROVIDER} && (ret == 0 <==> p.failures == old(p.failures))
    ensures ret == 0 <==> !p.fails(old(p.clock)) && !p.fails(old(p.clock) + 1)
    ensures p.clock == old(p.clock) + if p.fails(old(p.clock)) then 1 else 2
    ensures evch == Handle(EventChannel, old(p.clock), {}) && evch !in old(p.live)
    ensures ret != 0 ==> p.live == old(p.live) && p.attached == old(p.attached)
    ensures ret == 0 ==>
              && p.attached == old(p.attached)[id := evch] && p.Under(evch) == {id}
              && p.live == old(p.live) + {evch} && Unneeded(p.live, evch)
  {
    hide Provider.Valid;
    NotYet(p, EventChannel, p.clock);
    ret, evch := E_PROVIDER, Handle(EventChannel, p.clock, {});
    var created := p.Create(EventChannel, {});
    if created.Some? {
      var err := p.Migrate(id, evch);
      if err {
        p.DestroyEventChannel(evch);
      } else {
        ret := 0;
      }
    }
  }

  // ---------------------------------------------------------------- from request to connection

  /** What a request holds besides its own memory. */
  ghost function Inner(req: Request): set<Handle>
  {
    QpPart(req.base) + (Rest(req) - {req.obj})
  }

  lemma InnerSplits(live: set<Handle>, req: Request)
    requires req.Ok() && Holds(live, req.Part())
    ensures BaseOk(req.base) && Holds(live, QpPart(req.base))
    ensures Rest(req) <= live - QpPart(req.base)
    ensures forall h :: h in Rest(req) ==> Unneeded(live - QpPart(req.base), h)
    ensures Inner(req) == req.Part() - {req.obj}
    ensures live - QpPart(req.base) - (Rest(req) - {req.obj}) == live - Inner(req)
  {
    RequestSplits(req);
    SplitHolds(live, req.Part(), QpPart(req.base), Rest(req));
  }

  /** How many calls the error label of accept makes. */
  function Cleanups(req: Request): nat
  {
    CqDeletes(req.base.rcq) + CqDeletes(req.base.cq) + if req.base.channel.Some? then 1 else 0
  }

  /** The error label of accept: queues, private data, channel; the CM ID is left alone. */
  method ErrPassive(p: Provider, req: Request)
    requires p.Valid() && req.Ok() && req.passive && Holds(p.live, req.Part())
    modifies p`clock, p`failures, p`live
    ensures p.Valid() && p.failures >= old(p.failures) && p.clock >= old(p.clock) && p.live == old(p.live) - Inner(req)
    ensures p.clock == old(p.clock) + Cleanups(req)
  {
    hide Holds, Inner, Request.Ok, QpPart, BaseOk, Provider.Valid, Provider.Under;
    InnerSplits(p.live, req);
    RestApart(req);
    var _ := DestroyQueues(p, req.base);
    Discard(p, req.data);
    ErrSharedChannel(p, req.base.channel);
  }

  /** The error label of an active connect: queues, CM ID, channel. */
  method ErrActive(p: Provider, req: Request)
    requires p.Valid() && req.Ok() && !req.passive && Holds(p.live, req.Part())
    modifies p`clock, p`failures, p`live, p`attached
    ensures p.Valid() && p.failures >= old(p.failures) && p.clock >= old(p.clock) && p.live == old(p.live) - Inner(req)
    ensures p.attached == old(p.attached) - {req.base.id}
  {
    hide Holds, Inner, Request.Ok, QpPart, BaseOk, Provider.Valid, Provider.Under;
    InnerSplits(p.live, req);
    RestApart(req);
    var _ := DestroyQueues(p, req.base);
    var _ := p.DestroyId(req.base.id);
    ErrSharedChannel(p, req.base.channel);
  }

  /** The connection with the request's private data owns what the request held, the CM ID, and what
      was acquired for it. */
  lemma TakesOver(live0: set<Handle>, live1: set<Handle>, req: Request, conn: Connection)
    requires req.Ok() && conn.BareOk() && conn.base == req.base && conn.data == req.data
    requires Holds(live0, req.Part() + {req.base.id}) && Acquired(live0, live1, OwnPart(conn))
    ensures conn.Ok()
    ensures conn.Part() == Inner(req) + {req.base.id} + OwnPart(conn)
    ensures Holds(live1, conn.Part())
  {
    TakesOverData(live0, req, conn);
    TakesOverPart(req, conn);
    ObjUnneeded(req);
    assert req.obj.on == {};
    Joined(live0, live1, Inner(req), req.obj, req.base.id, OwnPart(conn));
  }

  lemma TakesOverData(live: set<Handle>, req: Request, conn: Connection)
    requires req.Ok() && conn.BareOk() && conn.base == req.base && conn.data == req.data
    requires Holds(live, req.Part() + {req.base.id}) && OwnPart(conn) !! live
    ensures conn.Ok()
  {
  }

  lemma TakesOverPart(req: Request, conn: Connection)
    requires req.Ok() && conn.base == req.base && conn.data == req.data
    ensures conn.Part() == Inner(req) + {req.base.id} + OwnPart(conn)
  {
    var queues := QpPart(req.base) + ChannelPart(req.base.channel);
    assert Inner(req) + {req.base.id} == queues + DataPart(req.data) + {req.base.id};
  }

  /** Parts held and acquired make one part, in terms of the sets alone. */
  lemma Joined(live0: set<Handle>, live1: set<Handle>, inner: set<Handle>, obj: Handle, id: Handle, own: set<Handle>)
    requires Holds(live0, inner + {obj} + {id}) && Acquired(live0, live1, own) && obj.on == {}
    ensures Holds(live1, inner + {id} + own)
  {
    var part := inner + {id} + own;
    forall g, h | g in live1 && g !in part && h in g.on
      ensures h !in part
    {
      assert g != obj;
      assert g in live0;
    }
  }

  /** Build the connection of a request and hand over its private data, or leave the ledger as it was. */
  method ConnFromRequest(p: Provider, req: Request) returns (ret: int, conn: Option<Connection>)
    requires p.Valid() && req.Ok() && Holds(p.live, req.Part() + {req.base.id})
    modifies p
    ensures p.Valid() && p.failures >= old(p.failures) && p.clock >= old(p.clock)
    ensures ret == 0 <==> p.failures == old(p.failures)
    ensures ret in {0, E_PROVIDER, E_NOMEM}
    ensures ret == Code(p.fails, old(p.clock), CONN_CODES)
    ensures ret == 0 <==> ConnFate(p.fails, old(p.clock)).Connected?
    ensures p.clock == ConnKnown(p.fails, old(p.clock))
    ensures ret == 0 ==> p.clock == old(p.clock) + CONN_CALLS
    ensures var fate, evch := ConnFate(p.fails, old(p.clock)), Handle(EventChannel, old(p.clock), {});
            && p.orphaned == old(p.orphaned) + OrphanPart(fate, req.base.id)
            && (ret != 0 ==>
                  && conn == None && p.live == old(p.live) && evch !in p.live
                  && p.attached == AttachedAfter(old(p.attached), req.base.id, fate, evch))
    ensures ret == 0 ==>
              conn.Some? && TookOver(p, old(p.live), req, conn.value) && Moved(p, old(p.attached), conn.value)
  {
    hide Inner, Holds, Request.Ok, Request.Part, Connection.Part, BaseOk, BasePart;
    hide Provider.Valid, Provider.Under, ConnFate, AttachedAfter, OrphanPart, Code;
    BaseHeld(p.live, req);
    ghost var live0 := p.live;
    ret, conn := ConnNew(p, req.base);
    if ret == 0 {
      conn := Some(conn.value.(data := req.data));
      TakesOver(live0, p.live, req, conn.value);
    }
  }

  lemma BaseHeld(live: set<Handle>, req: Request)
    requires req.Ok() && Holds(live, req.Part() + {req.base.id})
    ensures BaseOk(req.base) && req.base.id in live && BasePart(req.base) <= live
  {
  }

  /** The CM ID has been moved to the connection's event channel. */
  ghost predicate Moved(p: Provider, attached0: map<Handle, Handle>, conn: Connection)
    reads p`attached
  {
    p.attached == attached0[conn.base.id := conn.evch]
  }

  /** What a failed attempt to accept or connect a request, begun at time t, leaves attached. */
  ghost predicate LeftAttached(p: Provider, attached0: map<Handle, Handle>, req: Request, t: nat)
    reads p`attached, p`live
  {
    var id, evch := req.base.id, Handle(EventChannel, t + 1, {});
    if req.passive then p.attached == AttachedAfter(attached0, id, AcceptFate(p.fails, t), evch) && evch !in p.live
    else p.attached == attached0 - {id}
  }

  /** conn is a connection made from req, which still has its own memory. */
  ghost predicate TookOver(p: Provider, live0: set<Handle>, req: Request, conn: Connection)
    reads p`attached, p`live
  {
    && conn.Ok() && conn.Alone(p) && conn.base == req.base && conn.data == req.data
    && conn.Part() == Inner(req) + {req.base.id} + OwnPart(conn)
    && Acquired(live0, p.live, OwnPart(conn)) && Holds(p.live, conn.Part())
  }

  /** Accept a passive request.  On failure everything but the request's own memory and the CM ID is
      released; on success the connection takes it all over, private data included. */
  method Accept(p: Provider, req: Request) returns (ret: int, conn: Option<Connection>)
    requires p.Valid() && req.Ok() && req.passive && Holds(p.live, req.Part() + {req.base.id})
    requires Holds(p.live, req.Part())
    modifies p
    ensures p.Valid() && p.failures >= old(p.failures) && p.clock >= old(p.clock)
    ensures ret == 0 <==> p.failures == old(p.failures)
    ensures ret in {0, E_PROVIDER, E_NOMEM}
    ensures ret == Code(p.fails, old(p.clock), ConnectCodes(true))
    ensures ret == 0 <==> AcceptFate(p.fails, old(p.clock)).Connected?
    ensures ret == 0 ==> p.clock == old(p.clock) + CONNECT_CALLS
    ensures p.clock >= AcceptKnown(p.fails, old(p.clock))
    ensures ret != 0 ==>
              p.clock == Cleanups(req) +
                if p.fails(old(p.clock)) then old(p.clock) + 1
                else ConnKnown(p.fails, old(p.clock) + 1) + 1  // the disconnection
    ensures p.orphaned == old(p.orphaned) + OrphanPart(AcceptFate(p.fails, old(p.clock)), req.base.id)
    ensures ret != 0 ==> conn == None && p.live == old(p.live) - Inner(req)
    ensures ret != 0 ==> LeftAttached(p, old(p.attached), req, old(p.clock))
    ensures ret == 0 ==>
              conn.Some? && TookOver(p, old(p.live), req, conn.value) && Moved(p, old(p.attached), conn.value)
  {
    hide Inner, Holds, Request.Ok, Request.Part, Connection.Ok, Connection.Part, OwnPart, Provider.Valid, ConnFate;
    hide Code;
    NotYet(p, EventChannel, p.clock + 1);
    CodeJoin(p.fails, p.clock, [E_PROVIDER], CONN_CODES);
    CodeOne(p.fails, p.clock, E_PROVIDER);
    var err := p.Attempt();
    if err {
      ErrPassive(p, req);
      return E_PROVIDER, None;
    }
    ret, conn := ConnFromRequest(p, req);
    if ret != 0 {
      var _ := p.Attempt();
      ErrPassive(p, req);
    }
  }

  /** Connect an active request.  On failure everything but the request's own memory is released, the
      CM ID included. */
  method ConnectActive(p: Provider, req: Request) returns (ret: int, conn: Option<Connection>)
    requires p.Valid() && req.Ok() && !req.passive && Holds(p.live, req.Part())
    modifies p
    ensures p.Valid() && p.failures >= old(p.failures) && p.clock >= old(p.clock)
    ensures ret == 0 <==> p.failures == old(p.failures)
    ensures ret in {0, E_PROVIDER, E_NOMEM}
    ensures ret == Code(p.fails, old(p.clock), ConnectCodes(false))
    ensures ret == 0 <==> Quiet(p.fails, old(p.clock), old(p.clock) + CONNECT_CALLS)
    ensures ret == 0 ==> p.clock == old(p.clock) + CONNECT_CALLS
    ensures p.clock >= ConnKnown(p.fails, old(p.clock))
    ensures p.orphaned == old(p.orphaned) + OrphanPart(ConnFate(p.fails, old(p.clock)), req.base.id)
    ensures ret != 0 ==> conn == None && p.live == old(p.live) - Inner(req)
    ensures ret != 0 ==> LeftAttached(p, old(p.attached), req, old(p.clock))
    ensures ret == 0 ==>
              conn.Some? && TookOver(p, old(p.live), req, conn.value) && Moved(p, old(p.attached), conn.value)
  {
    hide Inner, Holds, Request.Ok, Request.Part, Connection.Ok, Connection.Part, OwnPart, Provider.Valid, ConnFate;
    hide Code;
    ConnectedIffQuiet(p.fails, p.clock);
    CodeJoin(p.fails, p.clock, CONN_CODES, [E_PROVIDER]);
    CodeOne(p.fails, p.clock + CONN_CALLS, E_PROVIDER);
    ActiveOwnsId(req);
    ret, conn := ConnFromRequest(p, req);
    if ret != 0 {
      ErrActive(p, req);
      return;
    }
    var err := p.Attempt();
    if err {
      var _ := Disconnect(p, conn.value);
      Undone(old(p.live), Inner(req), req.base.id, OwnPart(conn.value));
      return E_PROVIDER, None;
    }
  }

  lemma ActiveOwnsId(req: Request)
    requires req.Ok() && !req.passive
    ensures req.base.id in Inner(req) && req.Part() + {req.base.id} == req.Part()
  {
  }

  lemma Undone(live: set<Handle>, inner: set<Handle>, id: Handle, own: set<Handle>)
    requires own !! live && id in inner
    ensures (live + own) - (inner + {id} + own) == live - inner
  {
  }

  /** After a failure only the request's own memory is left to free. */
  lemma Consumed(live0: set<Handle>, req: Request)
    requires req.Ok() && Holds(live0, req.Part())
    ensures live0 - Inner(req) - {req.obj} == live0 - req.Part()
    ensures req.obj in live0 - Inner(req) && Unneeded(live0 - Inner(req), req.obj) && req.obj.kind == Heap
  {
    RequestSplits(req);
  }

  lemma ObjUnneeded(req: Request)
    requires req.Ok()
    ensures req.Part() == Inner(req) + {req.obj} && req.obj !in Inner(req) && req.obj != req.base.id
    ensures forall g :: g in req.Part() ==> req.obj !in g.on
  {
    RequestSplits(req);
  }

  lemma OwnClosed(conn: Connection)
    requires conn.BareOk()
    ensures forall g, h :: g in OwnPart(conn) && h in g.on ==> h in OwnPart(conn)
  {
  }

  /** Replacing part = inner + {obj} by inner + {id} + own, in terms of the sets alone. */
  lemma Exchanged(live: set<Handle>, inner: set<Handle>, obj: Handle, id: Handle, own: set<Handle>)
    requires Holds(live, inner + {obj}) && id in live && obj !in inner && obj != id && own !! live
    requires forall g :: g in inner + {obj} ==> obj !in g.on
    requires forall g, h :: g in own && h in g.on ==> h in own
    requires Holds(live + own, inner + {id} + own)
    ensures Unneeded(live + own, obj) && obj in live + own
    ensures live + own - {obj} == live - (inner + {obj}) + (inner + {id} + own)
    ensures Holds(live + own - {obj}, inner + {id} + own)
    ensures (inner + {id} + own) * (live - (inner + {obj})) <= {id}
  {
  }

  /** After success only the request's own memory is left to free, and then exactly what the
      connection owns has replaced what the request held. */
  lemma Swapped(live0: set<Handle>, live1: set<Handle>, req: Request, conn: Connection)
    requires req.Ok() && conn.Ok() && Holds(live0, req.Part()) && Holds(live0, req.Part() + {req.base.id})
    requires conn.Part() == Inner(req) + {req.base.id} + OwnPart(conn)
    requires Acquired(live0, live1, OwnPart(conn)) && Holds(live1, conn.Part())
    ensures req.obj in live1 && Unneeded(live1, req.obj) && req.obj.kind == Heap
    ensures live1 - {req.obj} == live0 - req.Part() + conn.Part()
    ensures Holds(live1 - {req.obj}, conn.Part())
    ensures conn.Part() * (live0 - req.Part()) <= {req.base.id}
  {
    ObjUnneeded(req);
    OwnClosed(conn);
    Exchanged(live0, Inner(req), req.obj, req.base.id, OwnPart(conn));
  }

  method AcceptOrConnect(p: Provider, req: Request) returns (ret: int, conn: Option<Connection>)
    requires p.Valid() && req.Ok() && Holds(p.live, req.Part()) && Holds(p.live, req.Part() + {req.base.id})
    modifies p
    ensures p.Valid() && p.failures >= old(p.failures) && p.clock >= old(p.clock)
    ensures ret == 0 <==> p.failures == old(p.failures)
    ensures ret == Code(p.fails, old(p.clock), ConnectCodes(req.passive))
    ensures ret == 0 <==> Quiet(p.fails, old(p.clock), old(p.clock) + CONNECT_CALLS)
    ensures ret == 0 ==> p.clock == old(p.clock) + CONNECT_CALLS
    ensures p.clock >= ConnectKnown(p.fails, old(p.clock), req.passive)
    ensures p.orphaned == old(p.orphaned) + OrphanPart(ConnectFate(p.fails, old(p.clock), req.passive), req.base.id)
    ensures ret != 0 ==> conn == None && p.live == old(p.live) - Inner(req)
    ensures ret != 0 ==> LeftAttached(p, old(p.attached), req, old(p.clock))
    ensures ret == 0 ==>
              conn.Some? && TookOver(p, old(p.live), req, conn.value) && Moved(p, old(p.attached), conn.value)
  {
    hide Inner, Holds, Request.Ok, Request.Part, Connection.Ok, Connection.Part, OwnPart, Provider.Valid;
    hide ConnFate, AcceptFate, TookOver, Moved, LeftAttached, Code, ConnectCodes;
    ConnectedIffQuiet(p.fails, p.clock);
    if req.passive {
      ret, conn := Accept(p, req);
    } else {
      ret, conn := ConnectActive(p, req);
    }
  }

  /** conn has replaced req: what is live is what was, without the request's part and with the
      connection's; of the former only the CM ID may be in the latter. */
  ghost predicate Replaced(p: Provider, live0: set<Handle>, req: Request, conn: Connection)
    reads p`attached, p`live
  {
    && conn.Ok() && conn.Alone(p) && conn.base == req.base && conn.data == req.data
    && p.live == live0 - req.Part() + conn.Part() && Holds(p.live, conn.Part())
    && conn.Part() * (live0 - req.Part()) <= {req.base.id}
  }

  method FreeAfterSuccess(p: Provider, req: Request, conn: Connection, ghost live0: set<Handle>)
    requires p.Valid() && req.Ok() && Holds(live0, req.Part()) && Holds(live0, req.Part() + {req.base.id})
    requires TookOver(p, live0, req, conn)
    modifies p`live
    ensures p.Valid() && Replaced(p, live0, req, conn)
  {
    hide Inner, Holds, Request.Ok, Request.Part, Connection.Ok, Connection.Part, OwnPart, Provider.Valid;
    Swapped(live0, p.live, req, conn);
    p.Release(req.obj);
  }

  method FreeAfterFailure(p: Provider, req: Request, ghost live0: set<Handle>)
    requires p.Valid() && req.Ok() && Holds(live0, req.Part()) && p.live == live0 - Inner(req)
    modifies p`live
    ensures p.Valid() && p.live == live0 - req.Part() && p.live <= old(p.live)
  {
    hide Inner, Holds, Request.Ok, Request.Part, Connection.Ok, Connection.Part, OwnPart, Provider.Valid;
    Consumed(live0, req);
    p.Release(req.obj);
  }

  /** Accept or connect, and free the request's own memory. */
  method Establish(p: Provider, req: Request) returns (ret: int, conn: Option<Connection>)
    requires p.Valid() && req.Ok() && Holds(p.live, req.Part()) && Holds(p.live, req.Part() + {req.base.id})
    modifies p
    ensures p.Valid() && p.clock >= old(p.clock) && (ret == 0 <==> p.failures == old(p.failures))
    ensures ret == Code(p.fails, old(p.clock), ConnectCodes(req.passive))
    ensures ret == 0 <==> Quiet(p.fails, old(p.clock), old(p.clock) + CONNECT_CALLS)
    ensures ret == 0 ==> p.clock == old(p.clock) + CONNECT_CALLS
    ensures p.clock >= ConnectKnown(p.fails, old(p.clock), req.passive)
    ensures p.orphaned == old(p.orphaned) + OrphanPart(ConnectFate(p.fails, old(p.clock), req.passive), req.base.id)
    ensures ret != 0 ==> conn == None && p.live == old(p.live) - req.Part()
    ensures ret != 0 ==> LeftAttached(p, old(p.attached), req, old(p.clock))
    ensures ret == 0 ==>
              conn.Some? && Replaced(p, old(p.live), req, conn.value) && Moved(p, old(p.attached), conn.value)
  {
    hide Inner, Holds, Request.Ok, Request.Part, Connection.Ok, Connection.Part, Connection.Alone, OwnPart;
    hide Provider.Valid, TookOver, Replaced, ConnectFate, AcceptFate, AttachedAfter, Code, ConnectCodes;
    ret, conn := AcceptOrConnect(p, req);
    if ret == 0 {
      FreeAfterSuccess(p, req, conn.value, old(p.live));
    } else {
      FreeAfterFailure(p, req, old(p.live));
    }
  }

  /** Connect a request, either way, and consume it.  Whatever fails, nothing of the request's own stays
      acquired, no connection is returned and the caller's pointer is cleared; success leaves exactly
      what the connection owns.  In every case it is said what the CM ID is attached to. */
  method Connect(p: Provider, req: Option<Request>, argsOk: bool)
      returns (ret: int, req': Option<Request>, conn: Option<Connection>)
    requires p.Valid()
    requires req.Some? ==>
               && req.value.Ok() && Holds(p.live, req.value.Part())
               && Holds(p.live, req.value.Part() + {req.value.base.id})
    modifies p
    ensures p.Valid() && p.clock >= old(p.clock) && req' == None
    ensures req == None ==>
              ret == E_INVAL && conn == None && p.live == old(p.live)
              && p.attached == old(p.attached) && p.orphaned == old(p.orphaned)
    ensures req.Some? && !argsOk ==>
              && ret == E_INVAL && p.orphaned == old(p.orphaned)
              && p.attached == if req.value.passive then old(p.attached) else old(p.attached) - {req.value.base.id}
    ensures req.Some? && argsOk ==>
              && (ret == 0 <==> p.failures == old(p.failures))
              && ret == Code(p.fails, old(p.clock), ConnectCodes(req.value.passive))
              && (ret == 0 <==> Quiet(p.fails, old(p.clock), old(p.clock) + CONNECT_CALLS))
              && (ret == 0 ==> p.clock == old(p.clock) + CONNECT_CALLS)
              && p.clock >= ConnectKnown(p.fails, old(p.clock), req.value.passive)
              && (ret != 0 ==> LeftAttached(p, old(p.attached), req.value, old(p.clock)))
              && p.orphaned == old(p.orphaned)
                   + OrphanPart(ConnectFate(p.fails, old(p.clock), req.value.passive), req.value.base.id)
    ensures req.Some? && ret != 0 ==> conn == None && p.live == old(p.live) - req.value.Part()
    ensures ret == 0 ==>
              && req.Some? && argsOk && conn.Some?
              && Replaced(p, old(p.live), req.value, conn.value) && Moved(p, old(p.attached), conn.value)
  {
    hide Holds, Request.Ok, Request.Part, Provider.Valid, Replaced, Moved, LeftAttached, ConnectFate, OrphanPart;
    hide Code, ConnectCodes;
    req', conn := None, None;
    if req.None? {
      ret := E_INVAL;
    } else if !argsOk {
      var _ := TearDown(p, req.value);
      ret := E_INVAL;
    } else {
      ret, conn := Establish(p, req.value);
    }
  }
}
