/** Where requests come from: outgoing requests, listening endpoints, and the requests that arrive at them
    with their private data. */
module Endpoints {
  import opened Wrappers
  import opened Errors
  import opened ByteStrings
  import opened Providers
  import opened Resources
  import opened Connections

  // ---------------------------------------------------------------- outgoing requests

  /** The CM ID with its address and route resolved. */
  method ResolvedId(p: Provider) returns (ret: int, id: Option<Handle>)
    requires p.Valid()
    modifies p`clock, p`failures, p`live, p`attached
    ensures p.Valid() && p.failures >= old(p.failures) && p.clock >= old(p.clock) && p.attached == old(p.attached)
    ensures ret in {0, E_PROVIDER} && (ret == 0 <==> p.failures == old(p.failures))
    ensures ret == Code(p.fails, old(p.clock), [E_PROVIDER, E_PROVIDER, E_PROVIDER])
    ensures ret == 0 <==> Quiet(p.fails, old(p.clock), old(p.clock) + 3)
    ensures ret == 0 ==> p.clock == old(p.clock) + 3
    ensures ret != 0 ==> p.live == old(p.live)
    ensures ret == 0 ==>
              && id.Some? && id.value.kind == CmId && id.value.on == {}
              && id.value !in old(p.live) && id.value !in p.attached
              && p.live == old(p.live) + {id.value} && Unneeded(p.live, id.value)
  {
    hide Provider.Valid, Provider.Under, Code;
    CodeThree(p.fails, p.clock, E_PROVIDER, E_PROVIDER, E_PROVIDER);
    id := p.Create(CmId, {});
    if id.None? {
      return E_PROVIDER, None;
    }
    var err := p.Attempt();
    if !err {
      err := p.Attempt();
    }
    if err {
      var _ := p.DestroyId(id.value);
      return E_PROVIDER, None;
    }
    ret := 0;
  }

  /** The request has a shared channel and a receive queue exactly if it was asked for. */
  predicate Configured(cfg: Cfg, req: Request)
  {
    req.base.channel.Some? == cfg.shared && req.base.rcq.Some? == (cfg.rcqe != 0)
  }

  /** A request that was made where there was none. */
  ghost predicate NewRequest(p: Provider, live0: set<Handle>, cfg: Cfg, req: Request)
    reads p`live, p`attached
  {
    && Configured(cfg, req)
    && req.Ok() && !req.passive && Acquired(live0, p.live, req.Part()) && req.base.id !in p.attached
  }

  /** The request over a resolved CM ID, which is destroyed if the request cannot be made. */
  method RequestOverId(p: Provider, cfg: Cfg) returns (ret: int, req: Option<Request>)
    requires p.Valid()
    modifies p`clock, p`failures, p`live, p`attached
    ensures p.Valid() && p.failures >= old(p.failures) && p.clock >= old(p.clock) && p.attached == old(p.attached)
    ensures ret == 0 <==> p.failures == old(p.failures)
    ensures ret == Code(p.fails, old(p.clock), [E_PROVIDER, E_PROVIDER, E_PROVIDER] + FromIdCodes(cfg))
    ensures ret == 0 <==> Quiet(p.fails, old(p.clock), old(p.clock) + 3 + FromIdCalls(cfg))
    ensures ret == 0 ==> p.clock == old(p.clock) + 3 + FromIdCalls(cfg)
    ensures ret != 0 ==> req == None && p.live == old(p.live)
    ensures ret == 0 ==> req.Some? && NewRequest(p, old(p.live), cfg, req.value)
  {
    hide Provider.Valid, Provider.Under, Request.Ok, FromIdCalls, FromIdCodes, Code;
    CodeJoin(p.fails, p.clock, [E_PROVIDER, E_PROVIDER, E_PROVIDER], FromIdCodes(cfg));
    req := None;
    var id;
    ret, id := ResolvedId(p);
    if ret == 0 {
      ret, req := FromId(p, id.value, cfg);
      if ret != 0 {
        var _ := p.DestroyId(id.value);
      }
    }
  }

  /** What the calls of an outgoing request answer for: the address, its memory; the CM ID, the address and the
      route resolved; and the rest. */
  function RequestCodes(cfg: Cfg): seq<int>
  {
    [E_PROVIDER, E_NOMEM] + ([E_PROVIDER, E_PROVIDER, E_PROVIDER] + FromIdCodes(cfg))
  }

  /** A new outgoing request, or nothing at all. */
  method RequestNew(p: Provider, argsOk: bool, cfg: Cfg) returns (ret: int, req: Option<Request>)
    requires p.Valid()
    modifies p`clock, p`failures, p`live, p`attached
    ensures p.Valid() && p.attached == old(p.attached)
    ensures !argsOk ==> ret == E_INVAL
    ensures argsOk ==> (ret == 0 <==> p.failures == old(p.failures))
    ensures argsOk ==> ret == Code(p.fails, old(p.clock), RequestCodes(cfg))
    ensures argsOk ==> (ret == 0 <==> Quiet(p.fails, old(p.clock), old(p.clock) + 5 + FromIdCalls(cfg)))
    ensures ret == 0 ==> p.clock == old(p.clock) + 5 + FromIdCalls(cfg)
    ensures ret != 0 ==> req == None && p.live == old(p.live)
    ensures ret == 0 ==> req.Some? && NewRequest(p, old(p.live), cfg, req.value)
  {
    hide Holds, Request.Ok, Request.Part, Provider.Valid, FromIdCalls, FromIdCodes, Code;
    if !argsOk {
      return E_INVAL, None;
    }
    CodeJoin(p.fails, p.clock, [E_PROVIDER, E_NOMEM], [E_PROVIDER, E_PROVIDER, E_PROVIDER] + FromIdCodes(cfg));
    var info;
    ret, info := InfoNew(p);
    if ret != 0 {
      return ret, None;
    }
    ret, req := RequestOverId(p, cfg);
    if ret == 0 {
      ActiveClosed(req.value);
      Around(old(p.live), {info.value.obj, info.value.rai}, req.value.Part());
    }
    InfoDelete(p, info.value);
  }

  /** An active request needs nothing but its own. */
  lemma ActiveClosed(req: Request)
    requires req.Ok() && !req.passive
    ensures forall g, h :: g in req.Part() && h in g.on ==> h in req.Part()
  {
  }

  /** Two parts acquired one after the other can be released in either order. */
  lemma Around(live: set<Handle>, first: set<Handle>, second: set<Handle>)
    requires Acquired(live, live + first, first) && Acquired(live + first, live + first + second, second)
    requires forall g, h :: g in second && h in g.on ==> h in second
    ensures Holds(live + first + second, first)
    ensures Acquired(live, live + first + second - first, second)
  {
  }

  // ---------------------------------------------------------------- incoming requests

  /** A connection-management event: its own handle, the CM ID it is about, and its private data. */
  datatype Event = Event(handle: Handle, id: Handle, request: bool, bytes: Bytes)

  /** How many calls it takes to copy private data. */
  function CopyCalls(bytes: Bytes): nat
  {
    if bytes == [] then 0 else 1
  }

  function CopyCodes(bytes: Bytes): (codes: seq<int>)
    ensures |codes| == CopyCalls(bytes) && Negative(codes)
  {
    if bytes == [] then [] else [E_NOMEM]
  }

  /** Copy an event's private data, if any, before the event is acknowledged. */
  method StorePrivateData(p: Provider, e: Event) returns (ret: int, data: Option<Data>)
    requires p.Valid() && e.handle in p.live
    modifies p`clock, p`failures, p`live
    ensures p.Valid() && p.failures >= old(p.failures) && p.clock >= old(p.clock)
    ensures ret in {0, E_NOMEM} && (ret == 0 <==> p.failures == old(p.failures))
    ensures p.clock == old(p.clock) + CopyCalls(e.bytes)
    ensures ret == 0 <==> e.bytes == [] || !p.fails(old(p.clock))
    ensures ret == Code(p.fails, old(p.clock), CopyCodes(e.bytes))
    ensures ret != 0 ==> data == None
    ensures ret == 0 ==> data.Some? == (e.bytes != [])
    ensures data.Some? ==> data.value == Data(Handle(Heap, old(p.clock), {}), e.bytes)
    ensures Acquired(old(p.live), p.live, DataPart(data))
  {
    hide Provider.Valid;
    CodeOne(p.fails, p.clock, E_NOMEM);
    if e.bytes == [] {
      return 0, None;
    }
    var ptr := p.Create(Heap, {});
    if ptr.None? {
      return E_NOMEM, None;
    }
    return 0, Some(Data(ptr.value, e.bytes));
  }

  /** Making the request succeeds and only the copy of the private data fails. */
  ghost predicate CopyFails(fails: nat -> bool, t: nat, cfg: Cfg, bytes: Bytes)
  {
    bytes != [] && Quiet(fails, t, t + FromIdCalls(cfg)) && fails(t + FromIdCalls(cfg))
  }

  /** A passive request out of a connection-request event.  If only the copy of the private data
      fails, the request is torn down as an active one, and the event's CM ID goes with it, although the
      event is still to be acknowledged; in no other case does the CM ID go. */
  method FromCmEvent(p: Provider, e: Event, cfg: Cfg) returns (ret: int, req: Option<Request>)
    requires p.Valid() && e.handle in p.live && e.handle.kind == CmEvent
    requires e.request ==> e.id in p.live && e.id.kind == CmId && e.id.on == {} && Unneeded(p.live, e.id)
    modifies p`clock, p`failures, p`live, p`attached
    ensures p.Valid() && p.failures >= old(p.failures) && p.clock >= old(p.clock)
    ensures !e.request ==> ret == E_INVAL && p.live == old(p.live) && p.attached == old(p.attached)
    ensures e.request ==> (ret == 0 <==> p.failures == old(p.failures))
    ensures e.request ==> ret == Code(p.fails, old(p.clock), FromIdCodes(cfg) + CopyCodes(e.bytes))
    ensures var n := FromIdCalls(cfg) + CopyCalls(e.bytes);
            && (ret == 0 <==> e.request && Quiet(p.fails, old(p.clock), old(p.clock) + n))
            && (ret == 0 ==> p.clock == old(p.clock) + n)
    ensures ret != 0 ==> req == None
    ensures e.request && CopyFails(p.fails, old(p.clock), cfg, e.bytes) ==>
              && ret == E_NOMEM && p.live == old(p.live) - {e.id} && p.attached == old(p.attached) - {e.id}
    ensures e.handle in p.live
    ensures e.request ==> (e.id !in p.live <==> CopyFails(p.fails, old(p.clock), cfg, e.bytes))
    ensures e.request && ret != 0 ==> !Quiet(p.fails, old(p.clock), p.clock)
    ensures e.request && CopyFails(p.fails, old(p.clock), cfg, e.bytes) ==>
              p.clock > old(p.clock) + FromIdCalls(cfg)
    ensures ret != 0 && !(e.request && CopyFails(p.fails, old(p.clock), cfg, e.bytes)) ==>
              p.live == old(p.live) && p.attached == old(p.attached)
    ensures ret == 0 ==>
              && req.Some? && req.value.Ok() && req.value.passive && req.value.base.id == e.id
              && Configured(cfg, req.value)
              && Copied(req.value.data, e.bytes) && p.attached == old(p.attached)
              && Acquired(old(p.live), p.live, req.value.Part()) && Holds(p.live, req.value.Part() + {e.id})
  {
    hide Holds, Request.Ok, Request.Part, Provider.Valid, FromIdCalls, FromIdCodes, CopyCodes, Code;
    req := None;
    if !e.request {
      return E_INVAL, None;
    }
    CodeJoin(p.fails, p.clock, FromIdCodes(cfg), CopyCodes(e.bytes));
    var r;
    ret, r := FromId(p, e.id, cfg);
    if ret != 0 {
      return;
    }
    ghost var live1 := p.live;
    var data;
    ret, data := StorePrivateData(p, e);
    if ret != 0 {
      assert p.live == live1;
      var _ := TearDown(p, r.value);
      ActivePart(old(p.live), r.value);
      return;
    }
    req := Some(r.value.(data := data, passive := true));
    BecomesPassive(old(p.live), p.live, r.value, data);
  }

  /** The copy holds the bytes of the event, if it had any. */
  predicate Copied(data: Option<Data>, bytes: Bytes)
  {
    if bytes == [] then data == None else data.Some? && data.value.bytes == bytes
  }

  lemma ActivePart(live: set<Handle>, req: Request)
    requires !req.passive && req.base.id in live && req.Part() !! (live - {req.base.id})
    ensures (live + req.Part()) - req.Part() == live - {req.base.id}
  {
  }

  lemma BecomesPassive(live0: set<Handle>, live1: set<Handle>, req: Request, data: Option<Data>)
    requires req.Ok() && !req.passive && req.base.id in live0 && Unneeded(live0, req.base.id)
    requires req.Part() !! (live0 - {req.base.id})
    requires Holds(live0 + req.Part(), req.Part())
    requires Acquired(live0 + req.Part(), live1, DataPart(data))
    requires data.Some? ==> data.value.ptr.kind == Heap && data.value.ptr.on == {}
    ensures var r := req.(data := data, passive := true);
            r.Ok() && Acquired(live0, live1, r.Part()) && Holds(live1, r.Part() + {req.base.id})
  {
    var r := req.(data := data, passive := true);
    assert r.Part() + {req.base.id} == req.Part() + DataPart(data);
  }

  // ---------------------------------------------------------------- endpoints

  datatype Endpoint = Endpoint(obj: Handle, id: Handle, evch: Handle) {
    ghost function Part(): set<Handle>
    {
      {obj, id, evch}
    }

    ghost predicate Ok()
    {
      obj.kind == Heap && id.kind == CmId && evch.kind == EventChannel && obj.on == id.on == evch.on == {}
    }
  }

  /** The label that destroys the CM ID and then its event channel. */
  method ErrListenId(p: Provider, id: Handle, evch: Handle)
    requires p.Valid() && Holds(p.live, {id, evch})
    requires id.kind == CmId && evch.kind == EventChannel && id.on == evch.on == {}
    requires p.Under(evch) <= {id}
    modifies p`clock, p`failures, p`live, p`attached, p`orphaned
    ensures p.Valid() && p.failures >= old(p.failures) && p.clock >= old(p.clock) && p.live == old(p.live) - {id, evch}
    ensures p.attached == old(p.attached) - {id} && p.orphaned == old(p.orphaned)
  {
    hide Provider.Valid;
    var _ := p.DestroyId(id);
    assert p.Under(evch) == {};
    p.DestroyEventChannel(evch);
  }

  /** Bind and listen with a resolved address, and allocate the endpoint; the address goes either way. */
  method ListenOn(p: Provider) returns (ret: int, obj: Option<Handle>)
    requires p.Valid()
    modifies p`clock, p`failures, p`live
    ensures p.Valid() && p.failures >= old(p.failures) && p.clock >= old(p.clock)
    ensures ret == 0 <==> p.failures == old(p.failures)
    ensures ret == Code(p.fails, old(p.clock), [E_PROVIDER, E_NOMEM] + [E_PROVIDER, E_PROVIDER, E_NOMEM])
    ensures ret == 0 <==> Quiet(p.fails, old(p.clock), old(p.clock) + 5)
    ensures ret == 0 ==> p.clock == old(p.clock) + 5
    ensures ret != 0 ==> p.live == old(p.live)
    ensures ret == 0 ==> obj.Some? && obj.value.kind == Heap && obj.value.on == {}
                         && Acquired(old(p.live), p.live, {obj.value})
  {
    hide Provider.Valid, Provider.Under, Code;
    CodeJoin(p.fails, p.clock, [E_PROVIDER, E_NOMEM], [E_PROVIDER, E_PROVIDER, E_NOMEM]);
    CodeThree(p.fails, p.clock + 2, E_PROVIDER, E_PROVIDER, E_NOMEM);
    obj := None;
    var info;
    ret, info := InfoNew(p);
    if ret != 0 {
      return;
    }
    var err := p.Attempt();
    if !err {
      err := p.Attempt();
    }
    if err {
      ret := E_PROVIDER;
    } else {
      obj := p.Create(Heap, {});
      if obj.None? {
        ret := E_NOMEM;
      }
    }
    InfoDelete(p, info.value);
  }

  /** How many calls it takes to listen. */
  const LISTEN_CALLS := 7

  /** What they answer for: the event channel, the CM ID; the address, its memory; binding, listening, the
      endpoint's memory. */
  const LISTEN_CODES := [E_PROVIDER, E_PROVIDER, E_PROVIDER, E_NOMEM, E_PROVIDER, E_PROVIDER, E_NOMEM]

  /** A new event channel with a new CM ID on it. */
  method NewListener(p: Provider) returns (ret: int, id: Handle, evch: Handle)
    requires p.Valid()
    modifies p`clock, p`failures, p`live, p`attached, p`orphaned
    ensures p.Valid() && p.failures >= old(p.failures) && p.clock >= old(p.clock) && p.orphaned == old(p.orphaned)
    ensures ret in {0, E_PROVIDER} && (ret == 0 <==> p.failures == old(p.failures))
    ensures ret == Code(p.fails, old(p.clock), [E_PROVIDER, E_PROVIDER])
    ensures ret == 0 <==> Quiet(p.fails, old(p.clock), old(p.clock) + 2)
    ensures ret == 0 ==> p.clock == old(p.clock) + 2
    ensures ret != 0 ==> p.live == old(p.live) && p.attached == old(p.attached)
    ensures ret == 0 ==>
              && id.kind == CmId && evch.kind == EventChannel && id.on == evch.on == {}
              && Acquired(old(p.live), p.live, {id, evch})
              && id !in old(p.attached) && p.attached == old(p.attached)[id := evch] && p.Under(evch) == {id}
  {
    hide Provider.Valid, Code;
    CodeTwo(p.fails, p.clock, E_PROVIDER, E_PROVIDER);
    ret, id, evch := E_PROVIDER, Handle(CmId, p.clock + 1, {}), Handle(EventChannel, p.clock, {});
    var created := p.Create(EventChannel, {});
    if created.Some? {
      NotYet(p, CmId, p.clock);
      var created' := p.CreateId(evch);
      if created'.None? {
        p.DestroyEventChannel(evch);
      } else {
        ret := 0;
      }
    }
  }

  /** A listening endpoint with only its own CM ID attached to its event channel, or nothing at all. */
  method Listen(p: Provider, argsOk: bool) returns (ret: int, ep: Option<Endpoint>)
    requires p.Valid()
    modifies p`clock, p`failures, p`live, p`attached, p`orphaned
    ensures p.Valid() && p.orphaned == old(p.orphaned)
    ensures !argsOk ==> ret == E_INVAL
    ensures argsOk ==> (ret == 0 <==> p.failures == old(p.failures))
    ensures argsOk ==> ret == Code(p.fails, old(p.clock), LISTEN_CODES)
    ensures argsOk ==> (ret == 0 <==> Quiet(p.fails, old(p.clock), old(p.clock) + LISTEN_CALLS))
    ensures ret == 0 ==> p.clock == old(p.clock) + LISTEN_CALLS
    ensures ret != 0 ==> ep == None && p.live == old(p.live) && p.attached == old(p.attached)
    ensures ret == 0 ==>
              && ep.Some? && ep.value.Ok() && Acquired(old(p.live), p.live, ep.value.Part())
              && p.attached == old(p.attached)[ep.value.id := ep.value.evch] && ep.value.id !in old(p.attached)
              && p.Under(ep.value.evch) == {ep.value.id}
  {
    hide Provider.Valid, Provider.Under, Code;
    if !argsOk {
      return E_INVAL, None;
    }
    var later := [E_PROVIDER, E_NOMEM] + [E_PROVIDER, E_PROVIDER, E_NOMEM];
    assert LISTEN_CODES == [E_PROVIDER, E_PROVIDER] + later;
    CodeJoin(p.fails, p.clock, [E_PROVIDER, E_PROVIDER], later);
    var id, evch;
    ret, id, evch := NewListener(p);
    if ret != 0 {
      return ret, None;
    }
    var obj;
    ret, obj := ListenOn(p);
    if ret != 0 {
      ErrListenId(p, id, evch);
      return ret, None;
    }
    ep := Some(Endpoint(obj.value, id, evch));
  }

  /** Shut an endpoint down: its CM ID, its event channel, its memory.  Whatever else is still attached to
      the event channel loses it. */
  method Shutdown(p: Provider, given: bool, ep: Option<Endpoint>) returns (ret: int, ep': Option<Endpoint>)
    requires p.Valid()
    requires given && ep.Some? ==> ep.value.Ok() && Holds(p.live, ep.value.Part())
    modifies p`clock, p`failures, p`live, p`attached, p`orphaned
    ensures p.Valid()
    ensures !given ==> ret == E_INVAL && ep' == ep
    ensures given ==> ep' == None && ret in {0, E_PROVIDER} && (ret == 0 <==> p.failures == old(p.failures))
    ensures !given || ep == None ==>
              p.live == old(p.live) && p.attached == old(p.attached) && p.orphaned == old(p.orphaned)
    ensures given && ep.Some? ==>
              && p.live == old(p.live) - ep.value.Part() && p.attached == old(p.attached) - {ep.value.id}
              && p.orphaned == old(p.orphaned) + (old(p.Under(ep.value.evch)) - {ep.value.id})
  {
    hide Provider.Valid;
    if !given {
      return E_INVAL, ep;
    }
    ep', ret := None, 0;
    if ep.None? {
      return;
    }
    var err := p.DestroyId(ep.value.id);
    if err {
      ret := E_PROVIDER;
    }
    assert p.Under(ep.value.evch) == old(p.Under(ep.value.evch)) - {ep.value.id};
    p.DestroyEventChannel(ep.value.evch);
    p.Release(ep.value.obj);
  }

  /** How many calls it takes to get the next request: the event, the request, the copy, the
      acknowledgement. */
  function NextCalls(cfg: Cfg, bytes: Bytes): nat
  {
    FromIdCalls(cfg) + CopyCalls(bytes) + 2
  }

  /** What they answer for. */
  function NextCodes(cfg: Cfg, bytes: Bytes, noEvent: bool): seq<int>
  {
    [if noEvent then E_NO_EVENT else E_PROVIDER] + ((FromIdCodes(cfg) + CopyCodes(bytes)) + [E_PROVIDER])
  }

  lemma NextCode(fails: nat -> bool, t: nat, cfg: Cfg, bytes: Bytes, noEvent: bool)
    ensures var made := Code(fails, t + 1, FromIdCodes(cfg) + CopyCodes(bytes));
            Code(fails, t, NextCodes(cfg, bytes, noEvent)) ==
              if fails(t) then if noEvent then E_NO_EVENT else E_PROVIDER
              else if made != 0 then made
              else if fails(t + 1 + FromIdCalls(cfg) + CopyCalls(bytes)) then E_PROVIDER
              else 0
  {
    hide Code, FromIdCodes, CopyCodes, FromIdCalls, CopyCalls;
    var first, made := if noEvent then E_NO_EVENT else E_PROVIDER, FromIdCodes(cfg) + CopyCodes(bytes);
    CodeOne(fails, t, first);
    CodeJoin(fails, t, [first], made + [E_PROVIDER]);
    CodeJoin(fails, t + 1, made, [E_PROVIDER]);
    CodeOne(fails, t + 1 + |made|, E_PROVIDER);
  }

  /** The next connection request.  The event is acknowledged exactly once on every path, whatever its
      private data was needed for having been copied before.  On failure nothing of the request stays
      acquired; the CM ID that came with it stays, and stays attached to the endpoint's event channel,
      unless the copy failed. */
  method NextConnReq(p: Provider, ep: Endpoint, cfg: Cfg, request: bool, bytes: Bytes, noEvent: bool)
      returns (ret: int, req: Option<Request>, ghost id: Handle)
    requires p.Valid() && ep.evch in p.live
    modifies p`clock, p`failures, p`live, p`attached
    ensures p.Valid() && id == Handle(CmId, old(p.clock), {}) && id !in old(p.live)
    ensures ret == 0 <==> request && Quiet(p.fails, old(p.clock), old(p.clock) + NextCalls(cfg, bytes))
    ensures ret == 0 ==> p.clock == old(p.clock) + NextCalls(cfg, bytes)
    ensures request ==> ret == Code(p.fails, old(p.clock), NextCodes(cfg, bytes, noEvent))
    ensures !request ==> ret == if !p.fails(old(p.clock)) then E_INVAL else if noEvent then E_NO_EVENT else E_PROVIDER
    ensures p.clock > old(p.clock) && (request && ret != 0 ==> !Quiet(p.fails, old(p.clock), p.clock))
    ensures request && !p.fails(old(p.clock)) && CopyFails(p.fails, old(p.clock) + 1, cfg, bytes) ==>
              p.clock > old(p.clock) + 1 + FromIdCalls(cfg)
    ensures ret != 0 ==>
              var gone := p.fails(old(p.clock)) || !request || CopyFails(p.fails, old(p.clock) + 1, cfg, bytes);
              && req == None
              && p.live == (if gone then old(p.live) else old(p.live) + {id})
              && p.attached == (if gone then old(p.attached) else old(p.attached)[id := ep.evch])
    ensures ret == 0 ==>
              && req.Some? && req.value.Ok() && req.value.passive && req.value.base.id == id
              && Configured(cfg, req.value)
              && Copied(req.value.data, bytes) && p.attached == old(p.attached)[id := ep.evch]
              && Acquired(old(p.live) + {id}, p.live, req.value.Part())
              && Holds(p.live, req.value.Part()) && Holds(p.live, req.value.Part() + {id})
  {
    hide Holds, Request.Ok, Request.Part, FromIdCalls, FromIdCodes, CopyCodes, NextCodes, Code, Provider.Valid;
    hide Configured, Copied, RequestDeletes, CopyFails;
    NextCode(p.fails, p.clock, cfg, bytes, noEvent);
    NotYet(p, CmId, p.clock);
    id := Handle(CmId, p.clock, {});
    var ev, i := p.GetCmEvent(ep.evch, request);
    if ev.None? {
      return if noEvent then E_NO_EVENT else E_PROVIDER, None, id;
    }
    var e := Event(ev.value, i, request, bytes);
    ghost var live1 := old(p.live) + {i};
    assert request ==> p.live == live1 + {e.handle};
    ret, req := FromCmEvent(p, e, cfg);
    if ret == 0 {
      EventAside(live1, e.handle, req.value, i);
    }
    var err := p.Destroy(e.handle);
    if ret == 0 && err {
      var _ := TearDown(p, req.value);
      return E_PROVIDER, None, id;
    }
  }

  /** The event and the request do not need each other. */
  lemma EventAside(live: set<Handle>, event: Handle, req: Request, id: Handle)
    requires req.Ok() && req.passive && req.base.id == id && id in live
    requires event !in live && event.kind == CmEvent && event.on == {}
    requires Unneeded(live + {event}, event)
    requires Acquired(live + {event}, live + {event} + req.Part(), req.Part())
    requires Holds(live + {event} + req.Part(), req.Part() + {id})
    ensures Unneeded(live + {event} + req.Part(), event)
    ensures live + {event} + req.Part() - {event} == live + req.Part()
    ensures Acquired(live, live + req.Part(), req.Part()) && Holds(live + req.Part(), req.Part() + {id})
    ensures live + req.Part() - req.Part() == live
  {
  }
}
