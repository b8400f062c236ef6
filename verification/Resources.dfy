/** Completion queues, flush objects and address caches: acquired step by step, released on failure. */
module Resources {
  import opened Wrappers
  import opened Errors
  import opened Providers

  // ---------------------------------------------------------------- completion queues

  datatype Cq = Cq(obj: Handle, cq: Handle, channel: Handle, shared: bool)

  ghost function CqPart(c: Option<Cq>): set<Handle>
  {
    if c.None? then {}
    else if c.value.shared then {c.value.cq, c.value.obj}
    else {c.value.channel, c.value.cq, c.value.obj}
  }

  predicate CqOk(c: Option<Cq>)
  {
    c.Some? ==>
      && c.value.obj.kind == Heap && c.value.obj.on == {}
      && c.value.cq.kind == CompQueue && c.value.cq.on == {c.value.channel}
      && c.value.channel.kind == CompChannel && c.value.channel.on == {}
  }

  /** What the calls that make a completion queue answer for when they fail: the channel, the queue, its
      arming, the memory. */
  function CqCodes(shared: bool): (codes: seq<int>)
    ensures |codes| == CqCalls(shared) && Negative(codes)
  {
    (if shared then [] else [E_PROVIDER]) + [E_PROVIDER, E_PROVIDER, E_NOMEM]
  }

  /** How many calls it takes to make a completion queue. */
  function CqCalls(shared: bool): nat
  {
    if shared then 3 else 4
  }

  /** A completion queue, on the given shared channel or on one of its own. */
  method CqNew(p: Provider, shared: Option<Handle>) returns (ret: int, cq: Option<Cq>)
    requires p.Valid()
    requires shared.Some? ==> shared.value in p.live && shared.value.kind == CompChannel && shared.value.on == {}
    modifies p`clock, p`failures, p`live
    ensures p.Valid() && p.failures >= old(p.failures) && p.clock >= old(p.clock)
    ensures ret == 0 <==> p.failures == old(p.failures)
    ensures ret == Code(p.fails, old(p.clock), CqCodes(shared.Some?))
    ensures ret == 0 <==> Quiet(p.fails, old(p.clock), old(p.clock) + CqCalls(shared.Some?))
    ensures ret != 0 ==> !Quiet(p.fails, old(p.clock), p.clock)
    ensures ret == 0 ==> p.clock == old(p.clock) + CqCalls(shared.Some?)
    ensures ret in {0, E_PROVIDER, E_NOMEM}
    ensures ret != 0 ==> cq.None? && p.live == old(p.live)
    ensures ret == 0 ==>
              && cq.Some? && CqOk(cq)
              && cq.value.shared == shared.Some? && (shared.Some? ==> cq.value.channel == shared.value)
              && Acquired(old(p.live), p.live, CqPart(cq))
  {
    hide Provider.Valid, Provider.Under, Holds, Code;
    var onChannel := [E_PROVIDER, E_PROVIDER, E_NOMEM];
    if shared.Some? {
      assert [] + onChannel == onChannel;
      ret, cq := CqOn(p, shared, shared.value);
      return;
    }
    CodeJoin(p.fails, p.clock, [E_PROVIDER], onChannel);
    CodeOne(p.fails, p.clock, E_PROVIDER);
    var channel := p.Create(CompChannel, {});
    if channel.None? {
      return E_PROVIDER, None;
    }
    ghost var live1 := p.live;
    ret, cq := CqOn(p, None, channel.value);
    if ret == 0 {
      Grown(old(p.live), live1, p.live, channel.value, CqPart(cq));
    }
  }

  /** The completion queue on its channel; a channel of its own goes if the queue cannot be had. */
  method CqOn(p: Provider, shared: Option<Handle>, channel: Handle) returns (ret: int, cq: Option<Cq>)
    requires p.Valid() && channel in p.live && channel.kind == CompChannel && channel.on == {}
    requires if shared.Some? then shared.value == channel else Unneeded(p.live, channel)
    modifies p`clock, p`failures, p`live
    ensures p.Valid() && p.failures >= old(p.failures) && p.clock >= old(p.clock)
    ensures ret == 0 <==> p.failures == old(p.failures)
    ensures ret == Code(p.fails, old(p.clock), [E_PROVIDER, E_PROVIDER, E_NOMEM])
    ensures ret == 0 <==> Quiet(p.fails, old(p.clock), old(p.clock) + 3)
    ensures ret != 0 ==> !Quiet(p.fails, old(p.clock), p.clock)
    ensures ret == 0 ==> p.clock == old(p.clock) + 3
    ensures ret in {0, E_PROVIDER, E_NOMEM}
    ensures ret != 0 ==> cq.None? && p.live == old(p.live) - if shared.Some? then {} else {channel}
    ensures ret == 0 ==>
              && cq.Some? && CqOk(cq) && cq.value.shared == shared.Some? && cq.value.channel == channel
              && CqPart(cq) - {channel} == {cq.value.cq, cq.value.obj}
              && Acquired(old(p.live), p.live, {cq.value.cq, cq.value.obj})
  {
    hide Provider.Valid, Provider.Under, Code;
    CodeThree(p.fails, p.clock, E_PROVIDER, E_PROVIDER, E_NOMEM);
    cq := None;
    var q := p.Create(CompQueue, {channel});
    if q.None? {
      ErrDestroyCompChannel(p, shared, channel);
      return E_PROVIDER, None;
    }
    var err := p.Attempt();
    if err {
      ErrDestroyCq(p, shared, channel, q.value);
      return E_PROVIDER, None;
    }
    var obj := p.Create(Heap, {});
    if obj.None? {
      ErrDestroyCq(p, shared, channel, q.value);
      return E_NOMEM, None;
    }
    ret, cq := 0, Some(Cq(obj.value, q.value, channel, shared.Some?));
  }

  method ErrDestroyCq(p: Provider, shared: Option<Handle>, channel: Handle, q: Handle)
    requires p.Valid() && channel in p.live && channel.kind == CompChannel
    requires q in p.live && Unneeded(p.live, q) && q.kind == CompQueue
    requires shared.None? ==> Unneeded(p.live - {q}, channel)
    modifies p`clock, p`failures, p`live
    ensures p.Valid() && p.failures >= old(p.failures) && p.clock >= old(p.clock)
    ensures p.live == old(p.live) - {q} - if shared.Some? then {} else {channel}
  {
    hide Provider.Valid, Provider.Under;
    var _ := p.Destroy(q);
    ErrDestroyCompChannel(p, shared, channel);
  }

  method ErrDestroyCompChannel(p: Provider, shared: Option<Handle>, channel: Handle)
    requires p.Valid() && channel in p.live && channel.kind == CompChannel
    requires shared.None? ==> Unneeded(p.live, channel)
    modifies p`clock, p`failures, p`live
    ensures p.Valid() && p.failures >= old(p.failures) && p.clock >= old(p.clock)
    ensures p.live == if shared.Some? then old(p.live) else old(p.live) - {channel}
  {
    hide Provider.Valid, Provider.Under;
    if shared.None? {
      var _ := p.Destroy(channel);
    }
  }

  /** How many calls it takes to delete a completion queue. */
  function CqDeletes(cq: Option<Cq>): nat
  {
    if cq.None? then 0 else if cq.value.shared then 1 else 2
  }

  /** Release a completion queue, if there is one, and its own channel. */
  method CqDelete(p: Provider, cq: Option<Cq>) returns (ret: int)
    requires p.Valid() && CqOk(cq) && Holds(p.live, CqPart(cq))
    modifies p`clock, p`failures, p`live
    ensures p.Valid() && p.failures >= old(p.failures) && p.clock >= old(p.clock)
    ensures p.live == old(p.live) - CqPart(cq)
    ensures p.clock == old(p.clock) + CqDeletes(cq)
    ensures ret == if Quiet(p.fails, old(p.clock), p.clock) then 0 else E_PROVIDER
    ensures ret in {0, E_PROVIDER} && (ret == 0 <==> p.failures == old(p.failures))
  {
    hide Provider.Valid, Provider.Under;
    ret := 0;
    if cq.None? {
      return;
    }
    var err := p.Destroy(cq.value.cq);
    if err {
      ret := E_PROVIDER;
    }
    if !cq.value.shared {
      err := p.Destroy(cq.value.channel);
      if ret == 0 && err {
        ret := E_PROVIDER;
      }
    }
    p.Release(cq.value.obj);
  }

  // ---------------------------------------------------------------- memory regions

  /** A registered memory region: the library's object and the provider's. */
  datatype Mr = Mr(obj: Handle, mr: Handle)

  predicate MrOk(m: Mr, raw: Handle)
  {
    m.obj.kind == Heap && m.obj.on == {} && m.mr.kind == MemoryRegion && m.mr.on == {raw}
  }

  method MrReg(p: Provider, raw: Handle) returns (ret: int, m: Option<Mr>)
    requires p.Valid() && raw in p.live
    modifies p`clock, p`failures, p`live
    ensures p.Valid() && p.failures >= old(p.failures) && p.clock >= old(p.clock)
    ensures ret == 0 <==> p.failures == old(p.failures)
    ensures ret in {0, E_PROVIDER, E_NOMEM}
    ensures ret == if p.fails(old(p.clock)) then E_NOMEM else if p.fails(old(p.clock) + 1) then E_PROVIDER else 0
    ensures p.clock == old(p.clock) + if p.fails(old(p.clock)) then 1 else 2
    ensures ret != 0 ==> m.None? && p.live == old(p.live)
    ensures ret == 0 ==> m.Some? && MrOk(m.value, raw) && Acquired(old(p.live), p.live, {m.value.obj, m.value.mr})
  {
    hide Provider.Valid, Provider.Under;
    m := None;
    var obj := p.Create(Heap, {});
    if obj.None? {
      return E_NOMEM, None;
    }
    var mr := p.Create(MemoryRegion, {raw});
    if mr.None? {
      p.Release(obj.value);
      return E_PROVIDER, None;
    }
    ret, m := 0, Some(Mr(obj.value, mr.value));
  }

  method MrDereg(p: Provider, m: Mr, ghost raw: Handle) returns (ret: int)
    requires p.Valid() && MrOk(m, raw) && Holds(p.live, {m.obj, m.mr}) && raw != m.mr && raw != m.obj
    modifies p`clock, p`failures, p`live
    ensures p.Valid() && p.clock == old(p.clock) + 1 && p.failures == old(p.failures) + if ret != 0 then 1 else 0
    ensures p.live == old(p.live) - {m.obj, m.mr}
    ensures ret == if p.fails(old(p.clock)) then E_PROVIDER else 0
  {
    hide Provider.Valid, Provider.Under;
    ret := 0;
    var err := p.Destroy(m.mr);
    if err {
      ret := E_PROVIDER;
    }
    p.Release(m.obj);
  }

  // ---------------------------------------------------------------- flush objects

  /** The flush object: its own struct, the read-after-write page, its registration, its context. */
  datatype Flush = Flush(obj: Handle, raw: Handle, mr: Mr, ctx: Handle)

  ghost function FlushPart(f: Flush): set<Handle>
  {
    {f.obj, f.raw, f.mr.obj, f.mr.mr, f.ctx}
  }

  predicate FlushOk(f: Flush)
  {
    && f.obj.kind == f.ctx.kind == Heap && f.obj.on == f.ctx.on == {}
    && f.raw.kind == Mapping && f.raw.on == {}
    && MrOk(f.mr, f.raw)
    && f.obj != f.mr.obj && f.obj != f.ctx && f.ctx != f.mr.obj
  }

  /** The moment at which a registered page, begun at time t, is undone if one of the calls fails: sysconf,
      mmap, the region's memory, its registration. */
  function PageUndone(fails: nat -> bool, t: nat): Option<nat>
  {
    if fails(t) then Some(t + 1)
    else if fails(t + 1) then Some(t + 2)
    else if fails(t + 2) then Some(t + 4)
    else if fails(t + 3) then Some(t + 5)
    else None
  }

  /** The same with the context that goes with it. */
  function ApmUndone(fails: nat -> bool, t: nat): Option<nat>
  {
    if PageUndone(fails, t).Some? then PageUndone(fails, t)
    else if fails(t + 4) then Some(t + 7)
    else None
  }

  /** The same for a whole flush object. */
  function FlushUndone(fails: nat -> bool, t: nat): Option<nat>
  {
    if fails(t) then Some(t + 1) else ApmUndone(fails, t + 1)
  }

  /** What the calls that make a flush object answer for: its memory, sysconf, mmap, the region's memory, its
      registration, the context. */
  const FLUSH_CODES := [E_NOMEM, E_PROVIDER, E_NOMEM, E_NOMEM, E_PROVIDER, E_NOMEM]

  /** The page, its registration and the context; everything is undone if one cannot be had. */
  method ApmNew(p: Provider, obj: Handle) returns (ret: int, f: Option<Flush>)
    requires p.Valid() && obj in p.live && obj.kind == Heap && obj.on == {}
    modifies p`clock, p`failures, p`live
    ensures p.Valid() && p.failures >= old(p.failures) && p.clock >= old(p.clock)
    ensures ret == 0 <==> p.failures == old(p.failures)
    ensures ret in {0, E_PROVIDER, E_NOMEM}
    ensures ret == Code(p.fails, old(p.clock), [E_PROVIDER, E_NOMEM] + [E_NOMEM, E_PROVIDER] + [E_NOMEM])
    ensures var undone := ApmUndone(p.fails, old(p.clock));
            if undone.Some? then ret != 0 && p.clock == undone.value else ret == 0 && p.clock == old(p.clock) + 5
    ensures ret != 0 ==> f.None? && p.live == old(p.live)
    ensures ret == 0 ==> f.Some? && FlushOk(f.value) && f.value.obj == obj
                         && Acquired(old(p.live), p.live, FlushPart(f.value) - {obj})
  {
    hide Provider.Valid, Provider.Under, PageUndone, Code;
    CodeJoin(p.fails, p.clock, [E_PROVIDER, E_NOMEM] + [E_NOMEM, E_PROVIDER], [E_NOMEM]);
    CodeOne(p.fails, p.clock + 4, E_NOMEM);
    f := None;
    var raw, m;
    ret, raw, m := PageNew(p);
    if ret != 0 {
      return;
    }
    var ctx := p.Create(Heap, {});
    if ctx.None? {
      var _ := MrDereg(p, m.value, raw);
      var _ := p.Destroy(raw);
      return E_NOMEM, None;
    }
    f := Some(Flush(obj, raw, m.value, ctx.value));
  }

  /** The page and its registration. */
  method PageNew(p: Provider) returns (ret: int, raw: Handle, m: Option<Mr>)
    requires p.Valid()
    modifies p`clock, p`failures, p`live
    ensures p.Valid() && p.failures >= old(p.failures) && p.clock >= old(p.clock)
    ensures ret == 0 <==> p.failures == old(p.failures)
    ensures ret in {0, E_PROVIDER, E_NOMEM}
    ensures ret == Code(p.fails, old(p.clock), [E_PROVIDER, E_NOMEM] + [E_NOMEM, E_PROVIDER])
    ensures var undone := PageUndone(p.fails, old(p.clock));
            if undone.Some? then ret != 0 && p.clock == undone.value else ret == 0 && p.clock == old(p.clock) + 4
    ensures ret != 0 ==> p.live == old(p.live)
    ensures ret == 0 ==>
              && m.Some? && MrOk(m.value, raw) && raw.kind == Mapping && raw.on == {}
              && Acquired(old(p.live), p.live, {raw, m.value.obj, m.value.mr})
  {
    hide Provider.Valid, Provider.Under, Code;
    CodeJoin(p.fails, p.clock, [E_PROVIDER, E_NOMEM], [E_NOMEM, E_PROVIDER]);
    CodeTwo(p.fails, p.clock, E_PROVIDER, E_NOMEM);
    CodeTwo(p.fails, p.clock + 2, E_NOMEM, E_PROVIDER);
    m, raw := None, Handle(Mapping, 0, {});
    var err := p.Attempt();
    if err {
      ret := E_PROVIDER;
      return;
    }
    var page := p.Create(Mapping, {});
    if page.None? {
      ret := E_NOMEM;
      return;
    }
    raw := page.value;
    ret, m := MrReg(p, raw);
    if ret != 0 {
      var _ := p.Destroy(raw);
    }
  }

  method FlushNew(p: Provider) returns (ret: int, f: Option<Flush>)
    requires p.Valid()
    modifies p`clock, p`failures, p`live
    ensures p.Valid() && p.failures >= old(p.failures) && p.clock >= old(p.clock)
    ensures ret == 0 <==> p.failures == old(p.failures)
    ensures ret in {0, E_PROVIDER, E_NOMEM}
    ensures ret == Code(p.fails, old(p.clock), FLUSH_CODES)
    ensures var undone := FlushUndone(p.fails, old(p.clock));
            if undone.Some? then ret != 0 && p.clock == undone.value else ret == 0 && p.clock == old(p.clock) + 6
    ensures ret != 0 ==> f.None? && p.live == old(p.live)
    ensures ret == 0 ==> f.Some? && FlushOk(f.value) && Acquired(old(p.live), p.live, FlushPart(f.value))
  {
    hide Provider.Valid, Provider.Under, Holds, FlushOk, ApmUndone, Code;
    var apm := [E_PROVIDER, E_NOMEM] + [E_NOMEM, E_PROVIDER] + [E_NOMEM];
    assert FLUSH_CODES == [E_NOMEM] + apm;
    CodeJoin(p.fails, p.clock, [E_NOMEM], apm);
    CodeOne(p.fails, p.clock, E_NOMEM);
    var obj := p.Create(Heap, {});
    if obj.None? {
      return E_NOMEM, None;
    }
    ghost var live1 := p.live;
    ret, f := ApmNew(p, obj.value);
    if ret != 0 {
      p.Release(obj.value);
    } else {
      Grown(old(p.live), live1, p.live, obj.value, FlushPart(f.value));
    }
  }

  /** Deregister, unmap and free; a failed deregistration is reported before a failed unmap. */
  method FlushDelete(p: Provider, f: Flush) returns (ret: int)
    requires p.Valid() && FlushOk(f) && Holds(p.live, FlushPart(f))
    modifies p`clock, p`failures, p`live
    ensures p.Valid() && p.clock == old(p.clock) + 2 && p.failures >= old(p.failures) && p.clock >= old(p.clock)
    ensures ret == 0 <==> p.failures == old(p.failures)
    ensures p.live == old(p.live) - FlushPart(f)
    ensures ret == if p.fails(old(p.clock)) then E_PROVIDER else if p.fails(old(p.clock) + 1) then E_INVAL else 0
  {
    hide Provider.Valid, Provider.Under;
    var retDereg := MrDereg(p, f.mr, f.raw);
    var retUnmap := p.Destroy(f.raw);
    p.Release(f.ctx);
    ret := 0;
    if retDereg != 0 {
      ret := retDereg;
    } else if retUnmap {
      ret := E_INVAL;
    }
    p.Release(f.obj);
  }

  // ---------------------------------------------------------------- address caches

  datatype Info = Info(obj: Handle, rai: Handle)

  predicate InfoOk(i: Info)
  {
    i.obj.kind == Heap && i.rai.kind == AddrInfo && i.obj.on == i.rai.on == {}
  }

  method InfoNew(p: Provider) returns (ret: int, info: Option<Info>)
    requires p.Valid()
    modifies p`clock, p`failures, p`live
    ensures p.Valid() && p.failures >= old(p.failures) && p.clock >= old(p.clock)
    ensures ret == 0 <==> p.failures == old(p.failures)
    ensures ret in {0, E_PROVIDER, E_NOMEM}
    ensures ret == Code(p.fails, old(p.clock), [E_PROVIDER, E_NOMEM])
    ensures ret == 0 <==> Quiet(p.fails, old(p.clock), old(p.clock) + 2)
    ensures ret == 0 ==> p.clock == old(p.clock) + 2
    ensures ret != 0 ==> info.None? && p.live == old(p.live)
    ensures ret == 0 ==>
              info.Some? && InfoOk(info.value) && Acquired(old(p.live), p.live, {info.value.obj, info.value.rai})
  {
    hide Provider.Valid, Provider.Under, Code;
    CodeTwo(p.fails, p.clock, E_PROVIDER, E_NOMEM);
    var rai := p.Create(AddrInfo, {});
    if rai.None? {
      return E_PROVIDER, None;
    }
    var obj := p.Create(Heap, {});
    if obj.None? {
      p.Release(rai.value);
      return E_NOMEM, None;
    }
    return 0, Some(Info(obj.value, rai.value));
  }

  method InfoDelete(p: Provider, i: Info)
    requires p.Valid() && InfoOk(i) && Holds(p.live, {i.obj, i.rai})
    modifies p`live
    ensures p.Valid() && p.live == old(p.live) - {i.obj, i.rai}
  {
    hide Provider.Valid, Provider.Under;
    p.Release(i.rai);
    p.Release(i.obj);
  }
}
