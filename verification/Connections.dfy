/** Connection requests and connections: acquired through ladders of provider calls, any of which
    may fail, and torn down through the ladders' error labels. */
module Connections {
  import opened Wrappers
  import opened Errors
  import opened ByteStrings
  import opened Providers
  import opened Resources

  datatype Cfg = Cfg(shared: bool, rcqe: nat)

  /** A copy of private data: the memory it is in and the bytes themselves. */
  datatype Data = Data(ptr: Handle, bytes: Bytes)

  ghost function ChannelPart(channel: Option<Handle>): set<Handle>
  {
    if channel.Some? then {channel.value} else {}
  }

  ghost function DataPart(data: Option<Data>): set<Handle>
  {
    if data.Some? then {data.value.ptr} else {}
  }

  /** Which completion queue takes the completions of sends, and which those of receives. */
  datatype QpAttr = QpAttr(sendCq: Handle, recvCq: Handle)

  /** What every request and connection is built on: CM ID, queue pair, queues and shared channel. */
  datatype Base = Base(id: Handle, qp: Handle, attr: QpAttr, cq: Option<Cq>, rcq: Option<Cq>, channel: Option<Handle>)

  ghost function QueuesPart(b: Base): set<Handle>
  {
    CqPart(b.cq) + CqPart(b.rcq) + ChannelPart(b.channel)
  }

  ghost predicate CqPlaced(c: Option<Cq>, channel: Option<Handle>)
  {
    CqOk(c) && (c.Some? ==> c.value.shared == channel.Some? && (channel.Some? ==> c.value.channel == channel.value))
  }

  ghost predicate QueuesOk(b: Base)
  {
    && CqPlaced(b.cq, b.channel) && CqPlaced(b.rcq, b.channel)
    && CqPart(b.cq) !! CqPart(b.rcq)
    && (b.channel.Some? ==> b.channel.value.kind == CompChannel && b.channel.value.on == {})
  }

  /** Receives complete on the receive queue, if there is one. */
  function QpAttrOf(cq: Cq, rcq: Option<Cq>): QpAttr
  {
    QpAttr(cq.cq, if rcq.Some? then rcq.value.cq else cq.cq)
  }

  ghost predicate BaseOk(b: Base)
  {
    && QueuesOk(b) && b.cq.Some?
    && b.id.kind == CmId && b.id.on == {}
    && b.qp.kind == QueuePair
    && b.attr == QpAttrOf(b.cq.value, b.rcq)
    && b.qp.on == {b.id, b.attr.sendCq, b.attr.recvCq}
  }

  // ---------------------------------------------------------------- building the base

  method ErrSharedChannel(p: Provider, channel: Option<Handle>)
    requires p.Valid() && ChannelPart(channel) <= p.live
    requires channel.Some? ==> channel.value.kind == CompChannel && Unneeded(p.live, channel.value)
    modifies p`clock, p`failures, p`live
    ensures p.Valid() && p.failures >= old(p.failures) && p.clock >= old(p.clock)
    ensures p.live == old(p.live) - ChannelPart(channel)
    ensures p.clock == old(p.clock) + if channel.Some? then 1 else 0
  {
    hide Provider.Valid, Provider.Under;
    if channel.Some? {
      var _ := p.Destroy(channel.value);
    }
  }

  method ErrCqDelete(p: Provider, b: Base)
    requires p.Valid() && QueuesOk(b) && b.rcq.None? && Holds(p.live, QueuesPart(b))
    modifies p`clock, p`failures, p`live
    ensures p.Valid() && p.failures >= old(p.failures) && p.clock >= old(p.clock)
    ensures p.live == old(p.live) - QueuesPart(b)
  {
    hide Provider.Valid, Provider.Under;
    var _ := CqDelete(p, b.cq);
    ErrSharedChannel(p, b.channel);
  }

  method ErrRcqDelete(p: Provider, b: Base)
    requires p.Valid() && QueuesOk(b) && Holds(p.live, QueuesPart(b))
    modifies p`clock, p`failures, p`live
    ensures p.Valid() && p.failures >= old(p.failures) && p.clock >= old(p.clock)
    ensures p.live == old(p.live) - QueuesPart(b)
  {
    hide Provider.Valid, Provider.Under;
    var _ := CqDelete(p, b.rcq);
    ErrCqDelete(p, b.(rcq := None));
  }

  /** How many calls it takes to make the queues of a connection, and a whole request. */
  function QueueCalls(cfg: Cfg): nat
  {
    (if cfg.shared then 1 else 0) + CqCalls(cfg.shared) + if cfg.rcqe != 0 then CqCalls(cfg.shared) else 0
  }

  function FromIdCalls(cfg: Cfg): nat
  {
    QueueCalls(cfg) + 2
  }

  /** What those calls answer for: the shared channel, the queues, the queue pair, the memory. */
  function RcqCodes(cfg: Cfg): (codes: seq<int>)
    ensures Negative(codes)
  {
    if cfg.rcqe != 0 then CqCodes(cfg.shared) else []
  }

  function QueueCodes(cfg: Cfg): (codes: seq<int>)
    ensures |codes| == QueueCalls(cfg) && Negative(codes)
  {
    (if cfg.shared then [E_PROVIDER] else []) + (CqCodes(cfg.shared) + RcqCodes(cfg))
  }

  function FromIdCodes(cfg: Cfg): (codes: seq<int>)
    ensures |codes| == FromIdCalls(cfg) && Negative(codes)
  {
    QueueCodes(cfg) + [E_PROVIDER] + [E_NOMEM]
  }

  lemma QueueCode(fails: nat -> bool, t: nat, cfg: Cfg)
    ensures var t' := if cfg.shared then t + 1 else t;
            Code(fails, t, QueueCodes(cfg)) ==
              if cfg.shared && fails(t) then E_PROVIDER
              else if Code(fails, t', CqCodes(cfg.shared)) != 0 then Code(fails, t', CqCodes(cfg.shared))
              else Code(fails, t' + CqCalls(cfg.shared), RcqCodes(cfg))
  {
    hide Code, CqCodes, RcqCodes;
    var queues := CqCodes(cfg.shared) + RcqCodes(cfg);
    CodeOne(fails, t, E_PROVIDER);
    CodeJoin(fails, t, [E_PROVIDER], queues);
    CodeJoin(fails, if cfg.shared then t + 1 else t, CqCodes(cfg.shared), RcqCodes(cfg));
    assert [] + queues == queues;
  }

  /** The optional shared channel, the main queue and the optional receive queue. */
  method NewQueues(p: Provider, id: Handle, cfg: Cfg) returns (ret: int, b: Base)
    requires p.Valid()
    modifies p`clock, p`failures, p`live
    ensures p.Valid() && p.failures >= old(p.failures) && p.clock >= old(p.clock)
    ensures ret == 0 <==> p.failures == old(p.failures)
    ensures ret in {0, E_PROVIDER, E_NOMEM}
    ensures ret == Code(p.fails, old(p.clock), QueueCodes(cfg))
    ensures ret == 0 <==> Quiet(p.fails, old(p.clock), old(p.clock) + QueueCalls(cfg))
    ensures ret != 0 ==> !Quiet(p.fails, old(p.clock), p.clock)
    ensures ret == 0 ==> p.clock == old(p.clock) + QueueCalls(cfg)
    ensures ret != 0 ==> p.live == old(p.live)
    ensures ret == 0 ==>
              && QueuesOk(b) && b.cq.Some? && b.id == id
              && b.channel.Some? == cfg.shared && b.rcq.Some? == (cfg.rcqe != 0)
              && Acquired(old(p.live), p.live, QueuesPart(b))
  {
    hide Provider.Valid, Provider.Under, Code, QueueCodes, CqCodes, RcqCodes;
    QueueCode(p.fails, p.clock, cfg);
    b := Base(id, id, QpAttr(id, id), None, None, None);
    if cfg.shared {
      var channel := p.Create(CompChannel, {});
      if channel.None? {
        return E_PROVIDER, b;
      }
      b := b.(channel := channel);
    }
    var cq;
    ret, cq := CqNew(p, b.channel);
    if ret != 0 {
      ErrSharedChannel(p, b.channel);
      return;
    }
    ret, b := AddRcq(p, b.(cq := cq), cfg);
  }

  /** The receive queue, if asked for; without it the queues made so far go too. */
  method AddRcq(p: Provider, b: Base, cfg: Cfg) returns (ret: int, b': Base)
    requires p.Valid() && QueuesOk(b) && b.rcq.None? && Holds(p.live, QueuesPart(b)) && b.channel.Some? == cfg.shared
    modifies p`clock, p`failures, p`live
    ensures p.Valid() && p.failures >= old(p.failures) && p.clock >= old(p.clock)
    ensures ret == Code(p.fails, old(p.clock), RcqCodes(cfg))
    ensures ret == 0 <==> p.failures == old(p.failures)
    ensures ret in {0, E_PROVIDER, E_NOMEM}
    ensures ret == 0 <==> cfg.rcqe == 0 || Quiet(p.fails, old(p.clock), old(p.clock) + CqCalls(b.channel.Some?))
    ensures ret != 0 ==> !Quiet(p.fails, old(p.clock), p.clock)
    ensures ret == 0 ==> p.clock == old(p.clock) + if cfg.rcqe != 0 then CqCalls(b.channel.Some?) else 0
    ensures ret != 0 ==> p.live == old(p.live) - QueuesPart(b)
    ensures ret == 0 ==>
              && b' == b.(rcq := b'.rcq) && QueuesOk(b') && b'.rcq.Some? == (cfg.rcqe != 0)
              && Acquired(old(p.live), p.live, CqPart(b'.rcq)) && Holds(p.live, QueuesPart(b'))
  {
    hide Provider.Valid, Provider.Under;
    ret, b' := 0, b;
    if cfg.rcqe != 0 {
      var rcq;
      ret, rcq := CqNew(p, b.channel);
      if ret != 0 {
        ErrCqDelete(p, b);
        return;
      }
      b' := b.(rcq := rcq);
    }
  }

  ghost function BasePart(b: Base): set<Handle>
  {
    {b.qp} + QueuesPart(b)
  }

  method NewBase(p: Provider, id: Handle, cfg: Cfg) returns (ret: int, b: Base)
    requires p.Valid() && id in p.live && id.kind == CmId && id.on == {}
    modifies p`clock, p`failures, p`live
    ensures p.Valid() && p.failures >= old(p.failures) && p.clock >= old(p.clock)
    ensures ret == 0 <==> p.failures == old(p.failures)
    ensures ret in {0, E_PROVIDER, E_NOMEM}
    ensures ret == Code(p.fails, old(p.clock), QueueCodes(cfg) + [E_PROVIDER])
    ensures ret == 0 <==> Quiet(p.fails, old(p.clock), old(p.clock) + QueueCalls(cfg) + 1)
    ensures ret != 0 ==> !Quiet(p.fails, old(p.clock), p.clock)
    ensures ret == 0 ==> p.clock == old(p.clock) + QueueCalls(cfg) + 1
    ensures ret != 0 ==> p.live == old(p.live)
    ensures ret == 0 ==>
              && BaseOk(b) && b.id == id
              && b.channel.Some? == cfg.shared && b.rcq.Some? == (cfg.rcqe != 0)
              && Acquired(old(p.live), p.live, BasePart(b))
  {
    hide Provider.Valid, Provider.Under, Code, QueueCodes;
    CodeJoin(p.fails, p.clock, QueueCodes(cfg), [E_PROVIDER]);
    CodeOne(p.fails, p.clock + QueueCalls(cfg), E_PROVIDER);
    ret, b := NewQueues(p, id, cfg);
    if ret != 0 {
      return;
    }
    var attr := QpAttrOf(b.cq.value, b.rcq);
    var qp := p.Create(QueuePair, {id, attr.sendCq, attr.recvCq});
    if qp.None? {
      ErrRcqDelete(p, b);
      return E_PROVIDER, b;
    }
    b := b.(qp := qp.value, attr := attr);
  }

  method ErrDestroyQp(p: Provider, b: Base)
    requires p.Valid() && BaseOk(b) && Holds(p.live, BasePart(b))
    modifies p`clock, p`failures, p`live
    ensures p.Valid() && p.failures >= old(p.failures) && p.clock >= old(p.clock) && p.live == old(p.live) - BasePart(b)
  {
    hide Provider.Valid, Provider.Under;
    p.Release(b.qp);
    ErrRcqDelete(p, b);
  }

  // ---------------------------------------------------------------- requests

  datatype Request = Request(obj: Handle, base: Base, passive: bool, data: Option<Data>) {
    /** Everything the request must release: an active one owns its CM ID, a passive one does not. */
    ghost function Part(): set<Handle>
    {
      {obj, base.qp} + QueuesPart(base) + DataPart(data) + if passive then {} else {base.id}
    }

    ghost predicate Ok()
    {
      && BaseOk(base)
      && obj.kind == Heap && obj.on == {} && obj !in QueuesPart(base)
      && (data.Some? ==>
            && data.value.ptr.kind == Heap && data.value.ptr.on == {}
            && data.value.ptr != obj && data.value.ptr !in QueuesPart(base))
      && (!passive ==> data.None?)
    }
  }

  /** Equip a CM ID with queues and a queue pair and wrap them into an (active) request. */
  method FromId(p: Provider, id: Handle, cfg: Cfg) returns (ret: int, req: Option<Request>)
    requires p.Valid() && id in p.live && id.kind == CmId && id.on == {} && Unneeded(p.live, id)
    modifies p`clock, p`failures, p`live
    ensures p.Valid() && p.failures >= old(p.failures) && p.clock >= old(p.clock)
    ensures ret == 0 <==> p.failures == old(p.failures)
    ensures ret in {0, E_PROVIDER, E_NOMEM}
    ensures ret == Code(p.fails, old(p.clock), FromIdCodes(cfg))
    ensures ret == 0 <==> Quiet(p.fails, old(p.clock), old(p.clock) + FromIdCalls(cfg))
    ensures ret != 0 ==> !Quiet(p.fails, old(p.clock), p.clock)
    ensures ret == 0 ==> p.clock == old(p.clock) + FromIdCalls(cfg)
    ensures ret != 0 ==> req == None && p.live == old(p.live)
    ensures ret == 0 ==>
              && req.Some? && req.value.Ok() && !req.value.passive && req.value.base.id == id && req.value.data == None
              && req.value.base.channel.Some? == cfg.shared && req.value.base.rcq.Some? == (cfg.rcqe != 0)
              && p.live == old(p.live) + req.value.Part() && req.value.Part() !! (old(p.live) - {id})
              && Holds(p.live, req.value.Part())
  {
    hide Provider.Valid, Provider.Under, Code, QueueCodes;
    CodeJoin(p.fails, p.clock, QueueCodes(cfg) + [E_PROVIDER], [E_NOMEM]);
    CodeOne(p.fails, p.clock + QueueCalls(cfg) + 1, E_NOMEM);
    req := None;
    var b;
    ret, b := NewBase(p, id, cfg);
    if ret != 0 {
      return;
    }
    var obj := p.Create(Heap, {});
    if obj.None? {
      ErrDestroyQp(p, b);
      return E_NOMEM, None;
    }
    req := Some(Request(obj.value, b, false, None));
  }

  ghost function QpPart(b: Base): set<Handle>
  {
    {b.qp} + CqPart(b.cq) + CqPart(b.rcq)
  }

  /** Destroy the queue pair and then its completion queues, reporting the first failure. */
  method DestroyQueues(p: Provider, b: Base) returns (ret: int)
    requires p.Valid() && BaseOk(b) && Holds(p.live, QpPart(b))
    modifies p`clock, p`failures, p`live
    ensures p.Valid() && p.failures >= old(p.failures) && p.clock >= old(p.clock)
    ensures p.live == old(p.live) - QpPart(b)
    ensures p.clock == old(p.clock) + CqDeletes(b.rcq) + CqDeletes(b.cq)
    ensures ret == if Quiet(p.fails, old(p.clock), p.clock) then 0 else E_PROVIDER
    ensures ret in {0, E_PROVIDER} && (ret == 0 <==> p.failures == old(p.failures))
  {
    hide Provider.Valid, Provider.Under;
    p.Release(b.qp);
    ret := CqDelete(p, b.rcq);
    var ret2 := CqDelete(p, b.cq);
    if ret == 0 && ret2 != 0 {
      ret := ret2;
    }
  }

  /** Destroy the shared channel, if there is one; `ret` is the failure to report so far. */
  method DestroyChannel(p: Provider, channel: Option<Handle>, ret: int) returns (ret': int)
    requires p.Valid() && ChannelPart(channel) <= p.live
    requires channel.Some? ==> channel.value.kind == CompChannel && Unneeded(p.live, channel.value)
    modifies p`clock, p`failures, p`live
    ensures p.Valid() && p.failures >= old(p.failures) && p.clock >= old(p.clock)
    ensures p.live == old(p.live) - ChannelPart(channel)
    ensures p.clock == old(p.clock) + if channel.Some? then 1 else 0
    ensures ret' == if ret == 0 && !Quiet(p.fails, old(p.clock), p.clock) then E_PROVIDER else ret
    ensures ret' == if ret == 0 && p.failures != old(p.failures) then E_PROVIDER else ret
  {
    hide Provider.Valid, Provider.Under;
    ret' := ret;
    if channel.Some? {
      var err := p.Destroy(channel.value);
      if err && ret == 0 {
        ret' := E_PROVIDER;
      }
    }
  }

  /** Free a private-data copy, if there is one. */
  method Discard(p: Provider, data: Option<Data>)
    requires p.Valid() && DataPart(data) <= p.live
    requires data.Some? ==> data.value.ptr.kind == Heap && Unneeded(p.live, data.value.ptr)
    modifies p`live
    ensures p.Valid() && p.live == old(p.live) - DataPart(data)
  {
    hide Provider.Valid, Provider.Under;
    if data.Some? {
      p.Release(data.value.ptr);
    }
  }

  /** What a request still holds once its queues are gone. */
  ghost function Rest(req: Request): set<Handle>
  {
    {req.obj} + ChannelPart(req.base.channel) + DataPart(req.data) + if req.passive then {} else {req.base.id}
  }

  /** Of a part that nothing outside needs, release `first` and then `rest`, which needs nothing. */
  lemma SplitHolds(live: set<Handle>, part: set<Handle>, first: set<Handle>, rest: set<Handle>)
    requires Holds(live, part) && part == first + rest && first !! rest
    requires forall g :: g in rest ==> g.on == {}
    ensures Holds(live, first)
    ensures rest <= live - first && live - first - rest == live - part
    ensures forall h :: h in rest ==> Unneeded(live - first, h)
  {
  }

  lemma RequestSplits(req: Request)
    requires req.Ok()
    ensures req.Part() == QpPart(req.base) + Rest(req) && QpPart(req.base) !! Rest(req)
    ensures forall g :: g in Rest(req) ==> g.on == {}
  {
  }

  lemma RestApart(req: Request)
    requires req.Ok()
    ensures req.obj.kind == Heap && req.base.id.kind == CmId && (!req.passive ==> req.data.None?)
    ensures forall h :: h in ChannelPart(req.base.channel) ==> h.kind == CompChannel
    ensures forall h :: h in DataPart(req.data) ==> h.kind == Heap && h != req.obj
  {
  }

  method RequestRest(p: Provider, req: Request, sofar: int) returns (ret: int)
    requires p.Valid() && req.Ok() && Rest(req) <= p.live
    requires forall h :: h in Rest(req) ==> Unneeded(p.live, h)
    modifies p`clock, p`failures, p`live, p`attached
    ensures p.Valid() && p.failures >= old(p.failures) && p.clock >= old(p.clock)
    ensures p.live == old(p.live) - Rest(req)
    ensures p.attached == if req.passive then old(p.attached) else old(p.attached) - {req.base.id}
    ensures p.clock == old(p.clock) + 1 + if req.base.channel.Some? then 1 else 0
    ensures ret == if sofar == 0 && !Quiet(p.fails, old(p.clock), p.clock) then E_PROVIDER else sofar
    ensures ret == if sofar == 0 && p.failures != old(p.failures) then E_PROVIDER else sofar
  {
    hide Request.Ok, Provider.Valid, Provider.Under;
    RestApart(req);
    ret := sofar;
    var err: bool;
    if req.passive {
      err := p.Attempt();
    } else {
      err := p.DestroyId(req.base.id);
    }
    if ret == 0 && err {
      ret := E_PROVIDER;
    }
    ret := DestroyChannel(p, req.base.channel, ret);
    Discard(p, req.data);
    p.Release(req.obj);
  }

  /** How many calls it takes to tear a request down: its queues; the rejection, or the destruction of the
      CM ID; the shared channel. */
  function RequestDeletes(req: Request): nat
  {
    CqDeletes(req.base.rcq) + CqDeletes(req.base.cq) + 1 + if req.base.channel.Some? then 1 else 0
  }

  /** Tear a request down in order, rejecting (passive) or destroying (active) its CM ID, and report
      the first failure. */
  method TearDown(p: Provider, req: Request) returns (ret: int)
    requires p.Valid() && req.Ok() && Holds(p.live, req.Part())
    modifies p`clock, p`failures, p`live, p`attached
    ensures p.Valid() && p.failures >= old(p.failures) && p.clock >= old(p.clock)
    ensures p.live == old(p.live) - req.Part()
    ensures p.attached == if req.passive then old(p.attached) else old(p.attached) - {req.base.id}
    ensures p.clock == old(p.clock) + RequestDeletes(req)
    ensures ret == if Quiet(p.fails, old(p.clock), old(p.clock) + RequestDeletes(req)) then 0 else E_PROVIDER
    ensures ret in {0, E_PROVIDER} && (ret == 0 <==> p.failures == old(p.failures))
  {
    hide Provider.Valid, Provider.Under;
    RequestSplits(req);
    SplitHolds(p.live, req.Part(), QpPart(req.base), Rest(req));
    ret := DestroyQueues(p, req.base);
    ret := RequestRest(p, req, ret);
  }

  /** Delete a request through the caller's pointer, if one is given: it is cleared, and a pointer that
      is already clear is left alone. */
  method RequestDelete(p: Provider, given: bool, req: Option<Request>) returns (ret: int, req': Option<Request>)
    requires p.Valid()
    requires given && req.Some? ==> req.value.Ok() && Holds(p.live, req.value.Part())
    modifies p`clock, p`failures, p`live, p`attached
    ensures p.Valid() && p.failures >= old(p.failures) && p.clock >= old(p.clock)
    ensures !given ==> ret == E_INVAL && req' == req
    ensures given ==> req' == None && ret in {0, E_PROVIDER} && (ret == 0 <==> p.failures == old(p.failures))
    ensures !given || req == None ==> p.clock == old(p.clock) && p.live == old(p.live) && p.attached == old(p.attached)
    ensures given && req.Some? ==>
              && p.clock == old(p.clock) + RequestDeletes(req.value)
              && ret == (if Quiet(p.fails, old(p.clock), p.clock) then 0 else E_PROVIDER)
              && p.live == old(p.live) - req.value.Part()
              && p.attached == if req.value.passive then old(p.attached) else old(p.attached) - {req.value.base.id}
  {
    hide Provider.Valid, Provider.Under;
    if !given {
      return E_INVAL, req;
    }
    ret, req' := 0, None;
    if req.Some? {
      ret := TearDown(p, req.value);
    }
  }

  // ---------------------------------------------------------------- connections

  datatype Connection = Connection(obj: Handle, base: Base, evch: Handle, flush: Flush, data: Option<Data>) {
    /** What is left to release from each label of the teardown on. */
    ghost function FromEvch(): set<Handle>
    {
      {obj, evch} + DataPart(data)
    }

    ghost function FromChannel(): set<Handle>
    {
      FromEvch() + ChannelPart(base.channel)
    }

    ghost function FromCmId(): set<Handle>
    {
      FromChannel() + {base.id}
    }

    ghost function FromCq(): set<Handle>
    {
      FromCmId() + CqPart(base.cq)
    }

    ghost function FromRcq(): set<Handle>
    {
      FromCq() + CqPart(base.rcq)
    }

    ghost function FromQp(): set<Handle>
    {
      FromRcq() + {base.qp}
    }

    /** Everything a connection owns. */
    ghost function Part(): set<Handle>
    {
      FromQp() + FlushPart(flush)
    }

    ghost predicate DataOk()
    {
      data.Some? ==>
        && data.value.ptr.kind == Heap && data.value.ptr.on == {} && data.value.ptr != obj
        && data.value.ptr !in QueuesPart(base) && data.value.ptr !in FlushPart(flush)
    }

    /** A sound connection, its private data aside. */
    ghost predicate BareOk()
    {
      && BaseOk(base) && FlushOk(flush)
      && evch.kind == EventChannel && evch.on == {}
      && obj.kind == Heap && obj.on == {} && obj !in QueuesPart(base) && obj !in FlushPart(flush)
      && QueuesPart(base) !! FlushPart(flush)
    }

    ghost predicate Ok()
    {
      BareOk() && DataOk()
    }

    /** No CM ID but the connection's own uses its event channel. */
    ghost predicate Alone(p: Provider)
      reads p`attached
    {
      p.Under(evch) <= {base.id}
    }
  }

  /** Release `sub` first: nothing else of the part needs it. */
  lemma HoldsSub(live: set<Handle>, part: set<Handle>, sub: set<Handle>, rest: set<Handle>)
    requires Holds(live, part) && part == sub + rest && sub !! rest
    requires forall g, h :: g in rest && h in g.on ==> h !in sub
    ensures Holds(live, sub) && Holds(live - sub, rest)
    ensures live - sub - rest == live - part
  {
  }

  /** The shared channel goes before the event channel. */
  lemma ChannelFirst(live: set<Handle>, conn: Connection)
    requires conn.Ok() && Holds(live, conn.FromChannel())
    ensures forall h :: h in ChannelPart(conn.base.channel) ==> h in live && Unneeded(live, h) && h.kind == CompChannel
    ensures Holds(live - ChannelPart(conn.base.channel), conn.FromEvch())
    ensures live - ChannelPart(conn.base.channel) - conn.FromEvch() == live - conn.FromChannel()
  {
    HoldsSub(live, conn.FromChannel(), ChannelPart(conn.base.channel), conn.FromEvch());
  }

  /** The CM ID goes before the channels. */
  lemma IdFirst(live: set<Handle>, conn: Connection)
    requires conn.Ok() && Holds(live, conn.FromCmId())
    ensures conn.base.id in live && Unneeded(live, conn.base.id) && conn.base.id.kind == CmId
    ensures Holds(live - {conn.base.id}, conn.FromChannel())
    ensures live - {conn.base.id} - conn.FromChannel() == live - conn.FromCmId()
  {
    HoldsSub(live, conn.FromCmId(), {conn.base.id}, conn.FromChannel());
  }

  method ErrDestroyEventChannel(p: Provider, conn: Connection)
    requires p.Valid() && conn.Ok() && p.Under(conn.evch) == {}
    requires Holds(p.live, conn.FromEvch())
    modifies p`live, p`orphaned
    ensures p.Valid() && p.live == old(p.live) - conn.FromEvch() && p.orphaned == old(p.orphaned)
  {
    hide Provider.Valid;
    p.DestroyEventChannel(conn.evch);
    Discard(p, conn.data);
    p.Release(conn.obj);
  }

  method ErrDestroyChannel(p: Provider, conn: Connection)
    requires p.Valid() && conn.Ok() && p.Under(conn.evch) == {}
    requires Holds(p.live, conn.FromChannel())
    modifies p`clock, p`failures, p`live, p`orphaned
    ensures p.Valid() && p.failures >= old(p.failures) && p.clock >= old(p.clock) && p.orphaned == old(p.orphaned)
    ensures p.live == old(p.live) - conn.FromChannel()
  {
    hide Holds, Connection.Ok, Connection.FromCmId, Connection.FromChannel, Connection.FromEvch, Provider.Valid;
    ChannelFirst(p.live, conn);
    if conn.base.channel.Some? {
      var _ := p.Destroy(conn.base.channel.value);
    }
    assert p.live == old(p.live) - ChannelPart(conn.base.channel);
    ErrDestroyEventChannel(p, conn);
  }

  method ErrDestroyId(p: Provider, conn: Connection)
    requires p.Valid() && conn.Ok() && conn.Alone(p)
    requires Holds(p.live, conn.FromCmId())
    modifies p`clock, p`failures, p`live, p`attached, p`orphaned
    ensures p.Valid() && p.failures >= old(p.failures) && p.clock >= old(p.clock)
    ensures p.live == old(p.live) - conn.FromCmId()
    ensures p.attached == old(p.attached) - {conn.base.id} && p.orphaned == old(p.orphaned)
  {
    hide Holds, Connection.Ok, Connection.FromCmId, Connection.FromChannel, Connection.FromEvch, Provider.Valid;
    IdFirst(p.live, conn);
    var _ := p.DestroyId(conn.base.id);
    ErrDestroyChannel(p, conn);
  }

  lemma CqBeforeId(conn: Connection)
    requires conn.Ok()
    ensures conn.FromCq() == CqPart(conn.base.cq) + conn.FromCmId() && CqPart(conn.base.cq) !! conn.FromCmId()
    ensures forall g :: g in conn.FromCmId() ==> g.on == {}
  {
  }

  lemma CqNeeds(conn: Connection)
    requires conn.Ok()
    ensures forall g, h :: g in conn.FromCq() && h in g.on ==> h == conn.base.cq.value.channel
  {
    CqBeforeId(conn);
  }

  lemma RcqBeforeCq(conn: Connection)
    requires conn.Ok()
    ensures conn.FromRcq() == CqPart(conn.base.rcq) + conn.FromCq() && CqPart(conn.base.rcq) !! conn.FromCq()
    ensures forall g, h :: g in conn.FromCq() && h in g.on ==> h !in CqPart(conn.base.rcq)
  {
    CqNeeds(conn);
    assert conn.base.cq.value.channel !in CqPart(conn.base.rcq);
  }

  lemma QpBeforeRcq(conn: Connection)
    requires conn.Ok()
    ensures conn.FromQp() == {conn.base.qp} + conn.FromRcq() && conn.base.qp !in conn.FromRcq()
    ensures forall g, h :: g in conn.FromRcq() && h in g.on ==> h != conn.base.qp
  {
  }

  lemma QpNeeds(conn: Connection)
    requires conn.Ok()
    ensures forall g, h :: g in conn.FromQp() && h in g.on ==> h.kind in {CmId, CompQueue, CompChannel}
  {
    CqNeeds(conn);
  }

  lemma FlushBeforeQp(conn: Connection)
    requires conn.Ok()
    ensures conn.Part() == FlushPart(conn.flush) + conn.FromQp() && FlushPart(conn.flush) !! conn.FromQp()
    ensures forall g, h :: g in conn.FromQp() && h in g.on ==> h !in FlushPart(conn.flush)
  {
    QpNeeds(conn);
    assert forall h :: h in FlushPart(conn.flush) ==> h.kind in {Heap, Mapping, MemoryRegion};
  }

  /** The main queue goes before the CM ID. */
  lemma CqFirst(live: set<Handle>, conn: Connection)
    requires conn.Ok() && Holds(live, conn.FromCq())
    ensures CqOk(conn.base.cq)
    ensures Holds(live, CqPart(conn.base.cq)) && Holds(live - CqPart(conn.base.cq), conn.FromCmId())
    ensures live - CqPart(conn.base.cq) - conn.FromCmId() == live - conn.FromCq()
  {
    CqBeforeId(conn);
    HoldsSub(live, conn.FromCq(), CqPart(conn.base.cq), conn.FromCmId());
  }

  /** The receive queue goes before the main queue. */
  lemma RcqFirst(live: set<Handle>, conn: Connection)
    requires conn.Ok() && Holds(live, conn.FromRcq())
    ensures CqOk(conn.base.rcq)
    ensures Holds(live, CqPart(conn.base.rcq)) && Holds(live - CqPart(conn.base.rcq), conn.FromCq())
    ensures live - CqPart(conn.base.rcq) - conn.FromCq() == live - conn.FromRcq()
  {
    RcqBeforeCq(conn);
    HoldsSub(live, conn.FromRcq(), CqPart(conn.base.rcq), conn.FromCq());
  }

  /** The queue pair goes before its queues. */
  lemma QpFirst(live: set<Handle>, conn: Connection)
    requires conn.Ok() && Holds(live, conn.FromQp())
    ensures conn.base.qp in live && Unneeded(live, conn.base.qp) && conn.base.qp.kind == QueuePair
    ensures Holds(live - {conn.base.qp}, conn.FromRcq())
    ensures live - {conn.base.qp} - conn.FromRcq() == live - conn.FromQp()
  {
    QpBeforeRcq(conn);
    HoldsSub(live, conn.FromQp(), {conn.base.qp}, conn.FromRcq());
  }

  /** The flush object goes first. */
  lemma FlushFirst(live: set<Handle>, conn: Connection)
    requires conn.Ok() && Holds(live, conn.Part())
    ensures FlushOk(conn.flush)
    ensures Holds(live, FlushPart(conn.flush)) && Holds(live - FlushPart(conn.flush), conn.FromQp())
    ensures live - FlushPart(conn.flush) - conn.FromQp() == live - conn.Part()
  {
    FlushBeforeQp(conn);
    HoldsSub(live, conn.Part(), FlushPart(conn.flush), conn.FromQp());
  }

  method ErrConnCqDelete(p: Provider, conn: Connection)
    requires p.Valid() && conn.Ok() && conn.Alone(p)
    requires Holds(p.live, conn.FromCq())
    modifies p`clock, p`failures, p`live, p`attached, p`orphaned
    ensures p.Valid() && p.failures >= old(p.failures) && p.clock >= old(p.clock)
    ensures p.live == old(p.live) - conn.FromCq()
    ensures p.attached == old(p.attached) - {conn.base.id} && p.orphaned == old(p.orphaned)
  {
    hide Holds, CqPart, CqOk, Provider.Valid, Provider.Under;
    hide Connection.Ok, Connection.FromQp, Connection.FromRcq, Connection.FromCq, Connection.FromCmId;
    CqFirst(p.live, conn);
    var _ := CqDelete(p, conn.base.cq);
    ErrDestroyId(p, conn);
  }

  method ErrConnDestroyQp(p: Provider, conn: Connection)
    requires p.Valid() && conn.Ok() && conn.Alone(p)
    requires Holds(p.live, conn.FromQp())
    modifies p`clock, p`failures, p`live, p`attached, p`orphaned
    ensures p.Valid() && p.failures >= old(p.failures) && p.clock >= old(p.clock)
    ensures p.live == old(p.live) - conn.FromQp()
    ensures p.attached == old(p.attached) - {conn.base.id} && p.orphaned == old(p.orphaned)
  {
    hide Holds, CqPart, CqOk, Provider.Valid, Provider.Under;
    hide Connection.Ok, Connection.FromQp, Connection.FromRcq, Connection.FromCq, Connection.FromCmId;
    QpFirst(p.live, conn);
    p.Release(conn.base.qp);
    RcqFirst(p.live, conn);
    var _ := CqDelete(p, conn.base.rcq);
    ErrConnCqDelete(p, conn);
  }

  // The teardown itself: each stage runs the next, or jumps to the matching label when it fails.

  method DeleteFromChannel(p: Provider, conn: Connection) returns (ret: int)
    requires p.Valid() && conn.Ok() && p.Under(conn.evch) == {}
    requires Holds(p.live, conn.FromChannel())
    modifies p`clock, p`failures, p`live, p`orphaned
    ensures p.Valid() && p.failures >= old(p.failures) && p.clock >= old(p.clock) && p.orphaned == old(p.orphaned)
    ensures p.live == old(p.live) - conn.FromChannel()
    ensures ret in {0, E_PROVIDER} && (ret == 0 <==> p.failures == old(p.failures))
  {
    hide Holds, Connection.Ok, Connection.FromCmId, Connection.FromChannel, Connection.FromEvch, Provider.Valid;
    ret := 0;
    ChannelFirst(p.live, conn);
    if conn.base.channel.Some? {
      var err := p.Destroy(conn.base.channel.value);
      if err {
        ret := E_PROVIDER;
      }
    }
    assert p.live == old(p.live) - ChannelPart(conn.base.channel);
    ErrDestroyEventChannel(p, conn);
  }

  method DeleteFromId(p: Provider, conn: Connection) returns (ret: int)
    requires p.Valid() && conn.Ok() && conn.Alone(p)
    requires Holds(p.live, conn.FromCmId())
    modifies p`clock, p`failures, p`live, p`attached, p`orphaned
    ensures p.Valid() && p.failures >= old(p.failures) && p.clock >= old(p.clock)
    ensures p.live == old(p.live) - conn.FromCmId()
    ensures p.attached == old(p.attached) - {conn.base.id} && p.orphaned == old(p.orphaned)
    ensures ret in {0, E_PROVIDER} && (ret == 0 <==> p.failures == old(p.failures))
  {
    hide Holds, Connection.Ok, Connection.FromCmId, Connection.FromChannel, Connection.FromEvch, Provider.Valid;
    IdFirst(p.live, conn);
    var err := p.DestroyId(conn.base.id);
    if err {
      ErrDestroyChannel(p, conn);
      return E_PROVIDER;
    }
    ret := DeleteFromChannel(p, conn);
  }

  method DeleteFromCq(p: Provider, conn: Connection) returns (ret: int)
    requires p.Valid() && conn.Ok() && conn.Alone(p)
    requires Holds(p.live, conn.FromCq())
    modifies p`clock, p`failures, p`live, p`attached, p`orphaned
    ensures p.Valid() && p.failures >= old(p.failures) && p.clock >= old(p.clock)
    ensures p.live == old(p.live) - conn.FromCq()
    ensures p.attached == old(p.attached) - {conn.base.id} && p.orphaned == old(p.orphaned)
    ensures ret in {0, E_PROVIDER} && (ret == 0 <==> p.failures == old(p.failures))
  {
    hide Holds, CqPart, CqOk, Provider.Valid, Provider.Under;
    hide Connection.Ok, Connection.FromQp, Connection.FromRcq, Connection.FromCq, Connection.FromCmId;
    CqFirst(p.live, conn);
    ret := CqDelete(p, conn.base.cq);
    if ret != 0 {
      ErrDestroyId(p, conn);
      return;
    }
    ret := DeleteFromId(p, conn);
  }

  method DeleteFromQp(p: Provider, conn: Connection) returns (ret: int)
    requires p.Valid() && conn.Ok() && conn.Alone(p)
    requires Holds(p.live, conn.FromQp())
    modifies p`clock, p`failures, p`live, p`attached, p`orphaned
    ensures p.Valid() && p.failures >= old(p.failures) && p.clock >= old(p.clock)
    ensures p.live == old(p.live) - conn.FromQp()
    ensures p.attached == old(p.attached) - {conn.base.id} && p.orphaned == old(p.orphaned)
    ensures ret in {0, E_PROVIDER} && (ret == 0 <==> p.failures == old(p.failures))
  {
    hide Holds, CqPart, CqOk, Provider.Valid, Provider.Under;
    hide Connection.Ok, Connection.FromQp, Connection.FromRcq, Connection.FromCq, Connection.FromCmId;
    QpFirst(p.live, conn);
    p.Release(conn.base.qp);
    RcqFirst(p.live, conn);
    ret := CqDelete(p, conn.base.rcq);
    if ret != 0 {
      ErrConnCqDelete(p, conn);
      return;
    }
    ret := DeleteFromCq(p, conn);
  }

  /** Delete a connection: every destructor is called once and in order whichever of them fail, and
      the first failure is reported (only a failed unmap of the flush page is not a provider error). */
  method Disconnect(p: Provider, conn: Connection) returns (ret: int)
    requires p.Valid() && conn.Ok() && conn.Alone(p)
    requires Holds(p.live, conn.Part())
    modifies p`clock, p`failures, p`live, p`attached, p`orphaned
    ensures p.Valid() && p.failures >= old(p.failures) && p.clock >= old(p.clock) && p.live == old(p.live) - conn.Part()
    ensures p.attached == old(p.attached) - {conn.base.id} && p.orphaned == old(p.orphaned)
    ensures ret in {0, E_PROVIDER, E_INVAL} && (ret == 0 <==> p.failures == old(p.failures))
    ensures ret == E_INVAL <==> !p.fails(old(p.clock)) && p.fails(old(p.clock) + 1)
  {
    hide Holds, FlushPart, FlushOk, Connection.Ok, Connection.Part, Connection.FromQp, Provider.Valid, Provider.Under;
    FlushFirst(p.live, conn);
    ret := FlushDelete(p, conn.flush);
    if ret != 0 {
      ErrConnDestroyQp(p, conn);
      return;
    }
    ret := DeleteFromQp(p, conn);
  }

  /** Delete a connection through the caller's pointer, if one is given: it is cleared, and a pointer that
      is already clear is left alone. */
  method ConnDelete(p: Provider, given: bool, conn: Option<Connection>) returns (ret: int, conn': Option<Connection>)
    requires p.Valid()
    requires given && conn.Some? ==>
               conn.value.Ok() && conn.value.Alone(p) && Holds(p.live, conn.value.Part())
    modifies p`clock, p`failures, p`live, p`attached, p`orphaned
    ensures p.Valid() && p.failures >= old(p.failures) && p.clock >= old(p.clock) && p.orphaned == old(p.orphaned)
    ensures !given ==> ret == E_INVAL && conn' == conn
    ensures given ==> conn' == None && (ret == 0 <==> p.failures == old(p.failures))
    ensures !given || conn == None ==> p.clock == old(p.clock) && p.live == old(p.live) && p.attached == old(p.attached)
    ensures given && conn.Some? ==>
              && p.live == old(p.live) - conn.value.Part()
              && p.attached == old(p.attached) - {conn.value.base.id}
              && ret in {0, E_PROVIDER, E_INVAL}
              && (ret == E_INVAL <==> !p.fails(old(p.clock)) && p.fails(old(p.clock) + 1))
  {
    hide Provider.Valid, Provider.Under;
    if !given {
      return E_INVAL, conn;
    }
    ret, conn' := 0, None;
    if conn.Some? {
      ret := Disconnect(p, conn.value);
    }
  }
}
