/** The events of an established connection and the private data they bring. */
module ConnEvents {
  import opened Wrappers
  import opened Errors
  import opened ByteStrings
  import opened Providers
  import opened Connections
  import opened Endpoints

  datatype CmEventKind =
    | Established | ConnectError | DeviceRemoval | Disconnected | TimewaitExit | Rejected | Unreachable | OtherKind

  datatype ConnEvent = ConnEstablished | ConnLost | ConnClosed | ConnRejected | ConnUnreachable

  /** The library's name for an event, if it has one. */
  function Translate(kind: CmEventKind): Option<ConnEvent>
  {
    match kind
    case Established => Some(ConnEstablished)
    case ConnectError => Some(ConnLost)
    case DeviceRemoval => Some(ConnLost)
    case Disconnected => Some(ConnClosed)
    case TimewaitExit => Some(ConnClosed)
    case Rejected => Some(ConnRejected)
    case Unreachable => Some(ConnUnreachable)
    case OtherKind => None
  }

  /** What the environment has in store for one call. */
  datatype Arrival = Arrival(kind: CmEventKind, bytes: Bytes)

  /** The arrival is an establishment that comes with private data. */
  predicate Brings(a: Arrival)
  {
    a.kind.Established? && a.bytes != []
  }

  /** The private data of the first establishment that brings some. */
  function FirstData(arrivals: seq<Arrival>): Bytes
  {
    if arrivals == [] then []
    else
      var n := |arrivals| - 1;
      var earlier := FirstData(arrivals[..n]);
      if earlier == [] && Brings(arrivals[n]) then arrivals[n].bytes else earlier
  }

  lemma {:induction false} FirstDataMeaning(arrivals: seq<Arrival>, k: nat)
    requires k < |arrivals| && Brings(arrivals[k]) && forall i :: 0 <= i < k ==> !Brings(arrivals[i])
    ensures FirstData(arrivals) == arrivals[k].bytes
  {
    var n := |arrivals| - 1;
    if k == n {
      NoData(arrivals[..n]);
    } else {
      FirstDataMeaning(arrivals[..n], k);
    }
  }

  lemma {:induction false} NoData(arrivals: seq<Arrival>)
    requires forall i :: 0 <= i < |arrivals| ==> !Brings(arrivals[i])
    ensures FirstData(arrivals) == []
  {
    if arrivals != [] {
      NoData(arrivals[..|arrivals| - 1]);
    }
  }

  /** The ledger has exchanged one copy of private data for another, or for none. */
  ghost predicate DataSwapped(live0: set<Handle>, live1: set<Handle>, had: Option<Data>, data: Option<Data>)
  {
    && live1 == live0 - DataPart(had) + DataPart(data)
    && (data == had || DataPart(data) !! live0)
    && (data.Some? ==> data.value.ptr.kind == Heap && data.value.ptr.on == {} && Unneeded(live1, data.value.ptr))
  }

  /** Copy the private data of an establishment, if the connection has none yet, and then acknowledge. */
  method StoreAndAck(p: Provider, had: Option<Data>, e: Event, kind: CmEventKind)
      returns (ret: int, data: Option<Data>, err: bool)
    requires p.Valid() && e.handle in p.live && e.handle.kind == CmEvent && e.handle.on == {}
    requires Unneeded(p.live, e.handle)
    modifies p`clock, p`failures, p`live
    ensures p.Valid() && p.failures >= old(p.failures) && p.clock >= old(p.clock)
    ensures ret in {0, E_NOMEM} && (ret == 0 && !err <==> p.failures == old(p.failures))
    ensures had.Some? || ret != 0 ==> data == had
    ensures var copied := had.None? && kind.Established? && e.bytes != [];
            && (ret != 0 <==> copied && p.fails(old(p.clock)))
            && p.clock == old(p.clock) + (if copied then 2 else 1) && err == p.fails(p.clock - 1)
    ensures had == None && ret == 0 ==> Copied(data, if kind.Established? then e.bytes else [])
    ensures data == had ==> p.live == old(p.live) - {e.handle}
    ensures data != had ==>
              && had == None && data.Some? && data.value.ptr == Handle(Heap, old(p.clock), {})
              && Acquired(old(p.live) - {e.handle}, p.live, {data.value.ptr})
  {
    hide Provider.Valid;
    ret, data := 0, had;
    if kind.Established? && had.None? {
      ret, data := StorePrivateData(p, e);
    }
    err := p.Destroy(e.handle);
  }

  /** The next event of a connection: acknowledged exactly once if one was taken, with its private data
      copied first; if the acknowledgement fails, the connection's private data is discarded. */
  method TakeEvent(p: Provider, evch: Handle, had: Option<Data>, a: Arrival, noEvent: bool)
      returns (ret: int, data: Option<Data>, event: Option<ConnEvent>)
    requires p.Valid() && evch in p.live
    requires DataPart(had) <= p.live && DataSwapped(p.live, p.live, had, had)
    modifies p`clock, p`failures, p`live, p`attached
    ensures p.Valid() && p.failures >= old(p.failures) && p.clock >= old(p.clock) && p.attached == old(p.attached)
    ensures DataSwapped(old(p.live), p.live, had, data)
    ensures p.clock >= old(p.clock) && (data.Some? && data != had ==> data.value.ptr.n >= old(p.clock))
    ensures p.failures == old(p.failures) ==>
              && (event == Some(ConnEstablished) <==> a.kind == Established)
              && (event == Some(ConnLost) <==> a.kind == ConnectError || a.kind == DeviceRemoval)
              && (event == Some(ConnClosed) <==> a.kind == Disconnected || a.kind == TimewaitExit)
              && (event == Some(ConnRejected) <==> a.kind == Rejected)
              && (event == Some(ConnUnreachable) <==> a.kind == Unreachable)
              && (event == None <==> a.kind == OtherKind)
              && ret == (if a.kind == OtherKind then E_UNKNOWN else 0)
              && (if had.Some? then data == had else Copied(data, if Brings(a) then a.bytes else []))
    ensures p.failures != old(p.failures) ==>
              && event == None && data in {had, None}
              && ret == if p.fails(old(p.clock)) then if noEvent then E_NO_EVENT else E_PROVIDER
                        else if had.None? && Brings(a) && p.fails(old(p.clock) + 1) then E_NOMEM
                        else E_PROVIDER
    ensures p.failures == old(p.failures) <==>
              Quiet(p.fails, old(p.clock), old(p.clock) + if had.None? && Brings(a) then 3 else 2)
    ensures had.Some? ==>
              && (data == had <==> p.fails(old(p.clock)) || !p.fails(old(p.clock) + 1))
              && p.clock == old(p.clock) + if p.fails(old(p.clock)) then 1 else 2
  {
    hide Provider.Valid;
    var ev, id := p.GetCmEvent(evch, false);
    if ev.None? {
      return if noEvent then E_NO_EVENT else E_PROVIDER, had, None;
    }
    event := None;
    var err;
    ret, data, err := StoreAndAck(p, had, Event(ev.value, id, false, a.bytes), a.kind);
    if ret == 0 {
      if err {
        ret := E_PROVIDER;
        Discard(p, data);
        data := None;
      } else {
        event := Translate(a.kind);
        ret := if event.Some? then 0 else E_UNKNOWN;
      }
    }
  }

  lemma PartWithData(conn: Connection, data: Option<Data>)
    requires conn.Ok()
    ensures conn.(data := data).Part() == conn.(data := None).Part() + DataPart(data)
    ensures DataPart(conn.data) !! conn.(data := None).Part()
    ensures forall g :: g in DataPart(conn.data) ==> g.on == {}
  {
  }

  lemma HoldsSwapped(live0: set<Handle>, live1: set<Handle>, bare: set<Handle>,
                     had: Option<Data>, data: Option<Data>)
    requires Holds(live0, bare + DataPart(had)) && DataPart(had) !! bare && DataSwapped(live0, live1, had, data)
    ensures Holds(live1, bare + DataPart(data)) && (data != had ==> DataPart(data) !! bare)
  {
  }

  lemma DataSound(conn: Connection, data: Option<Data>)
    requires conn.Ok() && DataPart(data) !! conn.(data := None).Part()
    requires data.Some? ==> data.value.ptr.kind == Heap && data.value.ptr.on == {}
    ensures conn.(data := data).Ok()
  {
  }

  /** A connection with its private data exchanged is as sound as before, and holds what it owns. */
  lemma StillHolds(live0: set<Handle>, live1: set<Handle>, conn: Connection, data: Option<Data>)
    requires conn.Ok() && Holds(live0, conn.Part()) && DataSwapped(live0, live1, conn.data, data)
    ensures conn.(data := data).Ok() && Holds(live1, conn.(data := data).Part())
  {
    PartWithData(conn, conn.data);
    PartWithData(conn, data);
    assert conn.(data := conn.data) == conn;
    HoldsSwapped(live0, live1, conn.(data := None).Part(), conn.data, data);
    DataSound(conn, data);
  }

  lemma HeapUnneeded(conn: Connection)
    requires conn.Ok()
    ensures forall g, h :: g in conn.Part() && h in g.on ==> h.kind != Heap
  {
    QpNeeds(conn);
    FlushBeforeQp(conn);
  }

  lemma DataHeld(live: set<Handle>, conn: Connection)
    requires conn.Ok() && Holds(live, conn.Part())
    ensures conn.evch in live && DataSwapped(live, live, conn.data, conn.data)
    ensures DataPart(conn.data) <= live
  {
    HeapUnneeded(conn);
    assert DataPart(conn.data) <= conn.Part();
  }

  /** On a connection with private data, n calls from time `clock` on acknowledge whatever event they get. */
  ghost predicate AcksSucceed(fails: nat -> bool, clock: nat, n: nat)
    decreases n
  {
    n == 0
    || (if fails(clock) then AcksSucceed(fails, clock + 1, n - 1)
        else !fails(clock + 1) && AcksSucceed(fails, clock + 2, n - 1))
  }

  /** Any number of events: the ledger always holds exactly the connection, with at most one copy of
      private data; data once present stays while acknowledgements succeed, whatever else fails; and
      while no call fails, absent data becomes a copy of what the first establishment with some brings. */
  method Pump(p: Provider, conn: Connection, arrivals: seq<Arrival>) returns (conn': Connection)
    requires p.Valid() && conn.Ok() && Holds(p.live, conn.Part())
    modifies p`clock, p`failures, p`live, p`attached
    ensures p.Valid() && p.clock >= old(p.clock) && p.attached == old(p.attached) && conn' == conn.(data := conn'.data)
    ensures conn'.Ok() && Holds(p.live, conn'.Part()) && DataSwapped(old(p.live), p.live, conn.data, conn'.data)
    ensures conn.data.Some? && AcksSucceed(p.fails, old(p.clock), |arrivals|) ==> conn'.data == conn.data
    ensures p.failures == old(p.failures) && conn.data.Some? ==> conn'.data == conn.data
    ensures p.failures == old(p.failures) && conn.data.None? ==> Copied(conn'.data, FirstData(arrivals))
  {
    hide Provider.Valid;
    DataHeld(p.live, conn);
    var data := PumpData(p, conn.evch, conn.data, arrivals);
    conn' := conn.(data := data);
    StillHolds(old(p.live), p.live, conn, data);
  }

  method PumpData(p: Provider, evch: Handle, had: Option<Data>, arrivals: seq<Arrival>) returns (data: Option<Data>)
    requires p.Valid() && evch in p.live && evch.kind == EventChannel
    requires DataPart(had) <= p.live && DataSwapped(p.live, p.live, had, had)
    modifies p`clock, p`failures, p`live, p`attached
    ensures p.Valid() && p.clock >= old(p.clock) && p.attached == old(p.attached)
    ensures DataSwapped(old(p.live), p.live, had, data)
    ensures had.Some? && AcksSucceed(p.fails, old(p.clock), |arrivals|) ==> data == had
    ensures p.failures == old(p.failures) && had.Some? ==> data == had
    ensures p.failures == old(p.failures) && had.None? ==> Copied(data, FirstData(arrivals))
  {
    hide Provider.Valid;
    LiveIsOld(p);
    data := had;
    for i := 0 to |arrivals|
      invariant p.Valid() && evch in p.live && p.failures >= old(p.failures) && p.attached == old(p.attached)
      invariant DataSwapped(old(p.live), p.live, had, data) && p.clock >= old(p.clock)
      invariant data.Some? && data != had ==> data.value.ptr.n >= old(p.clock)
      invariant had.Some? && AcksSucceed(p.fails, old(p.clock), |arrivals|) ==>
                  data == had && AcksSucceed(p.fails, p.clock, |arrivals| - i)
      invariant p.failures == old(p.failures) && had.Some? ==> data == had
      invariant p.failures == old(p.failures) && had.None? ==> Copied(data, FirstData(arrivals[..i]))
    {
      assert arrivals[..i + 1][..i] == arrivals[..i];
      var ret, event;
      ret, data, event := TakeEvent(p, evch, data, arrivals[i], false);
    }
    assert arrivals[..|arrivals|] == arrivals;
  }
}
