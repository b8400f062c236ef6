/** The completion queues of a connection that the library has built, the channels they are on, and a
    caller that waits and polls.  A channel delivers the handle of the queue that raised an event; the
    waits decide by that handle, or ignore it. */
module Completions {
  import opened Wrappers
  import opened Errors
  import opened Providers
  import opened Resources
  import opened Connections
  import opened Lifecycle

  // ---------------------------------------------------------------- the waits

  /** The queue a wait reports, and whether it is the receive queue. */
  datatype Pick = Pick(cq: Cq, isRcq: bool)

  /** The choice of the wait on a shared channel: compare the event's queue with the main queue, then with
      the receive queue. */
  function Chosen(b: Base, ev: Handle): Option<Pick>
  {
    if b.cq.Some? && b.cq.value.cq == ev then Some(Pick(b.cq.value, false))
    else if b.rcq.Some? && b.rcq.value.cq == ev then Some(Pick(b.rcq.value, true))
    else None
  }

  /** The queues of the connection. */
  function Own(b: Base): set<Handle>
    requires b.cq.Some?
  {
    {b.cq.value.cq} + if b.rcq.Some? then {b.rcq.value.cq} else {}
  }

  /** The completion queue ev is live and raises its events in channel. */
  predicate RaisesIn(live: set<Handle>, ev: Handle, channel: Handle)
  {
    ev in live && ev.kind == CompQueue && channel in ev.on
  }

  ghost predicate Built(live: set<Handle>, conn: Connection)
  {
    conn.Ok() && Holds(live, conn.Part())
  }

  /** Whatever else is live, nothing but the connection's own queues raises events in its shared channel,
      and nothing but the queue itself in a channel of its own. */
  lemma OnlyOwnQueues(live: set<Handle>, conn: Connection, ev: Handle, channel: Handle)
    requires Built(live, conn) && RaisesIn(live, ev, channel)
    ensures conn.base.channel == Some(channel) ==> ev in Own(conn.base)
    ensures forall c :: c in {conn.base.cq, conn.base.rcq} && c.Some? && !c.value.shared ==>
              c.value.channel == channel ==> ev == c.value.cq
  {
    if ev in conn.Part() {
      QueuesInPart(conn, ev);
    } else {
      assert channel !in conn.Part();
    }
  }

  lemma QueuesInPart(conn: Connection, ev: Handle)
    requires conn.Ok() && ev in conn.Part() && ev.kind == CompQueue
    ensures ev in Own(conn.base)
  {
  }

  /** The choice is never the unknown queue; it is the queue that raised the event, and it is called the
      receive queue exactly if receives complete there and sends do not. */
  lemma ChoiceIsRight(live: set<Handle>, conn: Connection, ev: Handle)
    requires Built(live, conn) && conn.base.channel.Some? && RaisesIn(live, ev, conn.base.channel.value)
    ensures Chosen(conn.base, ev).Some? && Chosen(conn.base, ev).value.cq.cq == ev
    ensures var attr := conn.base.attr;
            Chosen(conn.base, ev).value.isRcq <==> ev == attr.recvCq && ev != attr.sendCq
  {
    OnlyOwnQueues(live, conn, ev, conn.base.channel.value);
    QueuesDistinct(conn);
  }

  lemma QueuesDistinct(conn: Connection)
    requires conn.Ok()
    ensures conn.base.rcq.Some? ==> conn.base.cq.value.cq != conn.base.rcq.value.cq
  {
    assert conn.base.cq.value.cq in CqPart(conn.base.cq);
  }

  /** A wait on the connection's shared channel, or on one queue with a channel of its own. */
  datatype Wait = OnConn | OnCq(cq: Cq)

  /** What a wait reports when queue ev raised the event; the wait on one queue does not look at ev. */
  function Reported(b: Base, w: Wait, ev: Handle): Option<Pick>
  {
    match w
    case OnConn => Chosen(b, ev)
    case OnCq(c) => Some(Pick(c, b.rcq == Some(c)))
  }

  /** Which queue it acknowledges the event on, and arms again. */
  function AckedOn(w: Wait, ev: Handle): Handle
  {
    match w case OnConn => ev case OnCq(c) => c.cq
  }

  /** Wait on the shared channel; `ev` is the queue whose event the channel delivers, if any, and
      `rearmed` tells whether the queue could be armed again. */
  method ConnWait(ghost live: set<Handle>, conn: Connection, ev: Option<Handle>, rearmed: bool)
      returns (ret: int, pick: Option<Pick>, acked: Option<Handle>)
    requires Built(live, conn)
    requires conn.base.channel.Some? && ev.Some? ==> RaisesIn(live, ev.value, conn.base.channel.value)
    ensures ret == if conn.base.channel.None? then E_NOT_SHARED_CHNL
                   else if ev.None? then E_NO_COMPLETION
                   else if !rearmed then E_PROVIDER
                   else 0
    ensures acked == if conn.base.channel.Some? then ev else None
    ensures ret != 0 ==> pick == None
    ensures ret == 0 ==>
              && pick.Some? && pick.value.cq.cq == ev.value
              && (pick.value.isRcq <==> ev.value == conn.base.attr.recvCq && ev.value != conn.base.attr.sendCq)
    ensures ret == 0 ==> pick == Reported(conn.base, OnConn, ev.value)
    ensures acked.Some? ==> acked.value == AckedOn(OnConn, ev.value)
  {
    hide Built;
    pick, acked := None, None;
    if conn.base.channel.None? {
      return E_NOT_SHARED_CHNL, None, None;
    }
    if ev.None? {
      return E_NO_COMPLETION, None, None;
    }
    ChoiceIsRight(live, conn, ev.value);
    pick := Chosen(conn.base, ev.value);
    if pick.None? {
      return E_UNKNOWN, None, None;
    }
    acked := ev;
    if !rearmed {
      return E_PROVIDER, None, acked;
    }
    ret := 0;
  }

  /** Wait on one queue of the connection; the event is acknowledged on that queue without a look at the
      one that raised it, and it is the same. */
  method CqWait(ghost live: set<Handle>, ghost conn: Connection, c: Cq, ev: Option<Handle>, rearmed: bool)
      returns (ret: int, acked: Option<Handle>)
    requires Built(live, conn) && Some(c) in {conn.base.cq, conn.base.rcq}
    requires !c.shared && ev.Some? ==> RaisesIn(live, ev.value, c.channel)
    ensures ret == if c.shared then E_SHARED_CHANNEL
                   else if ev.None? then E_NO_COMPLETION
                   else if !rearmed then E_PROVIDER
                   else 0
    ensures acked == if c.shared then None else ev
    ensures acked.Some? ==> acked.value == AckedOn(OnCq(c), ev.value)
  {
    hide Built;
    if c.shared {
      return E_SHARED_CHANNEL, None;
    }
    if ev.None? {
      return E_NO_COMPLETION, None;
    }
    OnlyOwnQueues(live, conn, ev.value, c.channel);
    acked := Some(c.cq);
    ret := if rearmed then 0 else E_PROVIDER;
  }

  // ---------------------------------------------------------------- the machine

  datatype Work = SendWork | RecvWork

  /** A queue: armed or not, its events pending in the channel, the completions it holds, by kind, and
      how many of its events have been taken and acknowledged. */
  datatype Queue = Queue(armed: bool, events: nat, sends: nat, recvs: nat, taken: nat, acks: nat)

  /** The caller is about to wait, its wait has got an event, it polls the queue a wait returned, or a wait
      has failed. */
  datatype Caller = Ready | Taken(wait: Wait, ev: Handle) | Polling(pick: Pick) | Broken

  /** All live resources, the connection, every queue, and the caller. */
  datatype State = State(live: set<Handle>, conn: Connection, qs: map<Handle, Queue>, caller: Caller)

  datatype Step =
    | Arrive(work: Work)            // an operation of the connection completes
    | Elsewhere(h: Handle, q: Queue)  // anything happens to a queue that is not the connection's
    | Change(live: set<Handle>)     // resources come and go around the connection
    | Take(wait: Wait, ev: Handle)  // a wait gets an event of queue ev from its channel
    | Return(rearmed: bool)         // the wait acknowledges it, re-arms the queue and returns
    | Poll(sends: nat, recvs: nat)
    | Leave                         // the caller stops polling

  const NEVER_USED := Queue(false, 0, 0, 0, 0, 0)

  function Of(st: State, h: Handle): Queue
  {
    if h in st.qs then st.qs[h] else NEVER_USED
  }

  /** The queue that the queue pair was created to complete an operation on. */
  function Target(b: Base, w: Work): Handle
  {
    match w case SendWork => b.attr.sendCq case RecvWork => b.attr.recvCq
  }

  function Size(q: Queue): nat
  {
    q.sends + q.recvs
  }

  function Added(q: Queue, w: Work): Queue
  {
    var q' := if w.SendWork? then q.(sends := q.sends + 1) else q.(recvs := q.recvs + 1);
    if q.armed then q'.(armed := false, events := q.events + 1) else q'
  }

  /** The waits that the library does not refuse at once. */
  predicate Callable(b: Base, w: Wait)
  {
    match w
    case OnConn => b.channel.Some?
    case OnCq(c) => Some(c) in {b.cq, b.rcq} && !c.shared
  }

  function ChannelOf(b: Base, w: Wait): Handle
    requires Callable(b, w)
  {
    match w case OnConn => b.channel.value case OnCq(c) => c.channel
  }

  /** `drains`: the caller polls until the queue is empty before it leaves. */
  ghost predicate Enabled(drains: bool, st: State, t: Step)
    requires st.conn.base.cq.Some?
  {
    match t
    case Arrive(_) => true
    case Elsewhere(h, _) => h !in Own(st.conn.base)
    case Change(live) => Built(live, st.conn)
    case Take(w, ev) =>
      && st.caller.Ready? && Callable(st.conn.base, w) && RaisesIn(st.live, ev, ChannelOf(st.conn.base, w))
      && Of(st, ev).events > 0
    case Return(_) => st.caller.Taken?
    case Poll(a, b) =>
      && st.caller.Polling?
      && a <= Of(st, st.caller.pick.cq.cq).sends && b <= Of(st, st.caller.pick.cq.cq).recvs
    case Leave => st.caller.Polling? && (drains ==> Size(Of(st, st.caller.pick.cq.cq)) == 0)
  }

  ghost function Apply(drains: bool, st: State, t: Step): State
    requires st.conn.base.cq.Some? && Enabled(drains, st, t)
  {
    match t
    case Arrive(w) => var h := Target(st.conn.base, w); st.(qs := st.qs[h := Added(Of(st, h), w)])
    case Elsewhere(h, q) => st.(qs := st.qs[h := q])
    case Change(live) => st.(live := live)
    case Take(w, ev) =>
      var q := Of(st, ev);
      st.(qs := st.qs[ev := q.(events := q.events - 1, taken := q.taken + 1)], caller := Taken(w, ev))
    case Return(rearmed) => Returned(st, rearmed)
    case Poll(a, b) =>
      var h := st.caller.pick.cq.cq;
      st.(qs := st.qs[h := Of(st, h).(sends := Of(st, h).sends - a, recvs := Of(st, h).recvs - b)])
    case Leave => st.(caller := Ready)
  }

  function Returned(st: State, rearmed: bool): State
    requires st.caller.Taken?
  {
    var pick, h := Reported(st.conn.base, st.caller.wait, st.caller.ev), AckedOn(st.caller.wait, st.caller.ev);
    var q := Of(st, h);
    if pick.None? then st.(caller := Broken)  // an unknown queue: nothing is acknowledged
    else if rearmed then
      st.(qs := st.qs[h := q.(armed := true, acks := q.acks + 1)], caller := Polling(pick.value))
    else st.(qs := st.qs[h := q.(acks := q.acks + 1)], caller := Broken)
  }

  /** A connection just built: its queues are armed. */
  ghost predicate Init(st: State)
  {
    && Built(st.live, st.conn) && st.caller.Ready?
    && forall h :: h in Own(st.conn.base) ==> Of(st, h) == NEVER_USED.(armed := true)
  }

  function One(b: bool): nat { if b then 1 else 0 }

  /** The wait under way has taken an event of this queue. */
  predicate TakenFrom(st: State, h: Handle)
  {
    st.caller.Taken? && st.caller.ev == h
  }

  /** The queue is armed, or its event is pending, or its event has been taken: exactly one of them,
      unless a wait has failed; and every event of it that was taken has been acknowledged on it once,
      save one just taken. */
  predicate OneSignal(st: State, h: Handle)
  {
    && (!st.caller.Broken? ==> One(Of(st, h).armed) + Of(st, h).events + One(TakenFrom(st, h)) == 1)
    && Of(st, h).taken == Of(st, h).acks + One(TakenFrom(st, h))
  }

  /** The caller holds an event of the channel it waits on, or polls a queue of its own under the right
      name. */
  predicate CallerOk(st: State)
  {
    var b := st.conn.base;
    match st.caller
    case Taken(w, ev) => Callable(b, w) && RaisesIn(st.live, ev, ChannelOf(b, w))
    case Polling(pick) => Named(b, pick)
    case _ => true
  }

  predicate Named(b: Base, pick: Pick)
  {
    && Some(pick.cq) in {b.cq, b.rcq}
    && (pick.isRcq <==> pick.cq.cq == b.attr.recvCq && pick.cq.cq != b.attr.sendCq)
  }

  ghost predicate SignalInv(st: State)
  {
    && Built(st.live, st.conn) && CallerOk(st)
    && (forall h :: h in Own(st.conn.base) ==> OneSignal(st, h))
    && (st.conn.base.rcq.Some? ==>
          Of(st, st.conn.base.cq.value.cq).recvs == 0 && Of(st, st.conn.base.rcq.value.cq).sends == 0)
  }

  /** In every reachable state a wait that has an event knows its queue, reports it under the right name,
      and acknowledges the event on the queue that raised it. */
  lemma WaitIsRight(st: State)
    requires Built(st.live, st.conn) && CallerOk(st) && st.caller.Taken?
    ensures var b, w, ev := st.conn.base, st.caller.wait, st.caller.ev;
            && ev in Own(b) && AckedOn(w, ev) == ev
            && Reported(b, w, ev).Some? && Reported(b, w, ev).value.cq.cq == ev && Named(b, Reported(b, w, ev).value)
  {
    var b, w, ev := st.conn.base, st.caller.wait, st.caller.ev;
    OnlyOwnQueues(st.live, st.conn, ev, ChannelOf(b, w));
    QueuesDistinct(st.conn);
    AttrOf(st.conn);
  }

  lemma AttrOf(conn: Connection)
    requires conn.Ok()
    ensures conn.base.cq.Some? && conn.base.attr == QpAttrOf(conn.base.cq.value, conn.base.rcq)
    ensures conn.base.attr.sendCq in Own(conn.base) && conn.base.attr.recvCq in Own(conn.base)
  {
  }

  lemma BuiltOk(live: set<Handle>, conn: Connection)
    requires Built(live, conn)
    ensures conn.Ok()
  {
  }

  /** The step keeps the invariant, and breaks the wait only if the queue cannot be armed again. */
  ghost predicate Keeps(drains: bool, st: State, t: Step)
    requires SignalInv(st) && Enabled(drains, st, t)
  {
    var st' := Apply(drains, st, t);
    SignalInv(st') && (st'.caller.Broken? ==> st.caller.Broken? || t == Return(false))
  }

  lemma ArriveKeeps(drains: bool, st: State, w: Work)
    requires SignalInv(st)
    ensures Keeps(drains, st, Arrive(w))
  {
    hide Built, Connection.Ok, Callable, RaisesIn, Named;
    BuiltOk(st.live, st.conn);
    AttrOf(st.conn);
    QueuesDistinct(st.conn);
  }

  lemma ReturnKeeps(drains: bool, st: State, rearmed: bool)
    requires SignalInv(st) && st.caller.Taken?
    ensures Keeps(drains, st, Return(rearmed))
  {
    hide Built, Connection.Ok, Reported, Callable, RaisesIn, Named;
    WaitIsRight(st);
  }

  lemma TakeKeeps(drains: bool, st: State, w: Wait, ev: Handle)
    requires SignalInv(st) && Enabled(drains, st, Take(w, ev))
    ensures Keeps(drains, st, Take(w, ev))
  {
    hide Built, Connection.Ok, Callable, RaisesIn, Named;
  }

  lemma PollKeeps(drains: bool, st: State, a: nat, b: nat)
    requires SignalInv(st) && Enabled(drains, st, Poll(a, b))
    ensures Keeps(drains, st, Poll(a, b))
  {
    hide Built, Connection.Ok, Callable, RaisesIn, Named;
  }

  /** A queue whose event has been taken is the connection's own, and so outlives every change. */
  lemma ChangeKeeps(drains: bool, st: State, live: set<Handle>)
    requires SignalInv(st) && Enabled(drains, st, Change(live))
    ensures Keeps(drains, st, Change(live))
  {
    hide Built, Connection.Ok, Callable, Named, Own, RaisesIn;
    if st.caller.Taken? {
      OutlivesChange(st.live, live, st.conn, st.caller.wait, st.caller.ev);
    }
  }

  lemma OutlivesChange(live: set<Handle>, live': set<Handle>, conn: Connection, w: Wait, ev: Handle)
    requires Callable(conn.base, w) && Built(live, conn) && Built(live', conn)
    requires RaisesIn(live, ev, ChannelOf(conn.base, w))
    ensures RaisesIn(live', ev, ChannelOf(conn.base, w))
  {
    OwnRaises(live, conn, w, ev);
    OwnInPart(conn, ev);
  }

  lemma OwnInPart(conn: Connection, h: Handle)
    requires conn.base.cq.Some? && h in Own(conn.base)
    ensures h in conn.Part()
  {
  }

  lemma OtherKeeps(drains: bool, st: State, t: Step)
    requires SignalInv(st) && Enabled(drains, st, t) && (t.Elsewhere? || t.Leave?)
    ensures Keeps(drains, st, t)
  {
    hide Built, Connection.Ok, Callable, RaisesIn, Named;
  }

  /** With or without draining, every step keeps arming and events in step, every event acknowledged on
      the queue that raised it, and every completion on the queue it belongs to. */
  lemma KeepSignals(drains: bool, st: State, t: Step)
    requires SignalInv(st) && Enabled(drains, st, t)
    ensures Keeps(drains, st, t)
  {
    hide Keeps, Apply;
    match t
    case Arrive(w) => ArriveKeeps(drains, st, w);
    case Return(rearmed) => ReturnKeeps(drains, st, rearmed);
    case Take(w, ev) => TakeKeeps(drains, st, w, ev);
    case Poll(a, b) => PollKeeps(drains, st, a, b);
    case Change(live) => ChangeKeeps(drains, st, live);
    case _ => OtherKeeps(drains, st, t);
  }

  // ---------------------------------------------------------------- whole runs

  ghost predicate Runs(drains: bool, st: State, ts: seq<Step>)
    decreases |ts|
  {
    ts == [] ||
      (st.conn.base.cq.Some? && Enabled(drains, st, ts[0]) && Runs(drains, Apply(drains, st, ts[0]), ts[1..]))
  }

  ghost function Final(drains: bool, st: State, ts: seq<Step>): State
    requires Runs(drains, st, ts)
    decreases |ts|
  {
    if ts == [] then st else Final(drains, Apply(drains, st, ts[0]), ts[1..])
  }

  lemma {:induction false} RunsKeepSignals(drains: bool, st: State, ts: seq<Step>)
    requires SignalInv(st) && Runs(drains, st, ts)
    ensures SignalInv(Final(drains, st, ts))
    ensures !st.caller.Broken? && Return(false) !in ts ==> !Final(drains, st, ts).caller.Broken?
    decreases |ts|
  {
    hide Apply, Enabled, SignalInv;
    if ts != [] {
      KeepSignals(drains, st, ts[0]);
      assert ts[0] in ts && forall t :: t in ts[1..] ==> t in ts;
      RunsKeepSignals(drains, Apply(drains, st, ts[0]), ts[1..]);
    }
  }

  lemma InitSignals(st: State)
    requires Init(st)
    ensures SignalInv(st) && !st.caller.Broken? && st.conn.base.cq.Some?
  {
    hide Built;
    BuiltOk(st.live, st.conn);
    AttrOf(st.conn);
  }

  /** For every connection the library has built, in every run, drained or not, whatever other queues do and
      whatever resources come and go beside it, as long as queues can be armed again: no wait meets an
      unknown queue; each queue is at all times exactly one of armed, pending and taken; every event is
      acknowledged once, on the queue that raised it; the receive queue is reported as such and no other;
      and a main queue beside a receive queue never carries a receive completion. */
  lemma SharedChannelSound(drains: bool, st0: State, ts: seq<Step>)
    requires Init(st0) && Runs(drains, st0, ts) && Return(false) !in ts
    ensures var st := Final(drains, st0, ts);
            && SignalInv(st) && !st.caller.Broken?
            && (st.caller.Taken? ==>
                  var pick := Reported(st.conn.base, st.caller.wait, st.caller.ev);
                  pick.Some? && pick.value.cq.cq == AckedOn(st.caller.wait, st.caller.ev) == st.caller.ev)
  {
    hide Init;
    InitSignals(st0);
    RunsKeepSignals(drains, st0, ts);
    var st := Final(drains, st0, ts);
    if st.caller.Taken? {
      WaitIsRight(st);
    }
  }

  // ---------------------------------------------------------------- lost wakeups

  /** Nothing waits unannounced, except in the queue the caller is busy with. */
  predicate Announced(st: State, h: Handle)
  {
    Size(Of(st, h)) > 0 ==>
      || Of(st, h).events > 0 || TakenFrom(st, h) || st.caller.Broken?
      || (st.caller.Polling? && st.caller.pick.cq.cq == h)
  }

  lemma ReturnAnnounced(st: State, rearmed: bool, h: Handle)
    requires st.conn.base.cq.Some? && st.caller.Taken? && h in Own(st.conn.base) && Announced(st, h)
    requires SignalInv(st)
    ensures Announced(Returned(st, rearmed), h)
  {
    hide Built, Connection.Ok, Reported, Callable, RaisesIn, Named;
    WaitIsRight(st);
  }

  lemma ArrivalAnnounced(st: State, w: Work, h: Handle)
    requires SignalInv(st) && h in Own(st.conn.base) && Announced(st, h)
    ensures Announced(Apply(true, st, Arrive(w)), h)
  {
    hide Built, Connection.Ok, Callable, RaisesIn, Named;
    assert OneSignal(st, h);
  }

  /** A drained queue stays announced: what arrives after the re-arming raises an event. */
  lemma StillAnnounced(st: State, t: Step, h: Handle)
    requires SignalInv(st) && st.conn.base.cq.Some? && h in Own(st.conn.base) && Announced(st, h)
    requires Enabled(true, st, t)
    ensures Announced(Apply(true, st, t), h)
  {
    hide Apply, Announced, SignalInv, Own, Of, RaisesIn, Callable;
    match t
    case Arrive(w) => ArrivalAnnounced(st, w, h);
    case Return(rearmed) =>
      ReturnAnnounced(st, rearmed, h);
      ReturnApplied(st, rearmed);
    case Take(w, ev) => TakeAnnounced(st, w, ev, h);
    case Poll(a, b) => PollAnnounced(st, a, b, h);
    case Elsewhere(g, q) => ElsewhereAnnounced(st, g, q, h);
    case Change(live) => ChangeAnnounced(st, live, h);
    case Leave =>
      LeaveDrained(st);
      LeaveIsReady(st);
      LeaveAnnounced(st, Apply(true, st, t), h);
  }

  lemma ReturnApplied(st: State, rearmed: bool)
    requires st.conn.base.cq.Some? && st.caller.Taken?
    ensures Apply(true, st, Return(rearmed)) == Returned(st, rearmed)
  {
  }

  lemma TakeAnnounced(st: State, w: Wait, ev: Handle, h: Handle)
    requires st.conn.base.cq.Some? && Announced(st, h) && Enabled(true, st, Take(w, ev))
    ensures Announced(Apply(true, st, Take(w, ev)), h)
  {
    hide Callable, RaisesIn;
  }

  lemma PollAnnounced(st: State, a: nat, b: nat, h: Handle)
    requires st.conn.base.cq.Some? && Announced(st, h) && Enabled(true, st, Poll(a, b))
    ensures Announced(Apply(true, st, Poll(a, b)), h)
  {
  }

  lemma ElsewhereAnnounced(st: State, g: Handle, q: Queue, h: Handle)
    requires st.conn.base.cq.Some? && Announced(st, h) && h != g && Enabled(true, st, Elsewhere(g, q))
    ensures Announced(Apply(true, st, Elsewhere(g, q)), h)
  {
    hide Own;
  }

  lemma ChangeAnnounced(st: State, live: set<Handle>, h: Handle)
    requires st.conn.base.cq.Some? && Announced(st, h) && Enabled(true, st, Change(live))
    ensures Announced(Apply(true, st, Change(live)), h)
  {
    hide Built;
  }

  lemma LeaveDrained(st: State)
    requires st.conn.base.cq.Some? && Enabled(true, st, Leave)
    ensures st.caller.Polling? && Size(Of(st, st.caller.pick.cq.cq)) == 0
  {
  }

  lemma LeaveIsReady(st: State)
    requires st.conn.base.cq.Some? && Enabled(true, st, Leave)
    ensures Apply(true, st, Leave).qs == st.qs && Apply(true, st, Leave).caller.Ready?
  {
  }

  lemma LeaveAnnounced(st: State, st': State, h: Handle)
    requires st.caller.Polling? && Size(Of(st, st.caller.pick.cq.cq)) == 0 && Announced(st, h)
    requires st'.qs == st.qs && st'.caller.Ready?
    ensures Announced(st', h)
  {
    assert Size(Of(st, h)) > 0 ==> Of(st, h).events > 0;
  }

  ghost predicate AllAnnounced(st: State)
    requires st.conn.base.cq.Some?
  {
    forall h :: h in Own(st.conn.base) ==> Announced(st, h)
  }

  lemma {:induction false} RunsKeepAnnounced(st: State, ts: seq<Step>)
    requires st.conn.base.cq.Some? && SignalInv(st) && AllAnnounced(st) && Runs(true, st, ts)
    ensures Final(true, st, ts).conn == st.conn
    ensures SignalInv(Final(true, st, ts)) && AllAnnounced(Final(true, st, ts))
    decreases |ts|
  {
    hide SignalInv, Enabled, Apply, AllAnnounced;
    if ts != [] {
      KeepSignals(true, st, ts[0]);
      StepAnnounced(st, ts[0]);
      RunsKeepAnnounced(Apply(true, st, ts[0]), ts[1..]);
    }
  }

  lemma SameConnection(drains: bool, st: State, t: Step)
    requires st.conn.base.cq.Some? && Enabled(drains, st, t)
    ensures Apply(drains, st, t).conn == st.conn
  {
  }

  lemma StepAnnounced(st: State, t: Step)
    requires st.conn.base.cq.Some? && SignalInv(st) && AllAnnounced(st) && Enabled(true, st, t)
    ensures Apply(true, st, t).conn == st.conn && AllAnnounced(Apply(true, st, t))
  {
    hide SignalInv, Enabled, Apply, Announced, Own;
    SameConnection(true, st, t);
    forall h | h in Own(st.conn.base)
      ensures Announced(Apply(true, st, t), h)
    {
      StillAnnounced(st, t, h);
    }
  }

  /** The caller is about to wait on a channel that holds no event, although a queue on it holds a
      completion. */
  ghost predicate Lost(st: State, w: Wait)
  {
    && st.caller.Ready? && Callable(st.conn.base, w)
    && (forall ev :: RaisesIn(st.live, ev, ChannelOf(st.conn.base, w)) ==> Of(st, ev).events == 0)
    && (exists ev :: RaisesIn(st.live, ev, ChannelOf(st.conn.base, w)) && Size(Of(st, ev)) > 0)
  }

  ghost predicate NotInVain(drains: bool, st: State, ts: seq<Step>, w: Wait)
  {
    Runs(drains, st, ts) ==> !Lost(Final(drains, st, ts), w)
  }

  lemma InitAnnounced(st: State)
    requires Init(st) && st.conn.base.cq.Some?
    ensures AllAnnounced(st)
  {
  }

  /** With a channel of its own, a queue is the only one that raises events there; on a shared one, the
      connection's queues are. */
  lemma OwnRaises(live: set<Handle>, conn: Connection, w: Wait, ev: Handle)
    requires Built(live, conn) && Callable(conn.base, w) && RaisesIn(live, ev, ChannelOf(conn.base, w))
    ensures conn.base.cq.Some? && ev in Own(conn.base)
  {
    OnlyOwnQueues(live, conn, ev, ChannelOf(conn.base, w));
  }

  lemma DrainedNotLost(st: State, ts: seq<Step>, w: Wait)
    requires Init(st) && Runs(true, st, ts)
    ensures !Lost(Final(true, st, ts), w)
  {
    hide Connection.Ok, Callable, RaisesIn, Init;
    InitSignals(st);
    InitAnnounced(st);
    RunsKeepAnnounced(st, ts);
    var st' := Final(true, st, ts);
    hide Built;
    if st'.caller.Ready? && Callable(st'.conn.base, w) {
      forall ev | RaisesIn(st'.live, ev, ChannelOf(st'.conn.base, w))
        ensures Announced(st', ev)
      {
        OwnRaises(st'.live, st'.conn, w, ev);
      }
    }
  }

  // ---------------------------------------------------------------- a caller that does not drain

  lemma {:induction false} RunExtends(drains: bool, st: State, ts: seq<Step>, t: Step)
    requires Runs(drains, st, ts)
    requires Final(drains, st, ts).conn.base.cq.Some? && Enabled(drains, Final(drains, st, ts), t)
    ensures Runs(drains, st, ts + [t])
    ensures Final(drains, st, ts + [t]) == Apply(drains, Final(drains, st, ts), t)
    decreases |ts|
  {
    hide Enabled, Apply;
    if ts == [] {
      assert [t][1..] == [];
    } else {
      RunExtends(drains, Apply(drains, st, ts[0]), ts[1..], t);
      assert (ts + [t])[1..] == ts[1..] + [t];
    }
  }

  ghost predicate Leads(st: State, ts: seq<Step>, st': State)
  {
    Runs(false, st, ts) && Final(false, st, ts) == st'
  }

  lemma Then(st: State, ts: seq<Step>, st1: State, t: Step) returns (ts': seq<Step>, st2: State)
    requires Leads(st, ts, st1) && st1.conn.base.cq.Some? && Enabled(false, st1, t)
    ensures Leads(st, ts', st2) && st2 == Apply(false, st1, t)
  {
    hide Enabled, Apply;
    RunExtends(false, st, ts, t);
    ts', st2 := ts + [t], Apply(false, st1, t);
  }

  /** The wait by which the main queue is waited for. */
  function MainWait(b: Base): Wait
    requires b.cq.Some?
  {
    if b.channel.Some? then OnConn else OnCq(b.cq.value)
  }

  lemma MainWaitWorks(live: set<Handle>, conn: Connection)
    requires Built(live, conn)
    ensures var b := conn.base;
            && b.cq.Some? && Callable(b, MainWait(b)) && RaisesIn(live, b.cq.value.cq, ChannelOf(b, MainWait(b)))
            && Target(b, SendWork) == b.cq.value.cq
            && Reported(b, MainWait(b), b.cq.value.cq) == Some(Pick(b.cq.value, b.rcq == b.cq))
            && AckedOn(MainWait(b), b.cq.value.cq) == b.cq.value.cq
            && b.rcq != b.cq
  {
    QueuesDistinct(conn);
  }

  /** The state with its main queue, and its caller, as given. */
  function WithMain(st: State, q: Queue, caller: Caller): State
    requires st.conn.base.cq.Some?
  {
    st.(qs := st.qs[st.conn.base.cq.value.cq := q], caller := caller)
  }

  lemma TwoArrived(st0: State) returns (ts: seq<Step>, st: State)
    requires Init(st0)
    ensures Leads(st0, ts, st) && st0.conn.base.cq.Some?
    ensures st == WithMain(st0, Queue(false, 0, 2, 0, 1, 0), Taken(MainWait(st0.conn.base), st0.conn.base.cq.value.cq))
  {
    hide Built, Callable, RaisesIn;
    MainWaitWorks(st0.live, st0.conn);
    var w, main := MainWait(st0.conn.base), st0.conn.base.cq.value.cq;
    ts, st := Then(st0, [], st0, Arrive(SendWork));
    ts, st := Then(st0, ts, st, Arrive(SendWork));
    ts, st := Then(st0, ts, st, Take(w, main));
  }

  /** Two completions, one event, one poll. */
  lemma HalfDrained(st0: State) returns (ts: seq<Step>, st: State)
    requires Init(st0)
    ensures Leads(st0, ts, st) && st0.conn.base.cq.Some?
    ensures st == WithMain(st0, Queue(true, 0, 1, 0, 1, 1), Ready)
  {
    hide Built, Callable, RaisesIn, Init;
    ts, st := TwoArrived(st0);
    MainWaitWorks(st0.live, st0.conn) by {
      InitSignals(st0);
    }
    hide Reported, MainWait, AckedOn;
    ts, st := Then(st0, ts, st, Return(true));
    ts, st := Then(st0, ts, st, Poll(1, 0));
    ts, st := Then(st0, ts, st, Leave);
  }

  lemma HalfDrainedLost(st0: State) returns (ts: seq<Step>)
    requires Init(st0)
    ensures st0.conn.base.cq.Some? && !NotInVain(false, st0, ts, MainWait(st0.conn.base))
  {
    var st;
    ts, st := HalfDrained(st0);
    hide Built, Callable, RaisesIn;
    MainWaitWorks(st0.live, st0.conn);
    var w, main := MainWait(st0.conn.base), st0.conn.base.cq.value.cq;
    forall ev | RaisesIn(st.live, ev, ChannelOf(st.conn.base, w))
      ensures Of(st, ev).events == 0
    {
      OwnRaises(st.live, st.conn, w, ev);
    }
    assert Size(Of(st, main)) > 0;
  }

  /** On every connection the library has built: a caller never waits in vain, in any run, if and only if it
      drains the queue after each wait. */
  lemma NoLostWakeupIff(drains: bool, st0: State)
    requires Init(st0)
    ensures drains <==> forall ts, w :: NotInVain(drains, st0, ts, w)
  {
    hide Init, Runs, Final, Lost, MainWait;
    if drains {
      forall ts, w
        ensures NotInVain(drains, st0, ts, w)
      {
        if Runs(drains, st0, ts) {
          DrainedNotLost(st0, ts, w);
        }
      }
    } else {
      var ts := HalfDrainedLost(st0);
      assert !NotInVain(drains, st0, ts, MainWait(st0.conn.base));
    }
  }

  // ---------------------------------------------------------------- from a request to such a connection

  /** Connecting a request gives a connection for which all of the above holds, with the queues and the
      channel that the request was configured with. */
  method ConnectAndWatch(p: Provider, req: Request) returns (ret: int, st: Option<State>)
    requires p.Valid() && req.Ok() && Holds(p.live, req.Part()) && Holds(p.live, req.Part() + {req.base.id})
    modifies p
    ensures p.Valid()
    ensures ret == 0 <==> Quiet(p.fails, old(p.clock), old(p.clock) + CONNECT_CALLS)
    ensures ret == 0 ==> st.Some? && Init(st.value) && st.value.live == p.live && st.value.conn.base == req.base
  {
    hide Provider.Valid, Holds, Request.Ok, Request.Part, Connection.Ok, Connection.Part;
    var ret', req', conn := Connect(p, Some(req), true);
    ret, st := ret', None;
    if ret == 0 {
      BuiltOk(p.live, conn.value);
      AttrOf(conn.value);
      var armed := NEVER_USED.(armed := true);
      st := Some(State(p.live, conn.value, map h | h in Own(conn.value.base) :: armed, Ready));
    }
  }
}
