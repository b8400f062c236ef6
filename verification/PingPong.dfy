/** Two parties bounce a counter over one connection.  Each program, each queue pair, each completion
    queue and each completion channel moves on its own, in any order. */
module PingPong {

  /** The message that ends the exchange. */
  const I_M_DONE: nat := 0xFFFF_FFFF_FFFF_FFFF

  /** Most completions taken by one poll. */
  const MAX_N_WC := 2

  /** Where a program stands.  The client runs from Head, the server from Wait. */
  datatype Pc =
    | Head | PostRecv | WriteSend | PostSend | Wait | Rearm | Poll | Process | WriteDone | PostDone | Finished

  /** A posted send: none, not yet read by the adapter, under way, or delivered but not completed. */
  datatype Sending = NoSend | Queued | Sent | Delivered

  /** One party: program counter, its two buffers, posted receives, the send of the round and the send
      of the final message, the completions in its queue, the state of its completion channel, the
      program's two flags, and whether its wait has failed. */
  datatype Side = Side(
    pc: Pc, send: nat, recv: nat, rq: nat, sq: Sending, last: Sending,
    sendWc: nat, recvWc: nat, armed: bool, events: nat,
    sendCmpl: bool, recvCmpl: bool, failed: bool)

  /** Who holds the counter. */
  datatype Turn = AtClient | ToServer | AtServer | ToClient

  datatype State = State(
    c: Side, s: Side, cntr: nat, left: nat,
    toServer: seq<nat>, toClient: seq<nat>,  // the messages under way
    misused: bool,           // a message met no posted receive, or a buffer was touched while in use
    seed: nat, rounds: nat,  // history: the first value, the number of rounds asked for
    k: nat, turn: Turn, ending: bool,  // history: replies received, whose turn, whether I_M_DONE is sent
    exposed: bool)           // history: the client's wait failed at an unsafe moment, see Unsafe

  datatype Who = Client | Server

  datatype Step =
    | Program(who: Who)             // the next statement of a program that needs no completion
    | TakeEvent(who: Who)           // wait returns from ibv_get_cq_event
    | ReArm(who: Who)
    | PollCq(who: Who, sends: nat, recvs: nat)
    | Transmit(who: Who)            // the adapter reads the send buffer
    | Deliver(who: Who)             // the next message reaches this receiver's buffer
    | CompleteSend(who: Who)
    | CompleteDone                  // the final send is over; it asks for no completion on success

  /** A completion enters the queue; an armed queue raises one event and is disarmed. */
  function Notify(x: Side): Side
  {
    if x.armed then x.(armed := false, events := x.events + 1) else x
  }

  function Of(st: State, who: Who): Side
  {
    match who case Client => st.c case Server => st.s
  }

  function With(st: State, who: Who, x: Side): State
  {
    match who case Client => st.(c := x) case Server => st.(s := x)
  }

  /** The same events, completions and verdict on the wait. */
  predicate SameSignals(x: Side, y: Side)
  {
    && y.armed == x.armed && y.events == x.events
    && y.sendWc == x.sendWc && y.recvWc == x.recvWc && y.failed == x.failed
  }

  /** The client's control flow, outside its wait loop. */
  function ClientNext(pc: Pc, left: nat): Pc
  {
    match pc
    case Head => if left == 0 then WriteDone else PostRecv
    case PostRecv => WriteSend
    case WriteSend => PostSend
    case PostSend => Wait
    case Process => Head
    case WriteDone => PostDone
    case PostDone => Finished
    case _ => pc
  }

  /** The rounds left after this statement; the condition of the loop counts them down. */
  function LeftAfter(st: State): nat
  {
    // a count of 0 wraps to the largest one, which `left` starts from
    if st.c.pc == Head && st.left > 0 then st.left - 1 else st.left
  }

  /** The client's program, statement by statement; the use of a buffer that an operation still owns is
      recorded. */
  function ClientStep(st: State): (st': State)
    ensures SameSignals(st.c, st'.c) && st'.s == st.s
    ensures st'.left == LeftAfter(st) && st'.c.pc == ClientNext(st.c.pc, st'.left)
  {
    var left := LeftAfter(st);
    var c := st.c.(pc := ClientNext(st.c.pc, left));
    match st.c.pc
    case PostRecv => st.(left := left, c := c.(rq := c.rq + 1))
    case WriteSend => st.(left := left, c := c.(send := st.cntr), misused := st.misused || c.sq != NoSend)
    case PostSend =>
      st.(left := left, c := c.(sq := Queued, sendCmpl := false, recvCmpl := false),
          misused := st.misused || c.sq != NoSend, turn := ToServer)
    case Process => st.(left := left, c := c, cntr := c.recv, misused := st.misused || c.rq > 0)
    case WriteDone => st.(left := left, c := c.(send := I_M_DONE), misused := st.misused || c.sq != NoSend)
    case PostDone => st.(left := left, c := c.(last := Queued), turn := ToServer, ending := true)
    case _ => st.(left := left, c := c)
  }

  /** The server's control flow, outside its wait loop. */
  function ServerNext(s: Side): Pc
  {
    match s.pc
    case Process => if s.recv == I_M_DONE then Finished else WriteSend
    case WriteSend => PostRecv
    case PostRecv => PostSend
    case PostSend => Wait
    case pc => pc
  }

  /** The server's loop, statement by statement. */
  function ServerStep(st: State): (st': State)
    ensures SameSignals(st.s, st'.s) && st'.c == st.c
    ensures st'.left == st.left && st'.s.pc == ServerNext(st.s)
  {
    var s := st.s.(pc := ServerNext(st.s));
    match st.s.pc
    case Process => st.(s := s, misused := st.misused || s.rq > 0)
    case WriteSend => st.(s := s.(send := s.recv + 1), misused := st.misused || s.rq > 0 || s.sq != NoSend)
    case PostRecv => st.(s := s.(rq := s.rq + 1))
    case PostSend =>
      st.(s := s.(sq := Queued, sendCmpl := false, recvCmpl := false),
          misused := st.misused || s.sq != NoSend, turn := ToClient)
    case _ => st
  }

  /** Where a program goes on when its wait fails: the client with the final message, the server with
      the disconnection. */
  function AfterFailure(who: Who): Pc
  {
    match who case Client => WriteDone case Server => Finished
  }

  /** What a poll that takes these completions does: an empty queue is an error, and the loop goes on
      until both flags are set. */
  function Polled(x: Side, who: Who, sends: nat, recvs: nat): Side
    requires sends <= x.sendWc && recvs <= x.recvWc
  {
    if sends + recvs == 0 then x.(pc := AfterFailure(who), failed := true)
    else
      var sendCmpl, recvCmpl := x.sendCmpl || sends > 0, x.recvCmpl || recvs > 0;
      x.(sendWc := x.sendWc - sends, recvWc := x.recvWc - recvs, sendCmpl := sendCmpl, recvCmpl := recvCmpl,
         pc := if sendCmpl && recvCmpl then Process else Wait)
  }

  /** The receiver gets a message into its posted buffer. */
  function Received(x: Side, v: nat): Side
    requires x.rq > 0
  {
    Notify(x.(rq := x.rq - 1, recv := v, recvWc := x.recvWc + 1))
  }

  /** A delivered send completes. */
  function Completed(x: Side): Side
  {
    Notify(x.(sq := NoSend, sendWc := x.sendWc + 1))
  }

  /** The adapter reads the send buffer for the oldest send that it has not read it for. */
  function Transmitted(x: Side): Side
  {
    if x.sq == Queued then x.(sq := Sent) else x.(last := Sent)
  }

  /** The oldest message under way has arrived. */
  function Arrived(x: Side): Side
  {
    if x.sq == Sent then x.(sq := Delivered) else x.(last := Delivered)
  }

  /** The client's wait fails while its send buffer is in use or the server is not ready for another
      message. */
  predicate Unsafe(st: State)
  {
    st.c.sq != NoSend || st.s.rq == 0
  }

  /** The next message reaches its receiver. */
  function Delivery(st: State, who: Who): State
    requires match who case Client => st.toClient != [] case Server => st.toServer != []
  {
    if Of(st, who).rq == 0 then st.(misused := true)
    else match who
      case Server =>
        st.(s := Received(st.s, st.toServer[0]), toServer := st.toServer[1..], c := Arrived(st.c), turn := AtServer)
      case Client =>
        st.(c := Received(st.c, st.toClient[0]), toClient := st.toClient[1..], s := Arrived(st.s), turn := AtClient,
            k := st.k + 1)
  }

  predicate Enabled(st: State, t: Step)
  {
    match t
    case Program(Client) => st.c.pc in {Head, PostRecv, WriteSend, PostSend, Process, WriteDone, PostDone}
    case Program(Server) => st.s.pc in {Process, WriteSend, PostRecv, PostSend}
    case TakeEvent(who) => Of(st, who).pc == Wait && Of(st, who).events > 0
    case ReArm(who) => Of(st, who).pc == Rearm
    case PollCq(who, sends, recvs) =>
      var x := Of(st, who);
      && x.pc == Poll && sends <= x.sendWc && recvs <= x.recvWc
      && sends + recvs == if x.sendWc + x.recvWc <= MAX_N_WC then x.sendWc + x.recvWc else MAX_N_WC
    case Transmit(who) => Of(st, who).sq == Queued || Of(st, who).last == Queued
    case Deliver(Client) => st.toClient != []
    case Deliver(Server) => st.toServer != []
    case CompleteSend(who) => Of(st, who).sq == Delivered
    case CompleteDone => st.c.sq == NoSend && st.c.last == Delivered
  }

  function Apply(st: State, t: Step): State
    requires Enabled(st, t)
  {
    match t
    case Program(Client) => ClientStep(st)
    case Program(Server) => ServerStep(st)
    case TakeEvent(who) => var x := Of(st, who); With(st, who, x.(events := x.events - 1, pc := Rearm))
    case ReArm(who) => With(st, who, Of(st, who).(armed := true, pc := Poll))
    case PollCq(who, sends, recvs) =>
      With(st, who, Polled(Of(st, who), who, sends, recvs)).(
        exposed := st.exposed || (who == Client && sends + recvs == 0 && Unsafe(st)))
    case Transmit(Client) => st.(c := Transmitted(st.c), toServer := st.toServer + [st.c.send])
    case Transmit(Server) => st.(s := Transmitted(st.s), toClient := st.toClient + [st.s.send])
    case Deliver(who) => Delivery(st, who)
    case CompleteSend(who) => With(st, who, Completed(Of(st, who)))
    case CompleteDone => st.(c := st.c.(last := NoSend))
  }

  const FRESH_CLIENT := Side(Head, 0, 0, 0, NoSend, NoSend, 0, 0, true, 0, false, false, false)
  const FRESH_SERVER := Side(Wait, 0, 0, 1, NoSend, NoSend, 0, 0, true, 0, true, false, false)

  /** The rounds asked for; a request for none wraps around. */
  function Asked(st: State): nat
  {
    if st.rounds == 0 then I_M_DONE + 1 else st.rounds
  }

  predicate Init(st: State)
  {
    && st.c == FRESH_CLIENT && st.s == FRESH_SERVER
    && st.cntr == st.seed <= I_M_DONE && st.toServer == st.toClient == [] && !st.misused
    && st.rounds <= I_M_DONE
    && st.left == Asked(st)
    && st.k == 0 && st.turn == AtClient && !st.ending && !st.exposed
  }

  // ---------------------------------------------------------------- the invariant

  function One(b: bool): nat { if b then 1 else 0 }

  /** The program is inside its wait loop. */
  predicate Looping(x: Side)
  {
    x.pc in {Wait, Rearm, Poll}
  }

  /** The completion channel: exactly one of armed, event pending and event taken; a completion never
      sits in the queue unannounced; and an event that comes between re-arming and polling comes with one. */
  predicate ChannelInv(x: Side)
  {
    && One(x.armed) + x.events + One(x.pc == Rearm) == 1
    && (x.sendWc + x.recvWc > 0 ==> x.events == 1 || x.pc in {Rearm, Poll})
    && (x.pc == Poll && x.events > 0 ==> x.sendWc + x.recvWc > 0)
  }

  /** Each operation is exactly one of outstanding, completed and flagged. */
  predicate OpsInv(x: Side)
  {
    && One(x.sq != NoSend) + x.sendWc + One(x.sendCmpl) == 1
    && x.rq + x.recvWc + One(x.recvCmpl) == 1
  }

  /** That is so inside the loop, with something left to wait for, and after a failure; otherwise
      nothing is left over. */
  predicate LoopInv(x: Side)
  {
    if Looping(x) then OpsInv(x) && !(x.sendCmpl && x.recvCmpl) && !x.failed
    else if x.failed then OpsInv(x) && x.pc == Finished
    else x.sendWc == x.recvWc == 0
  }

  /** The party has posted its receive and waits for a message. */
  predicate Expects(x: Side)
  {
    (Looping(x) || x.failed) && x.rq == 1
  }

  /** The party's receive has completed, and it has not yet used what came. */
  predicate HasMessage(x: Side)
  {
    (Looping(x) || x.failed || x.pc == Process) && x.rq == 0
  }

  /** Nothing of the party's last send is left to transmit. */
  predicate SendOver(x: Side)
  {
    x.sq == NoSend || (x.sq == Delivered && (Looping(x) || x.failed))
  }

  /** The client before its next send. */
  predicate ClientPreparing(c: Side)
  {
    && c.sq == NoSend
    && c.pc in {Head, PostRecv, WriteSend, PostSend, WriteDone, PostDone}
    && c.rq == One(c.pc in {WriteSend, PostSend})
  }

  /** The server between a message and its reply. */
  predicate ServerPreparing(s: Side)
  {
    && s.sq == NoSend && !s.failed
    && s.pc in {WriteSend, PostRecv, PostSend}
    && s.rq == One(s.pc == PostSend)
  }

  /** A message with value v is on its way: still to be read from the send buffer, or in the network. */
  predicate Carries(q: Sending, send: nat, net: seq<nat>, v: nat)
  {
    (q == Queued && send == v && net == []) || (q == Sent && net == [v])
  }

  /** The client with its final message posted. */
  predicate ClientDone(c: Side)
  {
    c.pc == Finished && c.sq == NoSend
  }

  /** Where the counter is, and what it is worth there. */
  predicate TurnInv(st: State)
  {
    var c, s, v := st.c, st.s, st.seed + st.k;
    && (st.ending ==> ClientDone(c)) && (!st.ending ==> c.last == NoSend)
    && match st.turn
       case AtClient =>
         && st.toServer == st.toClient == [] && !st.ending
         && Expects(s) && SendOver(s)
         && (|| (&& ClientPreparing(c) && st.cntr == v
                 && (c.pc == PostSend ==> c.send == v) && (c.pc == PostDone ==> c.send == I_M_DONE))
             || (HasMessage(c) && SendOver(c) && c.recv == v))
       case ToServer =>
         && st.toClient == [] && Expects(s) && SendOver(s)
         && (if st.ending then Carries(c.last, c.send, st.toServer, I_M_DONE)
             else Expects(c) && Carries(c.sq, c.send, st.toServer, v))
       case AtServer =>
         && st.toServer == st.toClient == [] && SendOver(c)
         && (if st.ending then c.last in {Delivered, NoSend} else Expects(c))
         && (|| (HasMessage(s) && SendOver(s) && s.recv == (if st.ending then I_M_DONE else v))
             || (s.pc == Finished && !s.failed && s.sq == NoSend && s.rq == 0 && (st.ending || v == I_M_DONE))
             || (&& ServerPreparing(s) && !st.ending && v < I_M_DONE && s.recv == v
                 && (s.pc in {PostRecv, PostSend} ==> s.send == v + 1)))
       case ToClient =>
         && st.toServer == [] && !st.ending && Expects(c) && SendOver(c) && Expects(s)
         && v < I_M_DONE && Carries(s.sq, s.send, st.toClient, v + 1)
  }

  /** The round under way, if any, is the only one neither left nor answered; and the client's own
      counter tells how many rounds it has completed. */
  predicate RoundsInv(st: State)
  {
    && st.left + st.k + One(st.c.pc != Head && !(st.turn == AtClient && HasMessage(st.c))) == Asked(st)
    && (st.left == 0 <==> st.c.pc in {WriteDone, PostDone, Finished})
    && st.cntr + st.left + One(st.c.pc != Head) == st.seed + Asked(st)
  }

  /** What holds as long as the client's wait has not failed. */
  predicate Inv(st: State)
  {
    && ChannelInv(st.c) && ChannelInv(st.s)
    && LoopInv(st.c) && LoopInv(st.s)
    && !st.c.failed && st.s.last == NoSend
    && !st.misused && !st.exposed && st.seed + st.k <= I_M_DONE
    && TurnInv(st) && RoundsInv(st)
  }

  lemma InitInv(st: State)
    requires Init(st)
    ensures Inv(st)
  {
  }

  // ---------------------------------------------------------------- steps of one party alone

  /** x' is x further along in its wait loop, or with its delivered send completed: as good to the other
      party as x was. */
  predicate Follows(x: Side, x': Side)
  {
    && x'.send == x.send && x'.recv == x.recv && x'.rq == x.rq && x'.last == x.last
    && (x'.sq == x.sq || (x.sq == Delivered && x'.sq == NoSend))
    && (|| (x'.pc == x.pc && x'.failed == x.failed)
        || (Looping(x) && Looping(x') && x'.failed == x.failed)
        || (Looping(x) && x'.pc == Process && x'.rq == 0 && x'.sq == NoSend && x'.failed == x.failed)
        || (Looping(x) && x'.pc == Finished && x'.failed))
  }

  lemma TurnFollows(st: State, who: Who, x: Side)
    requires TurnInv(st) && Follows(Of(st, who), x) && (who == Client ==> !x.failed)
    ensures TurnInv(With(st, who, x))
  {
  }

  lemma RoundsFollow(st: State, who: Who, x: Side)
    requires RoundsInv(st) && Follows(Of(st, who), x) && (who == Client ==> !x.failed)
    ensures RoundsInv(With(st, who, x))
  {
  }

  lemma KeepFollowing(st: State, who: Who, x: Side)
    requires Inv(st) && Follows(Of(st, who), x) && ChannelInv(x) && LoopInv(x) && (who == Client ==> !x.failed)
    ensures Inv(With(st, who, x))
  {
    TurnFollows(st, who, x);
    RoundsFollow(st, who, x);
  }

  lemma PollFollows(x: Side, who: Who, sends: nat, recvs: nat)
    requires ChannelInv(x) && LoopInv(x) && x.pc == Poll && sends <= x.sendWc && recvs <= x.recvWc
    requires sends + recvs == if x.sendWc + x.recvWc <= MAX_N_WC then x.sendWc + x.recvWc else MAX_N_WC
    requires who == Client ==> sends + recvs > 0
    ensures var y := Polled(x, who, sends, recvs); Follows(x, y) && ChannelInv(y) && LoopInv(y)
  {
  }

  lemma CompletionFollows(x: Side)
    requires ChannelInv(x) && LoopInv(x) && x.sq == Delivered && (Looping(x) || x.failed)
    ensures Follows(x, Completed(x)) && ChannelInv(Completed(x)) && LoopInv(Completed(x))
  {
  }

  lemma KeepTakeEvent(st: State, who: Who)
    requires Inv(st) && Enabled(st, TakeEvent(who))
    ensures Inv(Apply(st, TakeEvent(who)))
  {
    var x := Of(st, who);
    KeepFollowing(st, who, x.(events := x.events - 1, pc := Rearm));
  }

  lemma KeepReArm(st: State, who: Who)
    requires Inv(st) && Enabled(st, ReArm(who))
    ensures Inv(Apply(st, ReArm(who)))
  {
    KeepFollowing(st, who, Of(st, who).(armed := true, pc := Poll));
  }

  lemma KeepPoll(st: State, who: Who, sends: nat, recvs: nat)
    requires Inv(st) && Enabled(st, PollCq(who, sends, recvs)) && (who == Client ==> sends + recvs > 0)
    ensures Inv(Apply(st, PollCq(who, sends, recvs)))
  {
    PollFollows(Of(st, who), who, sends, recvs);
    KeepFollowing(st, who, Polled(Of(st, who), who, sends, recvs));
  }

  lemma KeepCompleteSend(st: State, who: Who)
    requires Inv(st) && Enabled(st, CompleteSend(who))
    ensures Inv(Apply(st, CompleteSend(who)))
  {
    DeliveredIsLooping(st, who);
    CompletionFollows(Of(st, who));
    KeepFollowing(st, who, Completed(Of(st, who)));
  }

  lemma DeliveredIsLooping(st: State, who: Who)
    requires Inv(st) && Of(st, who).sq == Delivered
    ensures Looping(Of(st, who)) || Of(st, who).failed
  {
  }

  lemma KeepCompleteDone(st: State)
    requires Inv(st) && Enabled(st, CompleteDone)
    ensures Inv(Apply(st, CompleteDone))
  {
  }

  // ---------------------------------------------------------------- steps that move the counter

  lemma KeepClientProgram(st: State)
    requires Inv(st) && Enabled(st, Program(Client))
    ensures Inv(Apply(st, Program(Client)))
  {
  }

  lemma KeepServerProgram(st: State)
    requires Inv(st) && Enabled(st, Program(Server))
    ensures Inv(Apply(st, Program(Server)))
  {
    assert st.turn == AtServer && SendOver(st.s) && st.s.rq == One(st.s.pc == PostSend);
  }

  lemma KeepTransmitClient(st: State)
    requires Inv(st) && Enabled(st, Transmit(Client))
    ensures Inv(Apply(st, Transmit(Client)))
  {
  }

  lemma KeepTransmitServer(st: State)
    requires Inv(st) && Enabled(st, Transmit(Server))
    ensures Inv(Apply(st, Transmit(Server)))
  {
  }

  lemma KeepDeliverClient(st: State)
    requires Inv(st) && Enabled(st, Deliver(Client))
    ensures Inv(Apply(st, Deliver(Client)))
  {
  }

  lemma KeepDeliverServer(st: State)
    requires Inv(st) && Enabled(st, Deliver(Server))
    ensures Inv(Apply(st, Deliver(Server)))
  {
  }

  /** Every step of every party keeps the invariant, but for a failure of the client's wait. */
  lemma KeepStep(st: State, t: Step)
    requires Inv(st) && Enabled(st, t)
    ensures t != PollCq(Client, 0, 0) ==> Inv(Apply(st, t))
  {
    match t
    case Program(Client) => KeepClientProgram(st);
    case Program(Server) => KeepServerProgram(st);
    case Transmit(Client) => KeepTransmitClient(st);
    case Transmit(Server) => KeepTransmitServer(st);
    case Deliver(Client) => KeepDeliverClient(st);
    case Deliver(Server) => KeepDeliverServer(st);
    case TakeEvent(who) => KeepTakeEvent(st, who);
    case ReArm(who) => KeepReArm(st, who);
    case CompleteSend(who) => KeepCompleteSend(st, who);
    case CompleteDone => KeepCompleteDone(st);
    case PollCq(who, sends, recvs) =>
      if who == Server || sends + recvs > 0 {
        KeepPoll(st, who, sends, recvs);
      }
  }
}
