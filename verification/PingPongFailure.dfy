/** When a wait of the ping-pong fails although no operation has, and what the client's failure leads to. */
module PingPongFailure {
  import opened PingPong
  import opened PingPongProof

  // ---------------------------------------------------------------- building runs

  lemma {:induction false} RunExtends(st: State, ts: seq<Step>, t: Step)
    requires Runs(st, ts) && Enabled(Final(st, ts), t)
    ensures Runs(st, ts + [t]) && Final(st, ts + [t]) == Apply(Final(st, ts), t)
    decreases |ts|
  {
    if ts == [] {
      assert [t][1..] == [];
    } else {
      RunExtends(Apply(st, ts[0]), ts[1..], t);
      assert (ts + [t])[1..] == ts[1..] + [t];
    }
  }

  ghost predicate Leads(st: State, ts: seq<Step>, st': State)
  {
    Runs(st, ts) && Final(st, ts) == st'
  }

  lemma Then(st: State, ts: seq<Step>, st1: State, t: Step) returns (ts': seq<Step>, st2: State)
    requires Leads(st, ts, st1) && Enabled(st1, t)
    ensures ts' == ts + [t] && st2 == Apply(st1, t) && Leads(st, ts', st2)
  {
    RunExtends(st, ts, t);
    ts', st2 := ts + [t], Apply(st1, t);
  }

  // ---------------------------------------------------------------- what a failure of the client leads to

  /** At an unsafe moment, misuse can follow at once: the client overwrites a send buffer in use, or its
      final message meets no posted receive. */
  lemma UnsafeMisuses(st: State) returns (ts: seq<Step>)
    requires Inv(st) && Enabled(st, PollCq(Client, 0, 0)) && Unsafe(st)
    ensures var st' := Apply(st, PollCq(Client, 0, 0)); Runs(st', ts) && Final(st', ts).misused
  {
    var st1 := Apply(st, PollCq(Client, 0, 0));
    var st2: State;
    ts, st2 := Then(st1, [], st1, Program(Client));
    if st.c.sq == NoSend {
      assert st.toServer == [] by {
        assert st.turn == AtServer;
      }
      ts, st2 := Then(st1, ts, st2, Program(Client));
      ts, st2 := Then(st1, ts, st2, Transmit(Client));
      ts, st2 := Then(st1, ts, st2, Deliver(Server));
    }
  }

  /** When the client's wait fails, misuse can follow if and only if its send is still outstanding or
      the server has no receive posted at that moment. */
  lemma MisuseIff(st: State)
    requires Inv(st) && Enabled(st, PollCq(Client, 0, 0))
    ensures var st' := Apply(st, PollCq(Client, 0, 0));
            Unsafe(st) <==> exists ts :: Runs(st', ts) && Final(st', ts).misused
  {
    var st' := Apply(st, PollCq(Client, 0, 0));
    FailureApart(st);
    if Unsafe(st) {
      var ts := UnsafeMisuses(st);
    } else {
      forall ts | Runs(st', ts)
        ensures !Final(st', ts).misused
      {
        RunsKeepReach(st', ts);
        ExposureFixed(st', ts);
      }
    }
  }

  lemma {:induction false} ExposureFixed(st: State, ts: seq<Step>)
    requires Reach(st) && st.c.failed && Runs(st, ts)
    ensures Final(st, ts).c.failed && Final(st, ts).exposed == st.exposed
    decreases |ts|
  {
    if ts != [] {
      GivenUpKept(st, ts[0]);
      KeepReach(st, ts[0]);
      ExposureFixed(Apply(st, ts[0]), ts[1..]);
    }
  }

  // ---------------------------------------------------------------- stale events

  /** Every event of the party announces a completion that is still in its queue. */
  predicate Honest(x: Side)
  {
    (x.events > 0 || x.pc == Rearm || x.pc == Poll) ==> x.sendWc + x.recvWc > 0
  }

  /** A poll that leaves an event pending: a completion came between the re-arming and the poll. */
  predicate LateArrival(st: State, who: Who, t: Step)
  {
    t.PollCq? && t.who == who && Of(st, who).events > 0
  }

  /** The channel's own steps. */
  lemma HonestInLoop(st: State, who: Who, t: Step)
    requires Enabled(st, t) && Honest(Of(st, who)) && !LateArrival(st, who, t)
    requires t.TakeEvent? || t.ReArm? || t.PollCq?
    ensures Honest(Of(Apply(st, t), who))
    ensures Of(Apply(st, t), who).failed ==> Of(st, who).failed
  {
  }

  lemma HonestProgram(st: State, who: Who, other: Who)
    requires Enabled(st, Program(other)) && Honest(Of(st, who))
    ensures Honest(Of(Apply(st, Program(other)), who))
    ensures Of(Apply(st, Program(other)), who).failed == Of(st, who).failed
  {
  }

  /** What a delivery does to a party. */
  lemma DeliveryAt(st: State, who: Who, other: Who)
    requires Enabled(st, Deliver(other))
    ensures var x, y := Of(st, who), Of(Apply(st, Deliver(other)), who);
            y == x || y == Arrived(x) || (x.rq > 0 && y == Received(x, y.recv))
    ensures Apply(st, Deliver(other)).left == st.left
  {
  }

  lemma HonestDelivery(st: State, who: Who, other: Who)
    requires Enabled(st, Deliver(other)) && Honest(Of(st, who))
    ensures Honest(Of(Apply(st, Deliver(other)), who))
    ensures Of(Apply(st, Deliver(other)), who).failed == Of(st, who).failed
  {
    hide Apply;
    DeliveryAt(st, who, other);
  }

  lemma HonestNetwork(st: State, who: Who, t: Step)
    requires Enabled(st, t) && Honest(Of(st, who)) && (t.Transmit? || t.CompleteSend? || t.CompleteDone?)
    ensures Honest(Of(Apply(st, t), who))
    ensures Of(Apply(st, t), who).failed == Of(st, who).failed
  {
  }

  /** Without a late arrival an honest party stays honest and its poll does not fail. */
  lemma HonestKept(st: State, who: Who, t: Step)
    requires Enabled(st, t) && Honest(Of(st, who)) && !LateArrival(st, who, t)
    ensures Honest(Of(Apply(st, t), who))
    ensures Of(Apply(st, t), who).failed ==> Of(st, who).failed
  {
    hide Enabled, Apply, Honest;
    match t
    case Program(other) => HonestProgram(st, who, other);
    case Deliver(other) => HonestDelivery(st, who, other);
    case Transmit(_) => HonestNetwork(st, who, t);
    case CompleteSend(_) => HonestNetwork(st, who, t);
    case CompleteDone => HonestNetwork(st, who, t);
    case _ => HonestInLoop(st, who, t);
  }

  /** A late arrival, and nothing else, makes an event stale: its poll takes the completion that the
      pending event announces. */
  lemma StaleIffLate(st: State, who: Who, t: Step)
    requires Inv(st) && Enabled(st, t) && Honest(Of(st, who))
    ensures !Honest(Of(Apply(st, t), who)) <==> LateArrival(st, who, t)
  {
    if !LateArrival(st, who, t) {
      HonestKept(st, who, t);
    }
  }

  ghost predicate AnyLate(st: State, who: Who, ts: seq<Step>)
    requires Runs(st, ts)
    decreases |ts|
  {
    ts != [] && (LateArrival(st, who, ts[0]) || AnyLate(Apply(st, ts[0]), who, ts[1..]))
  }

  /** The party's wait fails in this run, which brings it no late arrival. */
  ghost predicate FailsPunctually(st: State, who: Who, ts: seq<Step>)
  {
    Runs(st, ts) && !AnyLate(st, who, ts) && Of(Final(st, ts), who).failed
  }

  /** Without late arrivals at an honest party, its wait never fails. */
  lemma {:induction false} PunctualNeverFails(st: State, who: Who, ts: seq<Step>)
    requires Runs(st, ts) && Honest(Of(st, who)) && !Of(st, who).failed && !AnyLate(st, who, ts)
    ensures !Of(Final(st, ts), who).failed
    decreases |ts|
  {
    if ts != [] {
      HonestKept(st, who, ts[0]);
      PunctualNeverFails(Apply(st, ts[0]), who, ts[1..]);
    }
  }

  /** The party is in its wait loop or will enter it again: the client with a round left to start, the
      server with a message to answer. */
  predicate WaitsAgain(st: State, who: Who)
  {
    var x := Of(st, who);
    match x.pc
    case Finished => false
    case WriteDone => false
    case PostDone => false
    case Head => st.left >= 2
    case Process => if who == Client then st.left >= 2 else x.recv != I_M_DONE
    case _ => true
  }

  /** The party has not failed and will not wait again, whatever arrives. */
  predicate Over(st: State, who: Who)
  {
    !Of(st, who).failed && !WaitsAgain(st, who) && (Of(st, who).pc == Process ==> Of(st, who).rq == 0)
  }

  lemma OverProgram(st: State, who: Who, other: Who)
    requires Enabled(st, Program(other)) && Over(st, who)
    ensures Over(Apply(st, Program(other)), who)
  {
  }

  lemma OverDelivery(st: State, who: Who, other: Who)
    requires Enabled(st, Deliver(other)) && Over(st, who)
    ensures Over(Apply(st, Deliver(other)), who)
  {
    hide Apply;
    DeliveryAt(st, who, other);
  }

  lemma OverOther(st: State, who: Who, t: Step)
    requires Enabled(st, t) && Over(st, who) && !t.Program? && !t.Deliver?
    ensures Over(Apply(st, t), who)
  {
  }

  /** A party that will not wait again does not fail. */
  lemma {:induction false} OverNeverFails(st: State, who: Who, ts: seq<Step>)
    requires Runs(st, ts) && Over(st, who)
    ensures !Of(Final(st, ts), who).failed
    decreases |ts|
  {
    hide Apply, Enabled, WaitsAgain;
    if ts != [] {
      match ts[0] {
        case Program(other) => OverProgram(st, who, other);
        case Deliver(other) => OverDelivery(st, who, other);
        case _ => OverOther(st, who, ts[0]);
      }
      OverNeverFails(Apply(st, ts[0]), who, ts[1..]);
    }
  }

  // ---------------------------------------------------------------- a stale event and another wait

  /** Another step of the party itself, which brings it no late arrival. */
  lemma Precede(st: State, who: Who, t: Step, ts: seq<Step>)
    requires Enabled(st, t) && !LateArrival(st, who, t) && FailsPunctually(Apply(st, t), who, ts)
    ensures FailsPunctually(st, who, [t] + ts)
  {
    assert ([t] + ts)[1..] == ts;
  }

  /** The queue of the party is empty, and yet an event is pending or has been taken. */
  predicate Stale(x: Side)
  {
    !Honest(x)
  }

  lemma PollFails(st: State, who: Who) returns (ts: seq<Step>)
    requires Of(st, who).pc == Poll && Of(st, who).events == 0 && Stale(Of(st, who))
    ensures FailsPunctually(st, who, ts)
  {
    var t := PollCq(who, 0, 0);
    assert FailsPunctually(Apply(st, t), who, []);
    ts := [t] + [];
    Precede(st, who, t, []);
  }

  lemma RearmFails(st: State, who: Who) returns (ts: seq<Step>)
    requires Of(st, who).pc == Rearm && Of(st, who).events == 0 && Stale(Of(st, who))
    ensures FailsPunctually(st, who, ts)
  {
    ts := PollFails(Apply(st, ReArm(who)), who);
    Precede(st, who, ReArm(who), ts);
    ts := [ReArm(who)] + ts;
  }

  lemma WaitFails(st: State, who: Who) returns (ts: seq<Step>)
    requires Of(st, who).pc == Wait && Of(st, who).events == 1 && Stale(Of(st, who))
    ensures FailsPunctually(st, who, ts)
  {
    ts := RearmFails(Apply(st, TakeEvent(who)), who);
    Precede(st, who, TakeEvent(who), ts);
    ts := [TakeEvent(who)] + ts;
  }

  /** The statements of the program from here to its next wait. */
  function ToWait(pc: Pc, who: Who): nat
  {
    match pc
    case Process => if who == Client then 5 else 4
    case Head => 4
    case PostRecv => if who == Client then 3 else 2
    case WriteSend => if who == Client then 2 else 3
    case PostSend => 1
    case _ => 0
  }

  predicate InProgram(pc: Pc, who: Who)
  {
    pc == Process || pc == PostRecv || pc == WriteSend || pc == PostSend || (who == Client && pc == Head)
  }

  /** One statement nearer to the next wait. */
  predicate Nearer(st: State, st': State, who: Who)
  {
    var pc, pc' := Of(st, who).pc, Of(st', who).pc;
    ToWait(pc', who) == ToWait(pc, who) - 1 && WaitsAgain(st', who) && (InProgram(pc', who) || pc' == Wait)
  }

  lemma ClientNearer(st: State)
    requires InProgram(st.c.pc, Client) && WaitsAgain(st, Client)
    ensures Nearer(st, ClientStep(st), Client)
  {
    hide ClientStep;
  }

  lemma ServerNearer(st: State)
    requires InProgram(st.s.pc, Server) && WaitsAgain(st, Server)
    ensures Nearer(st, ServerStep(st), Server)
  {
    hide ServerStep;
    assert ServerNext(st.s) != Process;
  }

  lemma ProgramStep(st: State, who: Who)
    requires InProgram(Of(st, who).pc, who) && WaitsAgain(st, who)
    ensures Enabled(st, Program(who)) && Nearer(st, Apply(st, Program(who)), who)
    ensures SameSignals(Of(st, who), Of(Apply(st, Program(who)), who))
  {
    hide Nearer, ClientStep, ServerStep, SameSignals;
    match who
    case Client => ClientNearer(st);
    case Server => ServerNearer(st);
  }

  /** The party runs through its program, behind a stale event, into its next wait. */
  lemma {:induction false} ProgramFails(st: State, who: Who) returns (ts: seq<Step>)
    requires InProgram(Of(st, who).pc, who) || Of(st, who).pc == Wait
    requires WaitsAgain(st, who) && Of(st, who).events == 1 && Of(st, who).sendWc == Of(st, who).recvWc == 0
    ensures FailsPunctually(st, who, ts)
    decreases ToWait(Of(st, who).pc, who)
  {
    hide Apply;
    if Of(st, who).pc == Wait {
      ts := WaitFails(st, who);
    } else {
      ProgramStep(st, who);
      ts := ProgramFails(Apply(st, Program(who)), who);
      Precede(st, who, Program(who), ts);
      ts := [Program(who)] + ts;
    }
  }

  lemma StaleFails(st: State, who: Who) returns (ts: seq<Step>)
    requires Inv(st) && !Of(st, who).failed && Stale(Of(st, who)) && WaitsAgain(st, who)
    ensures FailsPunctually(st, who, ts)
  {
    var x := Of(st, who);
    assert who == Server ==> x.pc != Head && x.pc != WriteDone && x.pc != PostDone;
    if x.pc == Poll {
      ts := PollFails(st, who);
    } else if x.pc == Rearm {
      ts := RearmFails(st, who);
    } else {
      ts := ProgramFails(st, who);
    }
  }

  /** In every state that is reached before the client fails: a party's wait can still fail without any
      further late arrival if and only if it has a stale event and will wait again. */
  lemma FailsIff(st: State, who: Who)
    requires Inv(st) && !Of(st, who).failed
    ensures (exists ts :: FailsPunctually(st, who, ts)) <==> Stale(Of(st, who)) && WaitsAgain(st, who)
  {
    if Stale(Of(st, who)) && WaitsAgain(st, who) {
      var ts := StaleFails(st, who);
    } else {
      forall ts | FailsPunctually(st, who, ts)
        ensures false
      {
        if Stale(Of(st, who)) {
          OverNeverFails(st, who, ts);
        } else {
          PunctualNeverFails(st, who, ts);
        }
      }
    }
  }

  /** A step of a run makes a failure possible that needs no further late arrival, if and only if it is
      itself a late arrival at a party that then waits again. */
  lemma LateIffCanFail(st: State, who: Who, t: Step)
    requires Inv(st) && Enabled(st, t) && Honest(Of(st, who)) && !Of(st, who).failed
    ensures (exists ts :: FailsPunctually(Apply(st, t), who, ts)) <==>
            LateArrival(st, who, t) && WaitsAgain(Apply(st, t), who)
  {
    hide Inv, Enabled, Apply, Honest, WaitsAgain;
    if LateArrival(st, who, t) {
      LatePollGoesOn(st, who, t);
      KeepStep(st, t);
      StaleIffLate(st, who, t);
      FailsIff(Apply(st, t), who);
    } else {
      HonestKept(st, who, t);
      forall ts | FailsPunctually(Apply(st, t), who, ts)
        ensures false
      {
        PunctualNeverFails(Apply(st, t), who, ts);
      }
    }
  }

  lemma LatePollGoesOn(st: State, who: Who, t: Step)
    requires Enabled(st, t) && Honest(Of(st, who)) && !Of(st, who).failed && LateArrival(st, who, t)
    ensures !Of(Apply(st, t), who).failed && t != PollCq(Client, 0, 0)
  {
  }

  // ---------------------------------------------------------------- a run in which nothing is wrong

  const START := State(FRESH_CLIENT, FRESH_SERVER, 7, 3, [], [], false, 7, 3, 0, AtClient, false, false)

  const POLLING := FRESH_CLIENT.(pc := Poll, send := 7, rq := 1, sendWc := 1)

  lemma RunToSend() returns (ts: seq<Step>, st: State)
    ensures Leads(START, ts, st)
    ensures st == START.(left := 2, turn := ToServer, c := FRESH_CLIENT.(pc := Wait, send := 7, rq := 1, sq := Queued))
  {
    ts, st := Then(START, [], START, Program(Client));
    ts, st := Then(START, ts, st, Program(Client));
    ts, st := Then(START, ts, st, Program(Client));
    ts, st := Then(START, ts, st, Program(Client));
  }

  const DELIVERED := FRESH_SERVER.(rq := 0, recv := 7, recvWc := 1, armed := false, events := 1)

  lemma RunToDelivery() returns (ts: seq<Step>, st: State)
    ensures Leads(START, ts, st)
    ensures st == START.(left := 2, turn := AtServer, s := DELIVERED,
                         c := FRESH_CLIENT.(pc := Wait, send := 7, rq := 1, sq := Delivered))
  {
    ts, st := RunToSend();
    ts, st := Then(START, ts, st, Transmit(Client));
    ts, st := Then(START, ts, st, Deliver(Server));
  }

  /** The client sends; its send completes, and it has re-armed but not yet polled. */
  lemma RunToPoll() returns (ts: seq<Step>, st: State)
    ensures Leads(START, ts, st)
    ensures st == START.(left := 2, turn := AtServer, c := POLLING, s := DELIVERED)
  {
    ts, st := RunToDelivery();
    ts, st := Then(START, ts, st, CompleteSend(Client));
    ts, st := Then(START, ts, st, TakeEvent(Client));
    ts, st := Then(START, ts, st, ReArm(Client));
  }

  /** Meanwhile the server takes the message. */
  lemma RunToProcess() returns (ts: seq<Step>, st: State)
    ensures Leads(START, ts, st)
    ensures st == START.(left := 2, turn := AtServer, c := POLLING,
                         s := FRESH_SERVER.(pc := Process, recv := 7, rq := 0, recvCmpl := true))
  {
    ts, st := RunToPoll();
    ts, st := Then(START, ts, st, TakeEvent(Server));
    ts, st := Then(START, ts, st, ReArm(Server));
    ts, st := Then(START, ts, st, PollCq(Server, 0, 1));
  }

  /** It posts its reply. */
  lemma RunToReply() returns (ts: seq<Step>, st: State)
    ensures Leads(START, ts, st)
    ensures st == START.(left := 2, turn := ToClient, c := POLLING,
                         s := FRESH_SERVER.(send := 8, recv := 7, sq := Queued, sendCmpl := false))
  {
    ts, st := RunToProcess();
    ts, st := Then(START, ts, st, Program(Server));
    ts, st := Then(START, ts, st, Program(Server));
    ts, st := Then(START, ts, st, Program(Server));
    ts, st := Then(START, ts, st, Program(Server));
  }

  /** The reply arrives before the client polls. */
  lemma RunToLateArrival() returns (ts: seq<Step>, st: State)
    ensures Leads(START, ts, st)
    ensures st.c == POLLING.(recv := 8, rq := 0, recvWc := 1, armed := false, events := 1)
    ensures st.left == 2 && st.toServer == [] && !st.misused
  {
    ts, st := RunToReply();
    ts, st := Then(START, ts, st, Transmit(Server));
    ts, st := Then(START, ts, st, Deliver(Client));
  }

  /** The client polls both completions and goes on to its next round. */
  lemma RunToNextRound() returns (ts: seq<Step>, st: State)
    ensures Leads(START, ts, st)
    ensures st.c.pc == Head && st.c.sq == st.c.last == NoSend && st.c.rq == st.c.sendWc == st.c.recvWc == 0
    ensures st.c.events == 1 && !st.c.armed && !st.c.failed && st.c.recv == 8
    ensures st.left == 2 && st.cntr == 8 && st.toServer == [] && !st.misused
  {
    ts, st := RunToLateArrival();
    ts, st := Then(START, ts, st, PollCq(Client, 1, 1));
    ts, st := Then(START, ts, st, Program(Client));
  }

  /** It posts that round behind a stale event. */
  lemma RunToStaleWait() returns (ts: seq<Step>, st: State)
    ensures Leads(START, ts, st)
    ensures st.c == FRESH_CLIENT.(pc := Wait, send := 8, recv := 8, rq := 1, sq := Queued, armed := false, events := 1)
    ensures st.cntr == 8 && st.toServer == [] && !st.misused
  {
    ts, st := RunToNextRound();
    ts, st := Then(START, ts, st, Program(Client));
    ts, st := Then(START, ts, st, Program(Client));
    ts, st := Then(START, ts, st, Program(Client));
    ts, st := Then(START, ts, st, Program(Client));
  }

  /** The exchange can fail with nothing wrong anywhere: a run in which the second wait of the client
      finds no completion while the send of its second round is still to be read from the buffer. */
  lemma SpuriousFailure() returns (ts: seq<Step>, st: State)
    ensures Init(START) && Leads(START, ts, st)
    ensures st.c.failed && st.exposed && !st.misused && st.toServer == []
    ensures st.c.sq == Queued && st.c.send == st.cntr == 8 && st.c.pc == WriteDone && st.c.last == NoSend
  {
    ts, st := RunToStaleWait();
    ts, st := Then(START, ts, st, TakeEvent(Client));
    ts, st := Then(START, ts, st, ReArm(Client));
    ts, st := Then(START, ts, st, PollCq(Client, 0, 0));
  }

  /** And the buffer is then overwritten while it is in use: what the server is sent in place of the
      counter is the final message. */
  lemma CounterOverwritten() returns (ts: seq<Step>, st: State)
    ensures Init(START) && Leads(START, ts, st)
    ensures st.misused && st.cntr == 8 && st.toServer == [I_M_DONE] && st.c.sq == Sent && st.c.last == NoSend
  {
    ts, st := SpuriousFailure();
    ts, st := Then(START, ts, st, Program(Client));
    ts, st := Then(START, ts, st, Transmit(Client));
  }
}
