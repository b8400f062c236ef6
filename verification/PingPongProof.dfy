/** What every interleaving of the ping-pong guarantees. */
module PingPongProof {
  import opened PingPong

  ghost predicate Runs(st: State, ts: seq<Step>)
    decreases |ts|
  {
    ts == [] || (Enabled(st, ts[0]) && Runs(Apply(st, ts[0]), ts[1..]))
  }

  ghost function Final(st: State, ts: seq<Step>): State
    requires Runs(st, ts)
    decreases |ts|
  {
    if ts == [] then st else Final(Apply(st, ts[0]), ts[1..])
  }

  // ---------------------------------------------------------------- after a failed wait of the client

  /** The final message has reached the server. */
  predicate DoneArrived(c: Side)
  {
    c.last == Delivered || (c.pc == Finished && c.last == NoSend)
  }

  /** The server has not yet seen the final message: it has its receive posted and nothing received. */
  predicate ReadyForDone(s: Side)
  {
    s.pc in {PostSend, Wait, Rearm, Poll, Finished} && s.rq == 1 && s.recvWc == 0 && (Looping(s) ==> !s.recvCmpl)
  }

  predicate HasDone(s: Side)
  {
    s.pc in {PostSend, Wait, Rearm, Poll, Process, Finished} && s.rq == 0 && s.recv == I_M_DONE
  }

  /** The server's reply is still to come. */
  predicate ReplyDue(s: Side)
  {
    s.pc == PostSend || s.sq in {Queued, Sent}
  }

  /** What holds after a failure at a safe moment: the send buffer is free, the server can take the
      final message, and the client can take the reply. */
  predicate Apart(st: State)
  {
    var c, s := st.c, st.s;
    && !st.misused && c.sq == NoSend && s.last == NoSend
    && (c.pc == PostDone || c.last == Queued ==> c.send == I_M_DONE)
    && (c.pc != Finished ==> c.last == NoSend)
    && st.toServer == (if c.last == Sent then [I_M_DONE] else [])
    && |st.toClient| == One(s.sq == Sent)
    && (ReplyDue(s) ==> c.rq == 1)
    && (s.pc == PostSend ==> s.sq == NoSend)
    && (if DoneArrived(c) then HasDone(s) else ReadyForDone(s))
  }

  /** The client goes on with the final message and touches neither its counter nor its rounds. */
  predicate GivenUp(st: State)
  {
    && st.c.pc in {WriteDone, PostDone, Finished} && st.left > 0
    && st.cntr + st.left + 1 == st.seed + Asked(st)
  }

  /** What every reachable state satisfies. */
  predicate Reach(st: State)
  {
    if st.c.failed then GivenUp(st) && (!st.exposed ==> Apart(st)) else Inv(st)
  }

  lemma FailureApart(st: State)
    requires Inv(st) && Enabled(st, PollCq(Client, 0, 0))
    ensures Reach(Apply(st, PollCq(Client, 0, 0)))
    ensures Apply(st, PollCq(Client, 0, 0)).exposed <==> Unsafe(st)
  {
    assert st.c.sq == NoSend ==> st.c.rq == 1;
  }

  lemma ProgramApart(st: State, who: Who)
    requires st.c.failed && GivenUp(st) && Apart(st) && Enabled(st, Program(who))
    ensures Apart(Apply(st, Program(who)))
  {
  }

  lemma TransmitApart(st: State, who: Who)
    requires st.c.failed && GivenUp(st) && Apart(st) && Enabled(st, Transmit(who))
    ensures Apart(Apply(st, Transmit(who)))
  {
  }

  lemma DeliveryApart(st: State, who: Who)
    requires st.c.failed && GivenUp(st) && Apart(st) && Enabled(st, Deliver(who))
    ensures Apart(Apply(st, Deliver(who)))
  {
  }

  lemma CompletionApart(st: State, t: Step)
    requires st.c.failed && GivenUp(st) && Apart(st) && Enabled(st, t) && (t.CompleteSend? || t.CompleteDone?)
    ensures Apart(Apply(st, t))
  {
  }

  lemma WaitingApart(st: State, t: Step)
    requires st.c.failed && GivenUp(st) && Apart(st) && Enabled(st, t) && (t.TakeEvent? || t.ReArm?)
    ensures Apart(Apply(st, t))
  {
  }

  lemma PollApart(st: State, who: Who, sends: nat, recvs: nat)
    requires st.c.failed && GivenUp(st) && Apart(st) && Enabled(st, PollCq(who, sends, recvs))
    ensures Apart(Apply(st, PollCq(who, sends, recvs)))
  {
  }

  /** A client that has given up never waits again and keeps its counter. */
  predicate StaysGivenUp(st: State, st': State)
  {
    && st'.c.failed && st'.c.pc in {WriteDone, PostDone, Finished}
    && st'.cntr == st.cntr && st'.left == st.left && st'.exposed == st.exposed
  }

  lemma ProgramGivenUp(st: State, who: Who)
    requires st.c.failed && GivenUp(st) && Enabled(st, Program(who))
    ensures StaysGivenUp(st, Apply(st, Program(who)))
  {
  }

  lemma WaitingGivenUp(st: State, t: Step)
    requires st.c.failed && GivenUp(st) && Enabled(st, t) && (t.TakeEvent? || t.ReArm? || t.PollCq?)
    ensures StaysGivenUp(st, Apply(st, t))
  {
  }

  lemma DeliveryGivenUp(st: State, who: Who)
    requires st.c.failed && GivenUp(st) && Enabled(st, Deliver(who))
    ensures StaysGivenUp(st, Apply(st, Deliver(who)))
  {
  }

  lemma NetworkGivenUp(st: State, t: Step)
    requires st.c.failed && GivenUp(st) && Enabled(st, t) && (t.Transmit? || t.CompleteSend? || t.CompleteDone?)
    ensures StaysGivenUp(st, Apply(st, t))
  {
  }

  lemma GivenUpKept(st: State, t: Step)
    requires st.c.failed && GivenUp(st) && Enabled(st, t)
    ensures Apply(st, t).c.failed && GivenUp(Apply(st, t)) && Apply(st, t).exposed == st.exposed
  {
    hide Apply, Enabled;
    if t.Program? {
      ProgramGivenUp(st, t.who);
    } else if t.TakeEvent? || t.ReArm? || t.PollCq? {
      WaitingGivenUp(st, t);
    } else if t.Deliver? {
      DeliveryGivenUp(st, t.who);
    } else {
      NetworkGivenUp(st, t);
    }
    HistoryKept(st, t);
  }

  lemma KeepReach(st: State, t: Step)
    requires Reach(st) && Enabled(st, t)
    ensures Reach(Apply(st, t))
  {
    if !st.c.failed {
      if t == PollCq(Client, 0, 0) {
        FailureApart(st);
      } else {
        KeepStep(st, t);
      }
    } else {
      GivenUpKept(st, t);
      if !st.exposed {
        match t
        case Program(who) => ProgramApart(st, who);
        case TakeEvent(_) => WaitingApart(st, t);
        case ReArm(_) => WaitingApart(st, t);
        case PollCq(who, sends, recvs) => PollApart(st, who, sends, recvs);
        case Transmit(who) => TransmitApart(st, who);
        case Deliver(who) => DeliveryApart(st, who);
        case _ => CompletionApart(st, t);
      }
    }
  }

  // ---------------------------------------------------------------- whole runs

  lemma HistoryKept(st: State, t: Step)
    requires Enabled(st, t)
    ensures Apply(st, t).seed == st.seed && Apply(st, t).rounds == st.rounds
  {
  }

  lemma {:induction false} RunsKeepReach(st: State, ts: seq<Step>)
    requires Reach(st) && Runs(st, ts)
    ensures Reach(Final(st, ts)) && Final(st, ts).seed == st.seed && Final(st, ts).rounds == st.rounds
    decreases |ts|
  {
    if ts != [] {
      KeepReach(st, ts[0]);
      HistoryKept(st, ts[0]);
      RunsKeepReach(Apply(st, ts[0]), ts[1..]);
    }
  }

  lemma InitReach(st: State)
    requires Init(st)
    ensures Reach(st)
  {
    InitInv(st);
  }

  /** In every interleaving, unless the client's wait fails at an unsafe moment: no message meets an
      unposted receive and no program touches a buffer that an operation still owns.  As long as the
      client's wait has not failed, no wakeup is lost, and after k replies the client holds seed + k. */
  lemma PingPongSafe(st0: State, ts: seq<Step>)
    requires Init(st0) && Runs(st0, ts)
    ensures var st := Final(st0, ts);
            && (st.misused ==> st.c.failed && st.exposed)
            && (!st.c.failed ==>
                  && (st.c.pc == Wait && st.c.sendWc + st.c.recvWc > 0 ==> st.c.events > 0)
                  && (st.s.pc == Wait && st.s.sendWc + st.s.recvWc > 0 ==> st.s.events > 0)
                  && (st.c.pc == Head ==> st.cntr == st0.seed + st.k)
                  && st0.seed + st.k <= I_M_DONE)
  {
    InitReach(st0);
    RunsKeepReach(st0, ts);
  }

  /** A client that finishes holds the seed plus the rounds it has completed: one less than it was asked
      for (a request for none means 2^64) and, if its wait failed, less the ones then left as well. */
  lemma RoundsDone(st0: State, ts: seq<Step>)
    requires Init(st0) && Runs(st0, ts) && Final(st0, ts).c.pc == Finished
    ensures var st := Final(st0, ts);
            var asked := if st0.rounds == 0 then 0x1_0000_0000_0000_0000 else st0.rounds;
            && st.cntr == st0.seed + asked - 1 - st.left
            && (st.left > 0 <==> st.c.failed)
            && (!st.c.failed ==> st.k == asked - 1)
  {
    InitReach(st0);
    RunsKeepReach(st0, ts);
  }

  // ---------------------------------------------------------------- progress

  /** How an exchange without errors can end: both have finished, or the counter itself has reached the
      value that tells the server to stop. */
  predicate Ended(st: State)
  {
    && st.s.pc == Finished && st.c.sq == st.c.last == NoSend
    && st.toServer == st.toClient == []
    && (st.c.pc == Finished || st.seed + st.k == I_M_DONE)
  }

  function Least(a: nat, b: nat): nat { if a <= b then a else b }

  /** The step that a looping party can take on its own. */
  function OwnStep(x: Side, who: Who): Step
  {
    match x.pc
    case Wait => TakeEvent(who)
    case Rearm => ReArm(who)
    case Poll => PollCq(who, Least(x.sendWc, MAX_N_WC), Least(x.recvWc, MAX_N_WC - Least(x.sendWc, MAX_N_WC)))
    case _ => Program(who)
  }

  /** Neither party is ever stuck: an exchange that has not failed can go on until it has ended. */
  lemma NeverStuck(st: State) returns (t: Step)
    requires Inv(st) && !st.s.failed && !Ended(st)
    ensures Enabled(st, t)
  {
    if Enabled(st, OwnStep(st.c, Client)) {
      return OwnStep(st.c, Client);
    }
    if Enabled(st, OwnStep(st.s, Server)) {
      return OwnStep(st.s, Server);
    }
    Quiescent(st.c, Client, st);
    Quiescent(st.s, Server, st);
    match st.turn
    case AtClient => t := CompleteSend(Client);
    case ToServer => t := if Queued in {st.c.sq, st.c.last} then Transmit(Client) else Deliver(Server);
    case AtServer =>
      t := if st.s.pc != Finished then CompleteSend(Server)
      else if st.c.sq == Delivered then CompleteSend(Client) else CompleteDone;
    case ToClient => t := if st.s.sq == Queued then Transmit(Server) else Deliver(Client);
  }

  /** A party that can do nothing on its own is finished, or waits with an empty queue for an operation
      that is not yet complete. */
  lemma Quiescent(x: Side, who: Who, st: State)
    requires Inv(st) && x == Of(st, who) && !x.failed && !Enabled(st, OwnStep(x, who))
    ensures x.pc == Finished || (x.pc == Wait && x.sendWc == x.recvWc == x.events == 0)
    ensures x.pc == Wait && x.rq == 0 ==> x.sq != NoSend
  {
  }

  /** How many more steps, at most, a send, a program and a turn can lead to. */
  function SendingWeight(q: Sending): nat
  {
    match q case NoSend => 0 case Delivered => 5 case Sent => 6 case Queued => 7
  }

  function ProgramWeight(pc: Pc, who: Who): nat
  {
    match pc
    case Finished => 0
    case Wait => 10
    case Rearm => 12
    case Poll => 11
    case Process => 9
    case Head => 8
    case WriteSend => if who == Client then 61 else 8
    case PostRecv => if who == Client then 62 else 7
    case PostSend => if who == Client then 60 else 6
    case WriteDone => 60
    case PostDone => 59
  }

  function TurnWeight(t: Turn): nat
  {
    match t case AtClient => 0 case ToClient => 10 case AtServer => 30 case ToServer => 40
  }

  function SideWeight(x: Side, who: Who): nat
  {
    ProgramWeight(x.pc, who) + 4 * x.events + SendingWeight(x.sq) + SendingWeight(x.last)
  }

  function Remaining(st: State): nat
  {
    100 * st.left + TurnWeight(st.turn) + SideWeight(st.c, Client) + SideWeight(st.s, Server)
  }

  lemma ClientProgramSpends(st: State)
    requires Inv(st) && Enabled(st, Program(Client))
    ensures Remaining(Apply(st, Program(Client))) < Remaining(st)
  {
  }

  lemma ServerProgramSpends(st: State)
    requires Inv(st) && Enabled(st, Program(Server))
    ensures Remaining(Apply(st, Program(Server))) < Remaining(st)
  {
  }

  lemma TransmitSpends(st: State, who: Who)
    requires Enabled(st, Transmit(who))
    ensures Remaining(Apply(st, Transmit(who))) < Remaining(st)
  {
  }

  lemma CompletionSpends(st: State, t: Step)
    requires Enabled(st, t) && (t.CompleteSend? || t.CompleteDone?)
    ensures Remaining(Apply(st, t)) < Remaining(st)
  {
  }

  lemma DeliverySpends(st: State, who: Who)
    requires Inv(st) && Enabled(st, Deliver(who))
    ensures Remaining(Apply(st, Deliver(who))) < Remaining(st)
  {
  }

  lemma WaitingSpends(st: State, t: Step)
    requires Enabled(st, t) && (t.TakeEvent? || t.ReArm?)
    ensures Remaining(Apply(st, t)) < Remaining(st)
  {
  }

  lemma PollSpends(st: State, who: Who, sends: nat, recvs: nat)
    requires Enabled(st, PollCq(who, sends, recvs)) && (who == Client ==> sends + recvs > 0)
    ensures Remaining(Apply(st, PollCq(who, sends, recvs))) < Remaining(st)
  {
  }

  /** Every step uses up some of what remains. */
  lemma StepSpends(st: State, t: Step)
    requires Inv(st) && Enabled(st, t) && t != PollCq(Client, 0, 0)
    ensures Remaining(Apply(st, t)) < Remaining(st)
  {
    match t
    case Program(Client) => ClientProgramSpends(st);
    case Program(Server) => ServerProgramSpends(st);
    case Transmit(who) => TransmitSpends(st, who);
    case Deliver(who) => DeliverySpends(st, who);
    case CompleteSend(_) => CompletionSpends(st, t);
    case CompleteDone => CompletionSpends(st, t);
    case PollCq(who, sends, recvs) => PollSpends(st, who, sends, recvs);
    case _ => WaitingSpends(st, t);
  }

  lemma {:induction false} RunsSpend(st: State, ts: seq<Step>)
    requires Reach(st) && Runs(st, ts) && !Final(st, ts).c.failed
    ensures !st.c.failed && |ts| + Remaining(Final(st, ts)) <= Remaining(st)
    decreases |ts|
  {
    if ts != [] {
      var t, st' := ts[0], Apply(st, ts[0]);
      KeepReach(st, t);
      RunsSpend(st', ts[1..]);
      if st.c.failed {
        GivenUpKept(st, t);
        assert false;
      }
      assert t != PollCq(Client, 0, 0);
      StepSpends(st, t);
    }
  }

  /** While the client's wait has not failed, a run is no longer than a bound given by the rounds asked for;
      and where a run cannot go on, the exchange has ended or a wait has failed. */
  lemma RunsEnd(st0: State, ts: seq<Step>)
    requires Init(st0) && Runs(st0, ts)
    ensures var st := Final(st0, ts);
            && (!st.c.failed ==> |ts| <= 100 * Asked(st0) + 18)
            && ((forall t :: !Enabled(st, t)) ==> st.c.failed || st.s.failed || Ended(st))
  {
    InitReach(st0);
    RunsKeepReach(st0, ts);
    var st := Final(st0, ts);
    if !st.c.failed {
      RunsSpend(st0, ts);
      if !st.s.failed && !Ended(st) {
        var t := NeverStuck(st);
      }
    }
  }
}
