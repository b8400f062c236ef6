/** What the append protocol needs and what it achieves: both orderings are necessary, and with room
    in the log an iteration can always be driven to its acknowledgement. */
module AppendLogNeeds {
  import opened ByteStrings
  import opened AppendLog
  import opened AppendLogProof

  lemma {:induction false} RunExtends(pr: Protocol, s: State, ts: seq<Step>, t: Step)
    requires Runs(pr, s, ts)
    requires Shape(Final(pr, s, ts)) && Enabled(pr, Final(pr, s, ts), t)
    ensures Runs(pr, s, ts + [t])
    ensures Final(pr, s, ts + [t]) == Apply(pr, Final(pr, s, ts), t)
    decreases |ts|
  {
    if ts == [] {
      assert [t][1..] == [];
    } else {
      RunExtends(pr, Apply(pr, s, ts[0]), ts[1..], t);
      assert (ts + [t])[1..] == ts[1..] + [t];
    }
  }

  /** A run under construction. */
  ghost predicate Leads(pr: Protocol, s: State, ts: seq<Step>, s': State)
  {
    Runs(pr, s, ts) && Final(pr, s, ts) == s'
  }

  lemma Then(pr: Protocol, s: State, ts: seq<Step>, s1: State, t: Step) returns (ts': seq<Step>, s2: State)
    requires Leads(pr, s, ts, s1) && Shape(s1) && Enabled(pr, s1, t)
    ensures ts' == ts + [t] && s2 == Apply(pr, s1, t)
    ensures Leads(pr, s, ts', s2)
  {
    RunExtends(pr, s, ts, t);
    ts', s2 := ts + [t], Apply(pr, s1, t);
  }

  // ---------------------------------------------------------------- necessity

  ghost function Blank(): State
  {
    var mem := seq(8, _ => 0) + Encode(DATA_AT, 8) + seq(16, _ => 7);
    State(mem, mem, [], false, Idle, [], 0, 0, seq(MAX_WORD_LENGTH + 1, _ => 0), [], 0, 0, 0, [])
  }

  lemma BlankInit()
    ensures Init(Blank())
    ensures |Blank().visible| == 32 && forall p :: DATA_AT <= p < 32 ==> Blank().visible[p] == 7
  {
    Widths();
    DecodeEncode(DATA_AT, 8);
    assert Blank().visible[USED_AT..DATA_AT] == Encode(DATA_AT, 8);
  }

  lemma Started(pr: Protocol, arg: Bytes) returns (ts: seq<Step>, s: State)
    requires IsArg(arg) && |arg| == 1
    ensures Init(Blank()) && Leads(pr, Blank(), ts, s) && Shape(s) && s.pc == PostWrite && !s.failed
    ensures s.visible == s.persistent == Blank().visible && s.log == [] && s.sq == []
    ensures s.words == [Text(arg)] && s.next == 0 && s.used == DATA_AT && Text(arg) <= s.buf
  {
    BlankInit();
    var s0 := Blank();
    ts, s := Then(pr, s0, [], s0, Connect([arg]));
    ts, s := Then(pr, s0, ts, s, ReadUsed);
    ts, s := Then(pr, s0, ts, s, StartWord);
  }

  /** The requests of one word of two bytes, up to its atomic write, with these bytes placed. */
  function Requests(pr: Protocol, placed: set<nat>): seq<Request>
  {
    var flush := if pr.flushed then [Read(DATA_AT, false)] else [];
    [Write(DATA_AT, 2, placed)] + flush + [AtomicWrite(DATA_AT + 2, false)]
  }

  /** A state of the run below: the word is on its way, and nothing is persistent yet. */
  ghost predicate OnItsWay(s: State, arg: Bytes)
  {
    && Shape(s) && !s.failed && |s.visible| == |Blank().visible| && s.persistent == Blank().visible
    && s.log == [] && s.words == [Text(arg)] && s.next == 0 && Text(arg) <= s.buf
  }

  lemma WritePosted(pr: Protocol, arg: Bytes) returns (ts: seq<Step>, s: State)
    requires IsArg(arg) && |arg| == 1
    ensures Leads(pr, Blank(), ts, s) && OnItsWay(s, arg) && s.pc == PostFlush && s.used == DATA_AT
    ensures s.sq == [Write(DATA_AT, 2, {})]
  {
    ts, s := Started(pr, arg);
    hide Leads, Blank;
    ts, s := Then(pr, Blank(), ts, s, DoPostWrite);
  }

  /** One word posted up to its atomic write, with nothing placed yet. */
  lemma Posted(pr: Protocol, arg: Bytes) returns (ts: seq<Step>, s: State)
    requires IsArg(arg) && |arg| == 1
    ensures Leads(pr, Blank(), ts, s) && OnItsWay(s, arg) && s.sq == Requests(pr, {})
  {
    ts, s := WritePosted(pr, arg);
    hide Leads, Blank;
    ts, s := Then(pr, Blank(), ts, s, DoPostFlush);
    ts, s := Then(pr, Blank(), ts, s, DoPostAtomic);
  }

  lemma BytePlaced(pr: Protocol, arg: Bytes, ts: seq<Step>, s: State, placed: set<nat>, q: nat)
      returns (ts': seq<Step>, s': State)
    requires Leads(pr, Blank(), ts, s) && OnItsWay(s, arg) && s.sq == Requests(pr, placed) && q < 2
    requires |Blank().visible| == 32
    ensures Leads(pr, Blank(), ts', s') && OnItsWay(s', arg) && s'.sq == Requests(pr, placed + {q})
  {
    hide Leads, Blank;
    ts', s' := Then(pr, Blank(), ts, s, PlaceByte(0, q));
  }

  /** The word is placed, and nothing of it is persistent yet. */
  lemma WordPlaced(pr: Protocol, arg: Bytes) returns (ts: seq<Step>, s: State)
    requires IsArg(arg) && |arg| == 1
    ensures Leads(pr, Blank(), ts, s) && OnItsWay(s, arg) && s.sq == Requests(pr, {0, 1})
  {
    BlankInit();
    ts, s := Posted(pr, arg);
    ts, s := BytePlaced(pr, arg, ts, s, {}, 0);
    ts, s := BytePlaced(pr, arg, ts, s, {} + {0}, 1);
    assert {} + {0} + {1} == {0, 1};
  }

  /** Without the flush between the two writes, or without the fence, a crash can leave a `used`
      that covers bytes which never became persistent, although all were placed in order. */
  lemma WeakerBreaks(pr: Protocol) returns (s0: State, ts: seq<Step>)
    requires pr != LIBRARY
    ensures Init(s0) && Runs(pr, s0, ts)
    ensures !CrashConsistent(Final(pr, s0, ts))
  {
    s0 := Blank();
    BlankInit();
    var s: State;
    ts, s := WordPlaced(pr, [65]);
    hide Leads, Blank;
    var w, k := Text([65]), |s.sq| - 1;
    assert pr.fenced ==> k == 1 && s.sq[0].Write?;
    ts, s := Then(pr, s0, ts, s, PlaceAtomic(k));
    assert s.visible[USED_AT..DATA_AT] == Encode(DATA_AT + 2, 8);
    ts, s := Then(pr, s0, ts, s, EvictUsed);
    Torn(s, w);
  }

  lemma Torn(s: State, w: Bytes)
    requires Shape(s) && s.log == [w] && |w| == 2 && w[0] == 65
    requires s.persistent[USED_AT..DATA_AT] == Encode(DATA_AT + 2, 8)
    requires |s.persistent| == 32 && s.persistent[DATA_AT] == 7
    ensures !CrashConsistent(s)
  {
    Widths();
    DecodeEncode(DATA_AT + 2, 8);
    forall k | 0 <= k <= 1
      ensures !Holds(s.persistent, s.log[..k])
    {
      assert s.log[..0] == [] && s.log[..1] == [] + [w];
      FlatAppend([], w);
      assert [] + w == w;
      assert !At(s.persistent, DATA_AT, w) by {
        assert s.persistent[DATA_AT + 0] != w[0];
      }
    }
  }

  /** A posting order keeps the log crash consistent in all runs if and only if it is the library's:
      flushed between the two writes, and fenced. */
  lemma SafeIff(pr: Protocol)
    ensures pr == LIBRARY <==> forall s0, ts :: Init(s0) && Runs(pr, s0, ts) ==> CrashConsistent(Final(pr, s0, ts))
  {
    hide Init, Runs, Final, CrashConsistent;
    if pr == LIBRARY {
      forall s0, ts | Init(s0) && Runs(pr, s0, ts)
        ensures CrashConsistent(Final(pr, s0, ts))
      {
        AppendSafe(s0, ts);
      }
    } else {
      var s0, ts := WeakerBreaks(pr);
    }
  }

  // ---------------------------------------------------------------- progress

  predicate Appending(pc: Pc)
  {
    pc in {LoopHead, PostWrite, PostFlush, PostAtomic, PostSecondFlush, Waiting}
  }

  /** Where the word in flight, or the next one, goes. */
  function Start(s: State): nat
  {
    if s.sq != [] && s.sq[0].Write? then s.sq[0].off else s.used
  }

  /** The session is somewhere in an iteration of its loop that has not failed, and there is room for the
      word and for the flush. */
  ghost predicate Underway(s: State)
  {
    && Inv(s) && Appending(s.pc) && !s.failed && s.next < |s.words|
    && Start(s) + |Word(s)| <= |s.visible| && Start(s) + RAW_SIZE <= |s.visible|
  }

  /** As Then, for the library's protocol and keeping the invariant. */
  lemma Next(s0: State, ts: seq<Step>, s: State, t: Step) returns (ts': seq<Step>, s': State)
    requires Leads(LIBRARY, s0, ts, s) && Inv(s) && Enabled(LIBRARY, s, t)
    ensures s' == Apply(LIBRARY, s, t) && Leads(LIBRARY, s0, ts', s') && Inv(s')
  {
    ts', s' := Then(LIBRARY, s0, ts, s, t);
    KeepStep(s, t);
  }

  /** The same client at the same place, with the same requests posted. */
  ghost predicate SamePlace(s: State, s': State)
  {
    && s'.pc == s.pc && s'.next == s.next && s'.words == s.words && s'.failed == s.failed && s'.used == s.used
    && |s'.visible| == |s.visible| && |s'.sq| == |s.sq| && Start(s') == Start(s)
  }

  /** Placing byte q of the write. */
  lemma PlaceEffect(s: State, q: nat)
    requires Underway(s) && s.sq != [] && q < |Word(s)|
    ensures CanPlaceByte(s, 0, q)
    ensures var s' := PlacedByte(s, 0, q);
            && SamePlace(s, s') && s'.log == s.log && s'.sq[0].placed == s.sq[0].placed + {q}
            && Committed(s') == Committed(s) && forall i :: 1 <= i < |s.sq| ==> s'.sq[i] == s.sq[i]
  {
  }

  /** Place the bytes of the posted write from q on. */
  lemma {:induction false} PlaceFrom(s0: State, ts: seq<Step>, s: State, q: nat) returns (ts': seq<Step>, s': State)
    requires Leads(LIBRARY, s0, ts, s) && Underway(s) && s.sq != [] && q <= |Word(s)|
    requires forall i :: 0 <= i < q ==> i in s.sq[0].placed
    ensures Leads(LIBRARY, s0, ts', s') && Underway(s') && SamePlace(s, s') && s'.log == s.log
    ensures IsComplete(s'.sq[0]) && forall i :: 1 <= i < |s.sq| ==> s'.sq[i] == s.sq[i]
    decreases |Word(s)| - q
  {
    hide Leads, MemoryInv, SessionInv, PlacedIn, ClientInv;
    if q == |Word(s)| {
      ts', s' := ts, s;
    } else {
      PlaceEffect(s, q);
      ts', s' := Next(s0, ts, s, PlaceByte(0, q));
      ts', s' := PlaceFrom(s0, ts', s', q + 1);
    }
  }

  /** Let the flush at k finish, once everything before it is complete. */
  lemma FinishFlush(s0: State, ts: seq<Step>, s: State, k: nat) returns (ts': seq<Step>, s': State)
    requires Leads(LIBRARY, s0, ts, s) && Underway(s) && k in {1, 3} && k < |s.sq|
    requires forall i :: 0 <= i < k ==> IsComplete(s.sq[i])
    ensures Leads(LIBRARY, s0, ts', s') && Underway(s') && SamePlace(s, s') && s'.log == s.log
    ensures IsComplete(s'.sq[k]) && forall i :: 0 <= i < |s.sq| && i != k ==> s'.sq[i] == s.sq[i]
  {
    hide Leads, SessionInv, ClientInv, PlacedIn, At;
    if s.sq[k].done {
      ts', s' := ts, s;
    } else {
      ts', s' := Next(s0, ts, s, FinishRead(k));
    }
  }

  lemma CommitEffect(s: State)
    requires Underway(s) && |s.sq| >= 3 && !s.sq[2].done && IsComplete(s.sq[1])
    ensures CanPlaceAtomic(s, 2, true)
    ensures var s' := PlacedAtomic(s, 2);
            && SamePlace(s, s') && s'.log == s.log + [Word(s)] && IsComplete(s'.sq[2])
            && forall i :: 0 <= i < |s.sq| && i != 2 ==> s'.sq[i] == s.sq[i]
  {
    assert s.sq[..2] == [s.sq[0], s.sq[1]];
  }

  /** Let the atomic write be placed: the flush before it has finished. */
  lemma CommitWord(s0: State, ts: seq<Step>, s: State) returns (ts': seq<Step>, s': State)
    requires Leads(LIBRARY, s0, ts, s) && Underway(s) && |s.sq| >= 3 && IsComplete(s.sq[1])
    ensures Leads(LIBRARY, s0, ts', s') && Underway(s') && SamePlace(s, s')
    ensures s'.log == if s.sq[2].done then s.log else s.log + [Word(s)]
    ensures IsComplete(s'.sq[2]) && forall i :: 0 <= i < |s.sq| && i != 2 ==> s'.sq[i] == s.sq[i]
  {
    hide Leads;
    if s.sq[2].done {
      ts', s' := ts, s;
    } else {
      CommitEffect(s);
      ts', s' := Next(s0, ts, s, PlaceAtomic(2));
    }
  }

  /** The log once the word in flight is in it. */
  function WithWord(s: State): seq<Bytes>
    requires s.next < |s.words|
  {
    if Committed(s) then s.log else s.log + [Word(s)]
  }

  ghost predicate Settled(s: State)
  {
    forall i :: 0 <= i < |s.sq| ==> IsComplete(s.sq[i])
  }

  /** Everything that is posted can be brought to completion. */
  lemma Settle(s0: State, ts: seq<Step>, s: State) returns (ts': seq<Step>, s': State)
    requires Leads(LIBRARY, s0, ts, s) && Underway(s)
    ensures Leads(LIBRARY, s0, ts', s') && Underway(s') && SamePlace(s, s') && Settled(s')
    ensures WithWord(s') == WithWord(s) && (|s.sq| < 3 ==> s'.log == s.log)
  {
    hide Leads, MemoryInv, ClientInv, SessionInv, PlacedIn;
    ts', s' := ts, s;
    if |s.sq| >= 1 {
      ts', s' := PlaceFrom(s0, ts', s', 0);
    }
    if |s.sq| >= 2 {
      ts', s' := FinishFlush(s0, ts', s', 1);
    }
    if |s.sq| >= 3 {
      ts', s' := CommitWord(s0, ts', s');
    }
    if |s.sq| >= 4 {
      ts', s' := FinishFlush(s0, ts', s', 3);
    }
  }

  /** The client's next step. */
  function Post(pc: Pc): Step
  {
    match pc
    case LoopHead => StartWord
    case PostWrite => DoPostWrite
    case PostFlush => DoPostFlush
    case PostAtomic => DoPostAtomic
    case PostSecondFlush => DoPostSecondFlush
    case _ => Complete
  }

  function ToGo(pc: Pc): nat
  {
    match pc
    case LoopHead => 5
    case PostWrite => 4
    case PostFlush => 3
    case PostAtomic => 2
    case PostSecondFlush => 1
    case _ => 0
  }

  lemma PostEffect(s: State)
    requires Underway(s) && s.pc != Waiting
    ensures Enabled(LIBRARY, s, Post(s.pc))
    ensures var s' := Apply(LIBRARY, s, Post(s.pc));
            && Appending(s'.pc) && ToGo(s'.pc) < ToGo(s.pc) && Start(s') == Start(s) && Committed(s') == Committed(s)
            && s'.next == s.next && s'.words == s.words && s'.failed == s.failed && |s'.visible| == |s.visible|
            && s'.log == s.log
  {
  }

  /** The end of an iteration: the word is in the log, and acknowledged. */
  ghost predicate Acknowledged(s: State, s': State)
    requires s.next < |s.words|
  {
    && Inv(s') && s'.pc == LoopHead && s'.next == s.next + 1 && s'.words == s.words
    && s'.log == WithWord(s) && s'.acked == |s'.log|
  }

  lemma {:induction false} Advance(s0: State, ts: seq<Step>, s: State) returns (ts': seq<Step>, s': State)
    requires Leads(LIBRARY, s0, ts, s) && Underway(s)
    ensures Leads(LIBRARY, s0, ts', s') && Acknowledged(s, s')
    decreases ToGo(s.pc)
  {
    hide Leads, MemoryInv, SessionInv, PlacedIn;
    if s.pc == Waiting {
      ts', s' := Settle(s0, ts, s);
      ts', s' := Next(s0, ts', s', Complete);
    } else {
      PostEffect(s);
      ts', s' := Next(s0, ts, s, Post(s.pc));
      var s1 := s';
      ts', s' := Advance(s0, ts', s1);
    }
  }

  /** From every state of an iteration that has not failed, with room in the log, the word can be appended
      and acknowledged. */
  lemma CanAppend(s0: State) returns (ts: seq<Step>)
    requires Underway(s0)
    ensures Runs(LIBRARY, s0, ts) && Acknowledged(s0, Final(LIBRARY, s0, ts))
  {
    var s: State;
    ts, s := Advance(s0, [], s0);
  }
}
