/** Safety of the remote append protocol in every crash state of every run. */
module AppendLogProof {
  import opened ByteStrings
  import opened AppendLog

  const LIBRARY := Protocol(true, true)

  lemma {:induction false} FlatPrefix(log: seq<Bytes>, k: nat)
    requires k <= |log|
    ensures Flat(log[..k]) <= Flat(log)
  {
    if k < |log| {
      FlatPrefix(log[..|log| - 1], k);
      assert log[..|log| - 1][..k] == log[..k];
    } else {
      assert log[..k] == log;
    }
  }

  lemma FlatAppend(log: seq<Bytes>, w: Bytes)
    ensures Flat(log + [w]) == Flat(log) + w
  {
    assert (log + [w])[..|log|] == log;
  }

  /** Memory that agrees on the `used` field has the same `used`. */
  lemma SameUsed(a: Bytes, b: Bytes)
    requires |a| == |b| >= DATA_AT
    requires forall p :: USED_AT <= p < DATA_AT ==> a[p] == b[p]
    ensures UsedOf(a) == UsedOf(b)
  {
    assert a[USED_AT..DATA_AT] == b[USED_AT..DATA_AT];
  }

  lemma InitInv(s: State)
    requires Init(s)
    ensures Inv(s)
  {
    assert s.log[..0] == [];
  }

  /** A committed word is the last of the log, so the log's bytes include it. */
  lemma CommittedWord(s: State)
    requires MemoryInv(s) && FlightInv(s) && Committed(s)
    ensures At(s.visible, s.sq[0].off, Word(s))
  {
    var n := |s.log| - 1;
    assert s.log == s.log[..n] + [Word(s)];
    FlatAppend(s.log[..n], Word(s));
    forall k | 0 <= k < |Word(s)|
      ensures s.visible[s.sq[0].off + k] == Word(s)[k]
    {
      var i := |Flat(s.log[..n])| + k;
      assert s.visible[DATA_AT + i] == Flat(s.log)[i];
    }
  }

  /** Writing into the visible memory past the log, or rewriting what is there, keeps the log. */
  lemma KeepMemory(s: State, at: nat, b: Byte, sq: seq<Request>)
    requires MemoryInv(s) && DATA_AT <= at < |s.visible|
    requires at < DATA_AT + |Flat(s.log)| ==> s.visible[at] == b
    ensures MemoryInv(s.(visible := s.visible[at := b], sq := sq))
  {
    SameUsed(s.visible, s.visible[at := b]);
  }

  /** s' differs from s only in memory and in how far the requests have got. */
  ghost predicate SameControl(s: State, s': State)
  {
    && s'.pc == s.pc && s'.words == s.words && s'.next == s.next && s'.used == s.used && s'.buf == s.buf
    && s'.log == s.log && s'.base == s.base && s'.acked == s.acked
    && |s'.sq| == |s.sq| && Committed(s') == Committed(s)
    && (s.sq != [] && s.sq[0].Write? ==> s'.sq[0].Write? && s'.sq[0].off == s.sq[0].off)
  }

  lemma KeepControl(s: State, s': State)
    requires ClientInv(s) && SessionInv(s) && SameControl(s, s')
    ensures ClientInv(s') && SessionInv(s')
  {
  }

  lemma PlaceByteFlight(s: State, q: nat)
    requires FlightInv(s) && CanPlaceByte(s, 0, q)
    ensures FlightInv(PlacedByte(s, 0, q)) && SameControl(s, PlacedByte(s, 0, q))
  {
    assert s.buf[q] == Word(s)[q];
  }

  lemma PlaceByteMemory(s: State, q: nat)
    requires MemoryInv(s) && FlightInv(s) && CanPlaceByte(s, 0, q)
    ensures MemoryInv(PlacedByte(s, 0, q))
  {
    var w := s.sq[0];
    assert s.buf[q] == Word(s)[q];
    if Committed(s) {
      CommittedWord(s);
    }
    KeepMemory(s, w.off + q, s.buf[q], PlacedByte(s, 0, q).sq);
  }

  lemma KeepPlaceByte(s: State, k: nat, q: nat)
    requires Inv(s) && CanPlaceByte(s, k, q)
    ensures Inv(PlacedByte(s, k, q))
  {
    assert k == 0;
    PlaceByteMemory(s, q);
    PlaceByteFlight(s, q);
    KeepControl(s, PlacedByte(s, 0, q));
  }

  // ---------------------------------------------------------------- flushes

  /** Forcing out bytes keeps the persistent log; if it forces out `used`, the whole log is kept. */
  lemma ForcedOutMemory(s: State, k: nat, sq: seq<Request>)
    requires MemoryInv(s) && FlightInv(s) && k <= |s.sq|
    ensures var kept := if Touches(s.sq[..k], USED_AT) then |s.log| else s.kept;
            MemoryInv(s.(persistent := ForcedOut(s, s.sq[..k]), kept := kept, sq := sq))
  {
    var mem := ForcedOut(s, s.sq[..k]);
    assert s.log[..|s.log|] == s.log;
    forall p | USED_AT <= p < DATA_AT
      ensures mem[p] == if k >= 3 then s.visible[p] else s.persistent[p]
    {
      UsedTouched(s, k, p);
    }
    UsedTouched(s, k, USED_AT);
    SameUsed(if k >= 3 then s.visible else s.persistent, mem);
  }

  /** The `used` field is written by the requests before k exactly when the atomic write is one. */
  lemma UsedTouched(s: State, k: nat, p: nat)
    requires MemoryInv(s) && FlightInv(s) && k <= |s.sq| && USED_AT <= p < DATA_AT
    ensures Touches(s.sq[..k], p) <==> k >= 3
  {
    var sq := s.sq[..k];
    assert forall i :: 0 <= i < k ==> sq[i] == s.sq[i];
    if k >= 3 {
      assert sq[2].AtomicWrite?;
    }
  }

  /** The first flush persists the word; the second, coming after the atomic write, persists `used`. */
  lemma FinishReadFlight(s: State, k: nat)
    requires MemoryInv(s) && FlightInv(s) && CanFinishRead(s, k)
    ensures FlightInv(FinishedRead(s, k)) && SameControl(s, FinishedRead(s, k))
  {
    var s', off, w := FinishedRead(s, k), s.sq[0].off, Word(s);
    assert k == 1 || k == 3;
    assert IsComplete(s.sq[0]);
    forall q | 0 <= q < |w|
      ensures off + q < |s.visible| && s'.persistent[off + q] == w[q]
    {
      assert q in s.sq[0].placed;
      assert s.sq[..k][0] == s.sq[0];
      assert Touches(s.sq[..k], off + q);
    }
    if k == 3 {
      assert s.sq[..k][2] == s.sq[2];
      assert Touches(s.sq[..k], USED_AT);
    }
  }

  lemma KeepFinishRead(s: State, k: nat)
    requires Inv(s) && CanFinishRead(s, k)
    ensures Inv(FinishedRead(s, k))
  {
    ForcedOutMemory(s, k, FinishedRead(s, k).sq);
    FinishReadFlight(s, k);
    KeepControl(s, FinishedRead(s, k));
  }

  // ---------------------------------------------------------------- the atomic write

  /** By the fence the word is already persistent when `used` starts to cover it. */
  lemma AtomicNeedsWord(s: State, k: nat)
    requires MemoryInv(s) && FlightInv(s) && CanPlaceAtomic(s, k, true)
    ensures k == 2 && s.sq[1].done && !Committed(s)
    ensures s.sq[0].off == DATA_AT + |Flat(s.log)|
    ensures At(s.visible, s.sq[0].off, Word(s)) && At(s.persistent, s.sq[0].off, Word(s))
    ensures s.sq[2].value == s.sq[0].off + |Word(s)|
  {
    assert s.sq[..k][1] == s.sq[1];
    assert forall q :: 0 <= q < |Word(s)| ==> q in s.sq[0].placed;
  }

  /** Writing the `used` field changes it alone. */
  lemma UsedWritten(mem: Bytes, used: nat)
    requires DATA_AT <= |mem| && used < U64
    ensures var mem' := Patch(mem, USED_AT, Encode(used, DATA_AT - USED_AT));
            && |mem'| == |mem| && UsedOf(mem') == used
            && forall i :: DATA_AT <= i < |mem| ==> mem'[i] == mem[i]
  {
    Widths();
    DecodeEncode(used, 8);
    assert Patch(mem, USED_AT, Encode(used, 8))[USED_AT..DATA_AT] == Encode(used, 8);
  }

  lemma PlaceAtomicMemory(s: State, k: nat)
    requires MemoryInv(s) && FlightInv(s) && CanPlaceAtomic(s, k, true)
    ensures MemoryInv(PlacedAtomic(s, k))
  {
    AtomicNeedsWord(s, k);
    UsedWritten(s.visible, s.sq[2].value);
    CommitMemory(s, PlacedAtomic(s, k), Word(s));
  }

  lemma CommitMemory(s: State, s': State, w: Bytes)
    requires MemoryInv(s) && Shape(s')
    requires s'.log == s.log + [w] && s'.kept == s.kept && s'.acked == s.acked
    requires At(s.visible, DATA_AT + |Flat(s.log)|, w) && At(s.persistent, DATA_AT + |Flat(s.log)|, w)
    requires s'.persistent == s.persistent && UsedOf(s'.visible) == DATA_AT + |Flat(s.log)| + |w|
    requires forall i :: DATA_AT <= i < |s.visible| ==> s'.visible[i] == s.visible[i]
    ensures MemoryInv(s')
  {
    FlatAppend(s.log, w);
    assert s'.log[..s.kept] == s.log[..s.kept];
    LogGrows(s.visible, s.log, w);
    LogGrows(s.persistent, s.log, w);
  }

  lemma LogGrows(mem: Bytes, log: seq<Bytes>, w: Bytes)
    requires At(mem, DATA_AT, Flat(log)) && At(mem, DATA_AT + |Flat(log)|, w)
    ensures At(mem, DATA_AT, Flat(log + [w]))
  {
    FlatAppend(log, w);
    forall k | 0 <= k < |Flat(log) + w|
      ensures mem[DATA_AT + k] == (Flat(log) + w)[k]
    {
      if k >= |Flat(log)| {
        assert mem[DATA_AT + |Flat(log)| + (k - |Flat(log)|)] == w[k - |Flat(log)|];
      }
    }
  }

  lemma PlaceAtomicFlight(s: State, k: nat)
    requires MemoryInv(s) && FlightInv(s) && CanPlaceAtomic(s, k, true)
    ensures FlightInv(PlacedAtomic(s, k))
  {
    AtomicNeedsWord(s, k);
    var s' := PlacedAtomic(s, k);
    FlatAppend(s.log, Word(s));
    assert forall i :: DATA_AT <= i < |s.visible| ==> s'.visible[i] == s.visible[i];
    assert |s.sq| >= 4 ==> !s.sq[3].done;
  }

  lemma PlaceAtomicControl(s: State)
    requires FlightInv(s) && ClientInv(s) && SessionInv(s) && CanPlaceAtomic(s, 2, true)
    ensures ClientInv(PlacedAtomic(s, 2)) && SessionInv(PlacedAtomic(s, 2))
  {
    var s' := PlacedAtomic(s, 2);
    assert Committed(s') && !Committed(s);
    if s.pc == PostSecondFlush || s.pc == Waiting {
      assert s'.log[s.base..] == s.log[s.base..] + [Word(s)];
    }
  }

  lemma KeepPlaceAtomic(s: State, k: nat)
    requires Inv(s) && CanPlaceAtomic(s, k, true)
    ensures Inv(PlacedAtomic(s, k))
  {
    AtomicNeedsWord(s, k);
    PlaceAtomicMemory(s, k);
    PlaceAtomicFlight(s, k);
    PlaceAtomicControl(s);
  }

  // ---------------------------------------------------------------- evictions and crashes

  lemma EvictByteFlight(s: State, p: nat)
    requires FlightInv(s) && p < |s.visible| == |s.persistent|
    ensures FlightInv(s.(persistent := s.persistent[p := s.visible[p]]))
  {
    if |s.sq| >= 2 && s.sq[1].done {
      assert forall q :: 0 <= q < |Word(s)| ==> q in s.sq[0].placed;
    }
  }

  lemma KeepEvictByte(s: State, p: nat)
    requires Inv(s) && p < |s.visible| && !(USED_AT <= p < DATA_AT)
    ensures Inv(s.(persistent := s.persistent[p := s.visible[p]]))
  {
    var s' := s.(persistent := s.persistent[p := s.visible[p]]);
    SameUsed(s.persistent, s'.persistent);
    EvictByteFlight(s, p);
    KeepControl(s, s');
  }

  lemma KeepEvictUsed(s: State)
    requires Inv(s)
    ensures Inv(EvictedUsed(s))
  {
    var s' := EvictedUsed(s);
    assert s.log[..|s.log|] == s.log;
    assert s'.persistent[USED_AT..DATA_AT] == s.visible[USED_AT..DATA_AT];
    assert forall i :: DATA_AT <= i < |s.visible| ==> s'.persistent[i] == s.persistent[i];
    KeepControl(s, s');
  }

  lemma KeepCrash(s: State)
    requires Inv(s)
    ensures Inv(Crashed(s))
  {
    FlatPrefix(s.log, s.kept);
    assert s.log[..s.kept][..s.kept] == s.log[..s.kept];
  }

  // ---------------------------------------------------------------- the client

  lemma KeepReadUsed(s: State)
    requires Inv(s) && Enabled(LIBRARY, s, ReadUsed)
    ensures Inv(Apply(LIBRARY, s, ReadUsed))
  {
    assert s.log[|s.log|..] == s.words[..0] + [];
  }

  lemma KeepStartWord(s: State)
    requires Inv(s) && Enabled(LIBRARY, s, StartWord)
    ensures Inv(Apply(LIBRARY, s, StartWord))
  {
  }

  lemma KeepPostWrite(s: State)
    requires Inv(s) && Enabled(LIBRARY, s, DoPostWrite)
    ensures Inv(Apply(LIBRARY, s, DoPostWrite))
  {
  }

  lemma KeepPostFlush(s: State)
    requires Inv(s) && Enabled(LIBRARY, s, DoPostFlush)
    ensures Inv(Apply(LIBRARY, s, DoPostFlush))
  {
  }

  lemma KeepPostAtomic(s: State)
    requires Inv(s) && Enabled(LIBRARY, s, DoPostAtomic)
    ensures Inv(Apply(LIBRARY, s, DoPostAtomic))
  {
  }

  lemma KeepPostSecondFlush(s: State)
    requires Inv(s) && Enabled(LIBRARY, s, DoPostSecondFlush)
    ensures Inv(Apply(LIBRARY, s, DoPostSecondFlush))
  {
    SecondFlushFlight(s);
    SecondFlushControl(s);
  }

  lemma SecondFlushFlight(s: State)
    requires FlightInv(s) && |s.sq| == 3
    ensures FlightInv(s.(sq := s.sq + [Read(USED_AT, false)], pc := Waiting))
  {
    hide At, PlacedIn, Flat, Add64;
    var s' := s.(sq := s.sq + [Read(USED_AT, false)], pc := Waiting);
    assert s'.sq[0] == s.sq[0] && s'.sq[1] == s.sq[1] && s'.sq[2] == s.sq[2];
  }

  lemma SecondFlushControl(s: State)
    requires ClientInv(s) && SessionInv(s) && s.pc == PostSecondFlush
    ensures var s' := s.(sq := s.sq + [Read(USED_AT, false)], pc := Waiting); ClientInv(s') && SessionInv(s')
  {
    hide Flat, Add64;
    var s' := s.(sq := s.sq + [Read(USED_AT, false)], pc := Waiting);
    assert s'.sq[0] == s.sq[0] && s'.sq[2] == s.sq[2] && Committed(s') == Committed(s);
  }

  lemma KeepComplete(s: State)
    requires Inv(s) && Enabled(LIBRARY, s, Complete)
    ensures Inv(Apply(LIBRARY, s, Complete))
  {
    assert s.sq[3].done && Committed(s);
    assert s.words[..s.next + 1] == s.words[..s.next] + [Word(s)] + [];
  }

  lemma KeepConnect(s: State, args: seq<Bytes>)
    requires Inv(s) && Enabled(LIBRARY, s, Connect(args))
    ensures Inv(Apply(LIBRARY, s, Connect(args)))
  {
  }

  lemma KeepLeave(s: State)
    requires Inv(s)
    ensures Inv(s.(pc := Leaving))
  {
  }

  lemma KeepClose(s: State)
    requires Inv(s)
    ensures Inv(s.(sq := [], failed := false, pc := Idle))
  {
  }

  lemma KeepFail(s: State)
    requires Inv(s)
    ensures Inv(s.(failed := true))
  {
    KeepControl(s, s.(failed := true));
  }

  /** Every step of the machine keeps the invariant. */
  lemma KeepStep(s: State, t: Step)
    requires Inv(s) && Enabled(LIBRARY, s, t)
    ensures Inv(Apply(LIBRARY, s, t))
  {
    match t {
      case PlaceByte(k, q) => KeepPlaceByte(s, k, q);
      case FinishRead(k) => KeepFinishRead(s, k);
      case PlaceAtomic(k) => KeepPlaceAtomic(s, k);
      case EvictByte(p) => KeepEvictByte(s, p);
      case EvictUsed => KeepEvictUsed(s);
      case Crash => KeepCrash(s);
      case ReadUsed => KeepReadUsed(s);
      case StartWord => KeepStartWord(s);
      case DoPostWrite => KeepPostWrite(s);
      case DoPostFlush => KeepPostFlush(s);
      case DoPostAtomic => KeepPostAtomic(s);
      case DoPostSecondFlush => KeepPostSecondFlush(s);
      case Complete => KeepComplete(s);
      case Connect(args) => KeepConnect(s, args);
      case Finish => KeepLeave(s);
      case GiveUp => KeepLeave(s);
      case Close => KeepClose(s);
      case Fail => KeepFail(s);
    }
  }

  // ---------------------------------------------------------------- whole runs

  ghost predicate Runs(pr: Protocol, s: State, ts: seq<Step>)
    decreases |ts|
  {
    ts == [] || (Shape(s) && Enabled(pr, s, ts[0]) && Runs(pr, Apply(pr, s, ts[0]), ts[1..]))
  }

  ghost function Final(pr: Protocol, s: State, ts: seq<Step>): State
    requires Runs(pr, s, ts)
    decreases |ts|
  {
    if ts == [] then s else Final(pr, Apply(pr, s, ts[0]), ts[1..])
  }

  lemma {:induction false} RunsKeepInv(s: State, ts: seq<Step>)
    requires Inv(s) && Runs(LIBRARY, s, ts)
    ensures Inv(Final(LIBRARY, s, ts))
    decreases |ts|
  {
    if ts != [] {
      KeepStep(s, ts[0]);
      RunsKeepInv(Apply(LIBRARY, s, ts[0]), ts[1..]);
    }
  }

  /** Whatever the client, the queue pair and the memory do, over any number of sessions, failures
      and crashes: the memory that would survive a crash now holds a prefix of the words committed so
      far, including all acknowledged ones, and at most four requests are outstanding. */
  lemma AppendSafe(s0: State, ts: seq<Step>)
    requires Init(s0) && Runs(LIBRARY, s0, ts)
    ensures var s := Final(LIBRARY, s0, ts);
            && CrashConsistent(s)
            && Holds(s.visible, s.log)
            && |s.sq| <= 4 < SQ_SIZE
  {
    InitInv(s0);
    RunsKeepInv(s0, ts);
    var s := Final(LIBRARY, s0, ts);
    FlatPrefix(s.log, s.kept);
    assert Holds(s.persistent, s.log[..s.kept]);
  }

  /** Whatever step a run takes next, it changes the word buffer only if no posted request can still
      read it. */
  lemma BufferNeverInUse(s0: State, ts: seq<Step>, t: Step)
    requires Init(s0) && Runs(LIBRARY, s0, ts)
    requires var s := Final(LIBRARY, s0, ts); Shape(s) && Enabled(LIBRARY, s, t)
    ensures var s := Final(LIBRARY, s0, ts); Apply(LIBRARY, s, t).buf != s.buf ==> s.sq == []
  {
    InitInv(s0);
    RunsKeepInv(s0, ts);
  }

  lemma ArgsKept(s: State, t: Step)
    requires Inv(s) && WordsOf(s.words, s.args) && Enabled(LIBRARY, s, t)
    ensures var s' := Apply(LIBRARY, s, t); WordsOf(s'.words, s'.args)
    ensures Apply(LIBRARY, s, t).args == if t.Connect? then t.args else s.args
  {
  }

  /** The arguments that the last session of a run was started with, or those from before it. */
  ghost function Given(before: seq<Bytes>, ts: seq<Step>): seq<Bytes>
    decreases |ts|
  {
    if ts == [] then before else Given(if ts[0].Connect? then ts[0].args else before, ts[1..])
  }

  lemma {:induction false} RunsKeepArgs(s: State, ts: seq<Step>)
    requires Inv(s) && WordsOf(s.words, s.args) && Runs(LIBRARY, s, ts)
    ensures var s' := Final(LIBRARY, s, ts); WordsOf(s'.words, s'.args) && s'.args == Given(s.args, ts)
    decreases |ts|
  {
    hide Inv, WordsOf, Enabled, Apply;
    if ts != [] {
      KeepStep(s, ts[0]);
      ArgsKept(s, ts[0]);
      RunsKeepArgs(Apply(LIBRARY, s, ts[0]), ts[1..]);
    }
  }

  /** A session that has come to the end of its loop has appended exactly its arguments, in order, each cut to
      1023 bytes and with one NUL after it, and they are durable. */
  lemma SessionAppends(s0: State, ts: seq<Step>)
    requires Init(s0) && Runs(LIBRARY, s0, ts)
    ensures var s, args := Final(LIBRARY, s0, ts), Given([], ts);
            s.pc == LoopHead && s.next == |args| > 0 ==>
              && s.base <= |s.log| && WordsOf(s.log[s.base..], args)
              && Holds(s.persistent, s.log)
  {
    InitInv(s0);
    RunsKeepInv(s0, ts);
    RunsKeepArgs(s0, ts);
    var s := Final(LIBRARY, s0, ts);
    if s.pc == LoopHead && s.next == |s.words| > 0 {
      assert s.words[..s.next] == s.words;
      assert |s.log[s.base..]| == |s.words|;
      assert s.kept == |s.log| && s.log[..s.kept] == s.log;
    }
  }

  lemma AcknowledgedKept(s: State, t: Step)
    requires Inv(s) && Enabled(LIBRARY, s, t)
    ensures var s' := Apply(LIBRARY, s, t);
            s.acked <= s'.acked <= |s'.log| && s'.log[..s.acked] == s.log[..s.acked]
  {
  }

  lemma SamePrefix(a: seq<Bytes>, b: seq<Bytes>, n: nat, m: nat)
    requires m <= n <= |a| && n <= |b| && a[..n] == b[..n]
    ensures a[..m] == b[..m]
  {
    assert a[..m] == a[..n][..m];
  }

  /** No later crash, failure or session loses an acknowledged word. */
  lemma {:induction false} AcknowledgedForever(s: State, ts: seq<Step>)
    requires Inv(s) && Runs(LIBRARY, s, ts)
    ensures var s' := Final(LIBRARY, s, ts);
            s.acked <= s'.acked <= |s'.log| && s'.log[..s.acked] == s.log[..s.acked]
    decreases |ts|
  {
    if ts != [] {
      var s1 := Apply(LIBRARY, s, ts[0]);
      KeepStep(s, ts[0]);
      AcknowledgedKept(s, ts[0]);
      AcknowledgedForever(s1, ts[1..]);
      SamePrefix(s1.log, Final(LIBRARY, s1, ts[1..]).log, s1.acked, s.acked);
    }
  }

  // ---------------------------------------------------------------- recovery

  /** Split at each NUL; what follows the last NUL is dropped. */
  function Split(bs: Bytes): seq<Bytes>
    decreases |bs|
  {
    var n := Upto(bs);
    if n == |bs| then [] else [bs[..n + 1]] + Split(bs[n + 1..])
  }

  /** The position of the first NUL, or the length. */
  function Upto(bs: Bytes): (n: nat)
    ensures n <= |bs|
    ensures forall i :: 0 <= i < n ==> bs[i] != 0
    ensures n < |bs| ==> bs[n] == 0
  {
    if bs == [] || bs[0] == 0 then 0 else 1 + Upto(bs[1..])
  }

  lemma SplitFirst(w: Bytes, rest: Bytes)
    requires IsWord(w)
    ensures Split(w + rest) == [w] + Split(rest)
  {
    var bs := w + rest;
    assert bs[|w| - 1] == 0;
    assert forall i :: 0 <= i < |w| - 1 ==> bs[i] == w[i] != 0;
    assert Upto(bs) == |w| - 1;
    assert bs[..|w|] == w && bs[|w|..] == rest;
  }

  lemma {:induction false} FlatFirst(w: Bytes, log: seq<Bytes>)
    ensures Flat([w] + log) == w + Flat(log)
  {
    var all := [w] + log;
    if log == [] {
      assert all == [w] && all[..0] == [];
    } else {
      var n := |log| - 1;
      assert all[..|all| - 1] == [w] + log[..n];
      FlatFirst(w, log[..n]);
    }
  }

  /** Splitting the bytes of a log gives back exactly its words. */
  lemma {:induction false} SplitFlat(log: seq<Bytes>)
    requires AllWords(log)
    ensures Split(Flat(log)) == log
  {
    if log != [] {
      assert log == [log[0]] + log[1..];
      FlatFirst(log[0], log[1..]);
      SplitFirst(log[0], Flat(log[1..]));
      SplitFlat(log[1..]);
    }
  }

  lemma LogWords(s: State, t: Step)
    requires Inv(s) && Enabled(LIBRARY, s, t) && AllWords(s.log)
    ensures AllWords(Apply(LIBRARY, s, t).log)
  {
  }

  lemma {:induction false} RunsKeepWords(s: State, ts: seq<Step>)
    requires Inv(s) && Runs(LIBRARY, s, ts) && AllWords(s.log)
    ensures AllWords(Final(LIBRARY, s, ts).log)
    decreases |ts|
  {
    if ts != [] {
      KeepStep(s, ts[0]);
      LogWords(s, ts[0]);
      RunsKeepWords(Apply(LIBRARY, s, ts[0]), ts[1..]);
    }
  }

  /** What a reader of the surviving memory recovers by splitting the data at its NULs: the words
      committed so far up to some k that covers every acknowledged one. */
  lemma Recovery(s0: State, ts: seq<Step>) returns (k: nat)
    requires Init(s0) && Runs(LIBRARY, s0, ts)
    ensures var s := Final(LIBRARY, s0, ts);
            && s.acked <= k <= |s.log|
            && DATA_AT <= |s.persistent| && DATA_AT <= UsedOf(s.persistent) <= |s.persistent|
            && Split(s.persistent[DATA_AT..UsedOf(s.persistent)]) == s.log[..k]
  {
    AppendSafe(s0, ts);
    InitInv(s0);
    RunsKeepInv(s0, ts);
    RunsKeepWords(s0, ts);
    var s := Final(LIBRARY, s0, ts);
    k :| s.acked <= k <= |s.log| && Holds(s.persistent, s.log[..k]);
    var ws := s.log[..k];
    assert s.persistent[DATA_AT..UsedOf(s.persistent)] == Flat(ws);
    SplitFlat(ws);
  }

  /** How the server prints bytes: a NUL as a newline. */
  function Printed(bs: Bytes): (out: Bytes)
    ensures |out| == |bs|
  {
    seq(|bs|, i requires 0 <= i < |bs| => if bs[i] == 0 then 10 else bs[i])
  }

  /** The server's final loop over the log's data. */
  method PrintLog(mem: Bytes) returns (out: Bytes)
    requires DATA_AT <= |mem| && DATA_AT <= UsedOf(mem) <= |mem|
    ensures out == Printed(mem[DATA_AT..UsedOf(mem)])
  {
    out := [];
    var ptr, tail := DATA_AT, UsedOf(mem);
    while ptr < tail
      invariant DATA_AT <= ptr <= tail
      invariant out == Printed(mem[DATA_AT..ptr])
    {
      out := out + [if mem[ptr] == 0 then 10 else mem[ptr]];
      ptr := ptr + 1;
    }
  }

  /** Each word as a line. */
  function Lines(log: seq<Bytes>): seq<Bytes>
    requires AllWords(log)
  {
    seq(|log|, i requires 0 <= i < |log| => log[i][..|log[i]| - 1] + [10])
  }

  /** The printed log is one line per word. */
  lemma {:induction false} PrintedLines(log: seq<Bytes>)
    requires AllWords(log)
    ensures Printed(Flat(log)) == Flat(Lines(log))
  {
    if log != [] {
      var n := |log| - 1;
      PrintedLines(log[..n]);
      assert Lines(log)[..n] == Lines(log[..n]);
      assert Printed(Flat(log[..n]) + log[n]) == Printed(Flat(log[..n])) + Printed(log[n]);
      assert Printed(log[n]) == Lines(log)[n];
    }
  }

  /** What the server prints from the surviving memory: a line for each of the recovered words. */
  lemma RecoveredLines(s0: State, ts: seq<Step>) returns (k: nat)
    requires Init(s0) && Runs(LIBRARY, s0, ts)
    ensures var s := Final(LIBRARY, s0, ts);
            && s.acked <= k <= |s.log| && AllWords(s.log)
            && DATA_AT <= |s.persistent| && DATA_AT <= UsedOf(s.persistent) <= |s.persistent|
            && Printed(s.persistent[DATA_AT..UsedOf(s.persistent)]) == Flat(Lines(s.log[..k]))
  {
    AppendSafe(s0, ts);
    InitInv(s0);
    RunsKeepWords(s0, ts);
    var s := Final(LIBRARY, s0, ts);
    k :| s.acked <= k <= |s.log| && Holds(s.persistent, s.log[..k]);
    assert s.persistent[DATA_AT..UsedOf(s.persistent)] == Flat(s.log[..k]);
    PrintedLines(s.log[..k]);
  }
}
