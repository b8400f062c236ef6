/** The remote append protocol: a client appends NUL-terminated words to a log in remote
    persistent memory, over a queue pair whose requests take effect piecemeal. */
module AppendLog {
  import opened ByteStrings

  const USED_AT := 8            // offset of the log's `used` field
  const DATA_AT := 16           // offset of the log's data
  const RAW_SIZE := 8           // bytes read by a read-after-write flush
  const MAX_WORD_LENGTH := 1023
  const SQ_SIZE := 10           // default size of the send queue

  // ---------------------------------------------------------------- words

  /** A command-line argument: a C string without its NUL. */
  predicate IsArg(arg: Bytes)
  {
    forall i :: 0 <= i < |arg| ==> arg[i] != 0
  }

  /** The bytes appended for an argument: cut to the buffer and NUL-terminated. */
  function Text(arg: Bytes): (w: Bytes)
    ensures IsArg(arg) ==> IsWord(w)
  {
    (if |arg| <= MAX_WORD_LENGTH then arg else arg[..MAX_WORD_LENGTH]) + [0]
  }

  /** A NUL-terminated word that fits the local buffer. */
  predicate IsWord(w: Bytes)
  {
    1 <= |w| <= MAX_WORD_LENGTH + 1 && w[|w| - 1] == 0 && forall i :: 0 <= i < |w| - 1 ==> w[i] != 0
  }

  predicate AllWords(ws: seq<Bytes>)
  {
    forall i :: 0 <= i < |ws| ==> IsWord(ws[i])
  }

  /** The local buffer once a word is copied into it and padded. */
  function Load(w: Bytes): (buf: Bytes)
    requires |w| <= MAX_WORD_LENGTH + 1
    ensures |buf| == MAX_WORD_LENGTH + 1 && w <= buf
  {
    w + seq(MAX_WORD_LENGTH + 1 - |w|, _ => 0)
  }

  function Flat(log: seq<Bytes>): Bytes
  {
    if log == [] then [] else Flat(log[..|log| - 1]) + log[|log| - 1]
  }

  function Texts(args: seq<Bytes>): (ts: seq<Bytes>)
    ensures |ts| == |args|
  {
    seq(|args|, i requires 0 <= i < |args| => Text(args[i]))
  }

  /** Addition of 64-bit unsigned integers. */
  function Add64(a: nat, b: nat): nat
  {
    if a + b < U64 then a + b else a + b - U64
  }

  // ---------------------------------------------------------------- the machine

  /** A posted request: how far a write has been placed, whether a read or an atomic write is done. */
  datatype Request =
    | Write(off: nat, len: nat, placed: set<nat>)
    | Read(off: nat, done: bool)
    | AtomicWrite(value: nat, done: bool)

  datatype Pc = Idle | Reading | LoopHead | PostWrite | PostFlush | PostAtomic | PostSecondFlush | Waiting | Leaving

  /** The order in which the client posts; the library's own is Protocol(true, true). */
  datatype Protocol = Protocol(flushed: bool, fenced: bool)

  datatype State = State(
    // remote memory: what a reader sees, and what survives a crash
    visible: Bytes, persistent: Bytes,
    // the queue pair
    sq: seq<Request>, failed: bool,
    // the client
    pc: Pc, words: seq<Bytes>, next: nat, used: nat, buf: Bytes,
    // history: the words whose `used` was written, how many of them the persistent `used` covers,
    // how many the client knows to be durable, how many preceded this session, and its arguments
    log: seq<Bytes>, kept: nat, acked: nat, base: nat, args: seq<Bytes>)

  datatype Step =
    // the client
    | Connect(args: seq<Bytes>) | ReadUsed | StartWord | Finish
    | DoPostWrite | DoPostFlush | DoPostAtomic | DoPostSecondFlush | Complete
    | GiveUp | Close
    // the queue pair
    | PlaceByte(k: nat, q: nat) | FinishRead(k: nat) | PlaceAtomic(k: nat) | Fail
    // the memory
    | EvictByte(p: nat) | EvictUsed | Crash

  function UsedOf(mem: Bytes): nat
    requires |mem| >= DATA_AT
  {
    Decode(mem[USED_AT..DATA_AT])
  }

  predicate IsComplete(r: Request)
  {
    match r
    case Write(_, len, placed) => forall q :: 0 <= q < len ==> q in placed
    case Read(_, done) => done
    case AtomicWrite(_, done) => done
  }

  predicate ReadsDone(sq: seq<Request>)
  {
    forall i :: 0 <= i < |sq| && sq[i].Read? ==> sq[i].done
  }

  /** Byte p is written by some request of sq. */
  predicate Touches(sq: seq<Request>, p: int)
  {
    exists i :: 0 <= i < |sq| &&
      match sq[i]
      case Write(off, len, _) => off <= p < off + len
      case Read(_, _) => false
      case AtomicWrite(_, _) => USED_AT <= p < DATA_AT
  }

  /** The persistent memory once everything sq wrote is forced out. */
  function ForcedOut(s: State, sq: seq<Request>): (mem: Bytes)
    requires |s.persistent| == |s.visible|
  {
    seq(|s.visible|, p requires 0 <= p < |s.visible| => if Touches(sq, p) then s.visible[p] else s.persistent[p])
  }

  predicate Shape(s: State)
  {
    && DATA_AT <= |s.visible| == |s.persistent| < U64
    && |s.buf| == MAX_WORD_LENGTH + 1
    && s.kept <= |s.log|
    && AllWords(s.words)
  }

  // Transitions of the queue pair and the memory.  A write may place its bytes one at a time, in any
  // order and again, reading them from the local buffer as it stands; a read completes only after
  // everything posted before it, and forces that out; an atomic write is placed whole, after every
  // earlier read if it is fenced; nothing out of bounds is placed.  After a failure any of the requests
  // may still take effect, or none.

  predicate CanPlaceByte(s: State, k: nat, q: nat)
  {
    && k < |s.sq| && s.sq[k].Write? && q < s.sq[k].len <= |s.buf|
    && s.sq[k].off + s.sq[k].len <= |s.visible|
  }

  function PlacedByte(s: State, k: nat, q: nat): State
    requires CanPlaceByte(s, k, q)
  {
    var w := s.sq[k];
    s.(visible := s.visible[w.off + q := s.buf[q]], sq := s.sq[k := w.(placed := w.placed + {q})])
  }

  predicate CanFinishRead(s: State, k: nat)
  {
    && k < |s.sq| && s.sq[k].Read? && !s.sq[k].done
    && s.sq[k].off + RAW_SIZE <= |s.visible| == |s.persistent|
    && forall i :: 0 <= i < k ==> IsComplete(s.sq[i])
  }

  function FinishedRead(s: State, k: nat): State
    requires CanFinishRead(s, k)
  {
    s.(persistent := ForcedOut(s, s.sq[..k]),
       kept := if Touches(s.sq[..k], USED_AT) then |s.log| else s.kept,
       sq := s.sq[k := Read(s.sq[k].off, true)])
  }

  predicate CanPlaceAtomic(s: State, k: nat, fenced: bool)
  {
    && k < |s.sq| && s.sq[k].AtomicWrite? && !s.sq[k].done
    && s.next < |s.words| && DATA_AT <= |s.visible|
    && (fenced ==> ReadsDone(s.sq[..k]))
  }

  function PlacedAtomic(s: State, k: nat): State
    requires CanPlaceAtomic(s, k, false)
  {
    s.(visible := Patch(s.visible, USED_AT, Encode(s.sq[k].value, DATA_AT - USED_AT)),
       log := s.log + [s.words[s.next]],
       sq := s.sq[k := AtomicWrite(s.sq[k].value, true)])
  }

  function EvictedUsed(s: State): State
    requires Shape(s)
  {
    s.(persistent := Patch(s.persistent, USED_AT, s.visible[USED_AT..DATA_AT]), kept := |s.log|)
  }

  function Crashed(s: State): State
    requires Shape(s)
  {
    s.(visible := s.persistent, log := s.log[..s.kept], sq := [], failed := false, pc := Idle)
  }

  predicate Enabled(pr: Protocol, s: State, t: Step)
    requires Shape(s)
  {
    match t
    case Connect(args) => s.pc == Idle && forall i :: 0 <= i < |args| ==> IsArg(args[i])
    case ReadUsed => s.pc == Reading && !s.failed
    case StartWord => s.pc == LoopHead && s.next < |s.words|
    case Finish => s.pc == LoopHead && s.next >= |s.words|
    case DoPostWrite => s.pc == PostWrite && s.next < |s.words|
    case DoPostFlush => s.pc == PostFlush && s.next < |s.words|
    case DoPostAtomic => s.pc == PostAtomic
    case DoPostSecondFlush => s.pc == PostSecondFlush
    case Complete => s.pc == Waiting && s.sq != [] && IsComplete(s.sq[|s.sq| - 1])
    case GiveUp => s.pc != Idle
    case Close => s.pc == Leaving
    case PlaceByte(k, q) => CanPlaceByte(s, k, q)
    case FinishRead(k) => CanFinishRead(s, k)
    case PlaceAtomic(k) => CanPlaceAtomic(s, k, pr.fenced)
    case Fail => s.pc != Idle
    case EvictByte(p) => p < |s.visible| && !(USED_AT <= p < DATA_AT)
    case EvictUsed => true
    case Crash => true
  }

  function Apply(pr: Protocol, s: State, t: Step): State
    requires Shape(s) && Enabled(pr, s, t)
  {
    match t
    case Connect(args) => s.(pc := Reading, words := Texts(args), next := 0, sq := [], failed := false, args := args)
    case ReadUsed =>
      var used := UsedOf(s.visible);
      s.(used := used, base := |s.log|, pc := if |s.visible| <= used then Leaving else LoopHead)
    case StartWord => s.(buf := Load(s.words[s.next]), pc := PostWrite)
    case Finish => s.(pc := Leaving)
    case DoPostWrite => s.(sq := s.sq + [Write(s.used, |s.words[s.next]|, {})], pc := PostFlush)
    case DoPostFlush =>
      s.(sq := if pr.flushed then s.sq + [Read(s.used, false)] else s.sq,
         used := Add64(s.used, |s.words[s.next]|),
         pc := PostAtomic)
    case DoPostAtomic => s.(sq := s.sq + [AtomicWrite(s.used, false)], pc := PostSecondFlush)
    case DoPostSecondFlush => s.(sq := s.sq + [Read(USED_AT, false)], pc := Waiting)
    case Complete => s.(sq := [], next := s.next + 1, acked := |s.log|, pc := LoopHead)
    case GiveUp => s.(pc := Leaving)
    case Close => s.(sq := [], failed := false, pc := Idle)
    case PlaceByte(k, q) => PlacedByte(s, k, q)
    case FinishRead(k) => FinishedRead(s, k)
    case PlaceAtomic(k) => PlacedAtomic(s, k)
    case Fail => s.(failed := true)
    case EvictByte(p) => s.(persistent := s.persistent[p := s.visible[p]])
    case EvictUsed => EvictedUsed(s)
    case Crash => Crashed(s)
  }

  /** An initialised log: `used` points at the empty data. */
  predicate Init(s: State)
  {
    && Shape(s) && s.visible == s.persistent && UsedOf(s.visible) == DATA_AT
    && s.pc == Idle && s.sq == [] && !s.failed
    && s.words == s.args == [] && s.log == [] && s.kept == s.acked == s.base == 0
  }

  // ---------------------------------------------------------------- the property

  /** Memory mem holds the log ws: `used` ends on a word boundary and the bytes before it are the
      words in order. */
  ghost predicate Holds(mem: Bytes, ws: seq<Bytes>)
  {
    && At(mem, DATA_AT, Flat(ws))
    && UsedOf(mem) == DATA_AT + |Flat(ws)|
  }

  /** What a crash at this moment would leave is a log that holds every acknowledged word. */
  ghost predicate CrashConsistent(s: State)
  {
    exists k :: s.acked <= k <= |s.log| && Holds(s.persistent, s.log[..k])
  }

  // ---------------------------------------------------------------- the invariant

  /** The word being appended. */
  function Word(s: State): Bytes
    requires s.next < |s.words|
  {
    s.words[s.next]
  }

  /** The atomic write of the word in flight has been placed. */
  predicate Committed(s: State)
  {
    |s.sq| >= 3 && s.sq[2].AtomicWrite? && s.sq[2].done
  }

  ghost predicate MemoryInv(s: State)
  {
    && Shape(s)
    && s.acked <= s.kept
    && UsedOf(s.visible) == DATA_AT + |Flat(s.log)|
    && UsedOf(s.persistent) == DATA_AT + |Flat(s.log[..s.kept])|
    && At(s.visible, DATA_AT, Flat(s.log))
    && At(s.persistent, DATA_AT, Flat(s.log))
  }

  /** The requests in flight, each with what its progress has achieved. */
  ghost predicate FlightInv(s: State)
  {
    && |s.sq| <= 4
    && (s.sq != [] ==>
          && s.next < |s.words| && Word(s) <= s.buf
          && s.sq[0].Write? && s.sq[0].len == |Word(s)|
          && s.sq[0].off + (if Committed(s) then |Word(s)| else 0) == DATA_AT + |Flat(s.log)|
          && PlacedIn(s.sq[0], s.visible, Word(s)))
    && (|s.sq| >= 2 ==>
          && s.sq[1].Read? && s.sq[1].off == s.sq[0].off
          && (s.sq[1].done ==> IsComplete(s.sq[0]) && At(s.persistent, s.sq[0].off, Word(s))))
    && (|s.sq| >= 3 ==>
          && s.sq[2].AtomicWrite? && s.sq[2].value == Add64(s.sq[0].off, |Word(s)|)
          && (s.sq[2].done ==> s.sq[1].done && s.log != [] && s.log[|s.log| - 1] == Word(s)))
    && (|s.sq| >= 4 ==>
          && s.sq[3].Read? && s.sq[3].off == USED_AT
          && (s.sq[3].done ==> s.sq[2].done && s.kept == |s.log|))
  }

  /** The bytes a write has placed are those of the word. */
  ghost predicate PlacedIn(r: Request, mem: Bytes, w: Bytes)
    requires r.Write?
  {
    forall q :: q in r.placed ==> q < |w| && r.off + q < |mem| && mem[r.off + q] == w[q]
  }

  /** Where the client stands determines what it has posted. */
  ghost predicate ClientInv(s: State)
  {
    && (s.pc in {Idle, Reading, LoopHead, PostWrite} ==> s.sq == [])
    && (s.pc == Reading ==> s.next == 0)
    && (s.pc == PostFlush ==> |s.sq| == 1)
    && (s.pc == PostAtomic ==> |s.sq| == 2)
    && (s.pc == PostSecondFlush ==> |s.sq| == 3)
    && (s.pc == Waiting ==> |s.sq| == 4)
    && (s.pc in {LoopHead, PostWrite} ==> s.used == DATA_AT + |Flat(s.log)|)
    && (s.pc == PostWrite ==> s.next < |s.words| && s.words[s.next] <= s.buf)
    && (s.pc == PostFlush ==> s.sq[0].Write? && s.next < |s.words| && s.used == s.sq[0].off)
    && (s.pc in {PostAtomic, PostSecondFlush, Waiting} ==>
          s.sq[0].Write? && s.next < |s.words| && s.used == Add64(s.sq[0].off, |Word(s)|))
  }

  /** The session has appended its arguments, in order, after what it found. */
  ghost predicate SessionInv(s: State)
  {
    s.pc in {LoopHead, PostWrite, PostFlush, PostAtomic, PostSecondFlush, Waiting} ==>
      && s.next <= |s.words| && s.base <= |s.log|
      && (s.next > 0 ==> s.acked == s.base + s.next)
      && s.log[s.base..] == s.words[..s.next] + if Committed(s) && s.next < |s.words| then [Word(s)] else []
  }

  ghost predicate Inv(s: State)
  {
    MemoryInv(s) && FlightInv(s) && ClientInv(s) && SessionInv(s)
  }

  /** The words of a session are its arguments, each cut to the buffer and with one NUL after it. */
  ghost predicate WordsOf(words: seq<Bytes>, args: seq<Bytes>)
  {
    && |words| == |args|
    && forall i :: 0 <= i < |args| ==>
         && (|args[i]| <= 1023 ==> words[i] == args[i] + [0])
         && (|args[i]| > 1023 ==> words[i] == args[i][..1023] + [0])
  }
}
