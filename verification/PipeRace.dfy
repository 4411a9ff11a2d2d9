/**
 The ring with its writer and its reader running at the same time.  A call is split
 into the moment it samples the other side's counter, one step for every byte it
 copies, and the moment it publishes its own counter, so the two calls interleave freely.
 */
module PipeRace {
  import opened Common
  import opened PipeCells

  datatype Writer = WriterIdle | Storing(src: seq<Byte>, done: nat)

  datatype Reader = ReaderIdle | Loading(want: nat, got: seq<Byte>)

  datatype State = State(
    cells: seq<Byte>, rdCount: U32, wrCount: U32,
    txCount: U32, txIndex: nat, writer: Writer,
    rxIndex: nat, reader: Reader,
    stream: seq<Byte>,      // the bytes of finished writes, in order
    committed: nat,         // how many of them are published
    output: seq<Byte>       // the bytes of finished reads, in order
  )

  datatype Step =
    | BeginWrite(src: seq<Byte>) | StoreByte | EndWrite | Commit
    | BeginRead(size: nat) | LoadByte | EndRead

  ghost predicate Init(s: State) {
    && 0 < |s.cells| < WORDS
    && s.rdCount == s.wrCount == s.txCount == 0 && s.txIndex == s.rxIndex == 0
    && s.writer == WriterIdle && s.reader == ReaderIdle
    && s.stream == s.output == [] && s.committed == 0
  }

  /** The space the writer sees; a negative number means that the counters look inconsistent. */
  function Space(s: State): int { |s.cells| - Sub32(s.txCount, s.rdCount) }

  function Available(s: State): int { Sub32(s.wrCount, s.rdCount) }

  ghost predicate Next(s: State, t: State, step: Step) {
    match step
    case BeginWrite(src) =>
      && s.writer == WriterIdle && 0 < |src| <= Space(s)
      && t == s.(writer := Storing(src, 0))
    case StoreByte =>
      && s.writer.Storing? && s.writer.done < |s.writer.src|
      && s.txIndex < |s.cells| && s.writer.done <= |s.cells|
      && t == s.(cells := s.cells[Cell(|s.cells|, s.txIndex, s.writer.done) := s.writer.src[s.writer.done]],
                 writer := s.writer.(done := s.writer.done + 1))
    case EndWrite =>
      && s.writer.Storing? && s.writer.done == |s.writer.src|
      && s.txIndex < |s.cells| && s.writer.done <= |s.cells|
      && t == s.(txCount := Add32(s.txCount, s.writer.done), txIndex := Cell(|s.cells|, s.txIndex, s.writer.done),
                 writer := WriterIdle, stream := s.stream + s.writer.src)
    case Commit =>
      && s.writer == WriterIdle
      && t == s.(wrCount := s.txCount, committed := |s.stream|)
    case BeginRead(size) =>
      && s.reader == ReaderIdle && size > 0 && Available(s) != 0
      && t == s.(reader := Loading(if Available(s) < size then Available(s) else size, []))
    case LoadByte =>
      && s.reader.Loading? && |s.reader.got| < s.reader.want
      && s.rxIndex < |s.cells| && |s.reader.got| <= |s.cells|
      && t == s.(reader := s.reader.(got := s.reader.got + [s.cells[Cell(|s.cells|, s.rxIndex, |s.reader.got|)]]))
    case EndRead =>
      && s.reader.Loading? && |s.reader.got| == s.reader.want
      && s.rxIndex < |s.cells| && s.reader.want <= |s.cells|
      && t == s.(rdCount := Add32(s.rdCount, s.reader.want), rxIndex := Cell(|s.cells|, s.rxIndex, s.reader.want),
                 reader := ReaderIdle, output := s.output + s.reader.got)
  }

  /** The bytes stored by a write that is still running. */
  function Partial(w: Writer): seq<Byte> {
    if w.Storing? && w.done <= |w.src| then w.src[..w.done] else []
  }

  ghost predicate Inv(s: State) {
    && 0 < |s.cells| < WORDS
    && s.output <= s.stream && |s.output| <= s.committed <= |s.stream| <= |s.output| + |s.cells|
    && s.txCount == Count(|s.stream|) && s.wrCount == Count(s.committed) && s.rdCount == Count(|s.output|)
    && s.rxIndex < |s.cells| && s.txIndex == Cell(|s.cells|, s.rxIndex, |s.stream| - |s.output|)
    && (s.writer.Storing? ==> s.writer.done <= |s.writer.src| <= |s.output| + |s.cells| - |s.stream|)
    && Holds(s.cells, s.rxIndex, s.stream[|s.output|..] + Partial(s.writer))
    && (s.reader.Loading? ==>
          && |s.reader.got| <= s.reader.want <= s.committed - |s.output|
          && s.reader.got == s.stream[|s.output|..|s.output| + |s.reader.got|])
  }

  lemma InitInv(s: State)
    requires Init(s)
    ensures Inv(s)
  {
  }

  lemma NextInv(s: State, t: State, step: Step)
    requires Inv(s) && Next(s, t, step)
    ensures Inv(t)
  {
    hide Count, Add32, Sub32, Cell, Holds;
    match step
    case BeginWrite(src) => CountDistance(|s.stream|, |s.output|);
    case StoreByte => StoreByteInv(s, t);
    case EndWrite => EndWriteInv(s, t);
    case Commit =>
    case BeginRead(size) => CountDistance(s.committed, |s.output|);
    case LoadByte => LoadByteInv(s, t);
    case EndRead => EndReadInv(s, t);
  }

  lemma StoreByteInv(s: State, t: State)
    requires Inv(s) && Next(s, t, StoreByte)
    ensures Inv(t)
  {
    hide Count, Add32, Sub32, Cell, Holds;
    CellAdvance(|s.cells|, s.rxIndex, |s.stream| - |s.output|, s.writer.done);
    var held := s.stream[|s.output|..] + Partial(s.writer);
    StoreNext(s.cells, s.rxIndex, held, s.writer.src[s.writer.done]);
    assert s.stream[|s.output|..] + Partial(t.writer) == held + [s.writer.src[s.writer.done]];
  }

  lemma EndWriteInv(s: State, t: State)
    requires Inv(s) && Next(s, t, EndWrite)
    ensures Inv(t)
  {
    hide Count, Add32, Sub32, Cell, Holds;
    CountAdvance(|s.stream|, s.writer.done);
    CellAdvance(|s.cells|, s.rxIndex, |s.stream| - |s.output|, s.writer.done);
    assert t.stream[|s.output|..] + Partial(t.writer) == s.stream[|s.output|..] + Partial(s.writer);
    assert s.reader.Loading? ==> t.stream[|s.output|..|s.output| + |s.reader.got|] == s.reader.got;
  }

  lemma LoadByteInv(s: State, t: State)
    requires Inv(s) && Next(s, t, LoadByte)
    ensures Inv(t)
  {
  }

  lemma EndReadInv(s: State, t: State)
    requires Inv(s) && Next(s, t, EndRead)
    ensures Inv(t)
  {
    hide Count, Add32, Sub32, Cell, Holds;
    var n := s.reader.want;
    CountAdvance(|s.output|, n);
    CellAdvance(|s.cells|, s.rxIndex, n, |s.stream| - |s.output| - n);
    DropFirst(s.cells, s.rxIndex, s.stream[|s.output|..] + Partial(s.writer), n);
    assert (s.stream[|s.output|..] + Partial(s.writer))[n..] == s.stream[|t.output|..] + Partial(s.writer);
    assert t.output == s.stream[..|t.output|];
  }

  lemma StoreNext(cells: seq<Byte>, index: nat, held: seq<Byte>, b: Byte)
    requires Holds(cells, index, held) && |held| < |cells|
    ensures Holds(cells[Cell(|cells|, index, |held|) := b], index, held + [b])
  {
  }

  lemma DropFirst(cells: seq<Byte>, index: nat, held: seq<Byte>, n: nat)
    requires Holds(cells, index, held) && n <= |held|
    ensures Holds(cells, Cell(|cells|, index, n), held[n..])
  {
  }

  /** A run, state by state. */
  ghost predicate Run(states: seq<State>, steps: seq<Step>) {
    && |states| == |steps| + 1 && Init(states[0])
    && forall i :: 0 <= i < |steps| ==> Next(states[i], states[i + 1], steps[i])
  }

  lemma {:induction false} RunInv(states: seq<State>, steps: seq<Step>, n: nat)
    requires Run(states, steps) && n < |states|
    ensures Inv(states[n])
  {
    if n == 0 {
      InitInv(states[0]);
    } else {
      RunInv(states, steps, n - 1);
      NextInv(states[n - 1], states[n], steps[n - 1]);
    }
  }

  /** The cells a running call has still to touch or has touched. */
  ghost predicate WriterTouches(s: State, c: nat) {
    s.writer.Storing? && s.txIndex < |s.cells|
    && exists i :: 0 <= i < |s.writer.src| <= |s.cells| && c == Cell(|s.cells|, s.txIndex, i)
  }

  ghost predicate ReaderTouches(s: State, c: nat) {
    s.reader.Loading? && s.rxIndex < |s.cells|
    && exists i :: 0 <= i < s.reader.want <= |s.cells| && c == Cell(|s.cells|, s.rxIndex, i)
  }

  /** Ring refinement: at every moment of every run the reader's bytes, those of a read in progress
      included, are a prefix of the committed bytes, and the two sides are on different cells. */
  lemma {:induction false} RingRefinesStream(states: seq<State>, steps: seq<Step>, n: nat)
    requires Run(states, steps) && n < |states|
    ensures var s := states[n];
            && s.committed <= |s.stream|
            && s.output + (if s.reader.Loading? then s.reader.got else []) <= s.stream[..s.committed]
            && forall c: nat :: !(WriterTouches(s, c) && ReaderTouches(s, c))
  {
    RunInv(states, steps, n);
    var s := states[n];
    assert s.output + (if s.reader.Loading? then s.reader.got else []) <= s.stream[..s.committed];
    hide Run;
    forall c: nat | WriterTouches(s, c)
      ensures !ReaderTouches(s, c)
    {
      var j :| 0 <= j < |s.writer.src| && c == Cell(|s.cells|, s.txIndex, j);
      if s.reader.Loading? {
        forall i | 0 <= i < s.reader.want ensures c != Cell(|s.cells|, s.rxIndex, i) {
          CellAdvance(|s.cells|, s.rxIndex, |s.stream| - |s.output|, j);
          CellInjective(|s.cells|, s.rxIndex, |s.stream| - |s.output| + j, i);
        }
      }
    }
  }
}
