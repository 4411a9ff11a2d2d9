/**
 What a write, a commit and a read of the ring each amount to, whatever the other side is in the middle of: the
 calls cannot get stuck, they take as many steps as they copy bytes, and they end in the state one would expect.
 */
module PipeCalls {
  import opened Common
  import opened PipeCells
  import opened PipeRace

  ghost predicate Path(ss: seq<State>, steps: seq<Step>) {
    |ss| == |steps| + 1 && forall i :: 0 <= i < |steps| ==> Next(ss[i], ss[i + 1], steps[i])
  }

  /** The steps lead from `s` to `t`. */
  ghost predicate Leads(s: State, steps: seq<Step>, t: State) {
    exists ss: seq<State> :: Path(ss, steps) && ss[0] == s && ss[|steps|] == t
  }

  function Times(step: Step, n: nat): seq<Step> { seq(n, _ => step) }

  lemma Then(s: State, step: Step, s1: State, steps: seq<Step>, t: State)
    requires Next(s, s1, step) && Leads(s1, steps, t)
    ensures Leads(s, [step] + steps, t)
  {
    hide Next;
    var ss: seq<State> :| Path(ss, steps) && ss[0] == s1 && ss[|steps|] == t;
    assert Path([s] + ss, [step] + steps);
  }

  lemma After(s: State, steps: seq<Step>, t: State, step: Step, t1: State)
    requires Leads(s, steps, t) && Next(t, t1, step)
    ensures Leads(s, steps + [step], t1)
  {
    hide Next;
    var ss: seq<State> :| Path(ss, steps) && ss[0] == s && ss[|steps|] == t;
    assert Path(ss + [t1], steps + [step]);
  }

  lemma Nothing(s: State)
    ensures Leads(s, [], s)
  {
    assert Path([s], []);
  }

  // ---------------------------------------------------------------- a write

  /** All the bytes of a write are stored; only the cells and the writer differ. */
  lemma {:induction false} StoresAll(s: State) returns (t: State)
    requires Inv(s) && s.writer.Storing?
    ensures Leads(s, Times(StoreByte, |s.writer.src| - s.writer.done), t) && Inv(t)
    ensures t == s.(cells := t.cells, writer := Storing(s.writer.src, |s.writer.src|))
    decreases |s.writer.src| - s.writer.done
  {
    var n := |s.writer.src| - s.writer.done;
    if n == 0 {
      t := s;
      Nothing(s);
      assert Times(StoreByte, 0) == [];
    } else {
      var s1 := Stored(s);
      hide Inv, Next;
      NextInv(s, s1, StoreByte);
      t := StoresAll(s1);
      Then(s, StoreByte, s1, Times(StoreByte, n - 1), t);
      assert [StoreByte] + Times(StoreByte, n - 1) == Times(StoreByte, n);
    }
  }

  lemma Stored(s: State) returns (s1: State)
    requires Inv(s) && s.writer.Storing? && s.writer.done < |s.writer.src|
    ensures Next(s, s1, StoreByte) && s1 == s.(cells := s1.cells, writer := Storing(s.writer.src, s.writer.done + 1))
  {
    hide Holds, Count;
    s1 := s.(cells := s.cells[Cell(|s.cells|, s.txIndex, s.writer.done) := s.writer.src[s.writer.done]],
             writer := s.writer.(done := s.writer.done + 1));
  }

  /** A write that fits goes through, whatever the reader is doing: its bytes are the next of the stream, not published yet. */
  lemma {:induction false} WriteCall(s: State, src: seq<Byte>) returns (t: State)
    requires Inv(s) && s.writer == WriterIdle && 0 < |src| <= |s.cells| - (|s.stream| - |s.output|)
    ensures Leads(s, [BeginWrite(src)] + Times(StoreByte, |src|) + [EndWrite], t) && Inv(t)
    ensures t == s.(cells := t.cells, txCount := t.txCount, txIndex := t.txIndex, stream := s.stream + src)
  {
    var s1 := Begun(s, src);
    NextInv(s, s1, BeginWrite(src));
    assert s1.writer.Storing?;
    var s2 := StoresAll(s1);
    t := Ended(s2);
    hide Next, Inv;
    NextInv(s2, t, EndWrite);
    assert |s1.writer.src| - s1.writer.done == |src|;
    Then(s, BeginWrite(src), s1, Times(StoreByte, |src|), s2);
    After(s, [BeginWrite(src)] + Times(StoreByte, |src|), s2, EndWrite, t);
  }

  lemma Begun(s: State, src: seq<Byte>) returns (s1: State)
    requires Inv(s) && s.writer == WriterIdle && 0 < |src| <= |s.cells| - (|s.stream| - |s.output|)
    ensures Next(s, s1, BeginWrite(src)) && s1 == s.(writer := Storing(src, 0))
  {
    hide Holds;
    CountDistance(|s.stream|, |s.output|);
    s1 := s.(writer := Storing(src, 0));
  }

  lemma Ended(s: State) returns (t: State)
    requires Inv(s) && s.writer.Storing? && s.writer.done == |s.writer.src|
    ensures Next(s, t, EndWrite)
    ensures t == s.(txCount := t.txCount, txIndex := t.txIndex, writer := WriterIdle, stream := s.stream + s.writer.src)
  {
    hide Holds, Count;
    t := s.(txCount := Add32(s.txCount, s.writer.done), txIndex := Cell(|s.cells|, s.txIndex, s.writer.done),
            writer := WriterIdle, stream := s.stream + s.writer.src);
  }

  /** A write that does not fit cannot begin. */
  lemma {:induction false} WriteExactly(s: State, src: seq<Byte>)
    requires Inv(s) && s.writer == WriterIdle
    ensures (exists t :: Next(s, t, BeginWrite(src))) <==> 0 < |src| <= |s.cells| - (|s.stream| - |s.output|)
  {
    CountDistance(|s.stream|, |s.output|);
    hide Holds;
    if 0 < |src| <= |s.cells| - (|s.stream| - |s.output|) { var t := Begun(s, src); }
  }

  /** A commit publishes the whole stream, whatever the reader is doing. */
  lemma {:induction false} CommitCall(s: State) returns (t: State)
    requires Inv(s) && s.writer == WriterIdle
    ensures Leads(s, [Commit], t) && Inv(t) && t == s.(wrCount := t.wrCount, committed := |s.stream|)
  {
    t := s.(wrCount := s.txCount, committed := |s.stream|);
    assert Next(s, t, Commit);
    NextInv(s, t, Commit);
    hide Next, Inv;
    Nothing(t);
    Then(s, Commit, t, [], t);
    assert [Commit] + [] == [Commit];
  }

  // ---------------------------------------------------------------- a read

  lemma {:induction false} LoadsAll(s: State) returns (t: State)
    requires Inv(s) && s.reader.Loading?
    ensures Leads(s, Times(LoadByte, s.reader.want - |s.reader.got|), t) && Inv(t)
    ensures t == s.(reader := t.reader) && t.reader.Loading? && t.reader.want == |t.reader.got| == s.reader.want
    decreases s.reader.want - |s.reader.got|
  {
    var n := s.reader.want - |s.reader.got|;
    if n == 0 {
      t := s;
      Nothing(s);
      assert Times(LoadByte, 0) == [];
    } else {
      var s1 := Loaded(s);
      hide Inv, Next;
      NextInv(s, s1, LoadByte);
      t := LoadsAll(s1);
      Then(s, LoadByte, s1, Times(LoadByte, n - 1), t);
      assert [LoadByte] + Times(LoadByte, n - 1) == Times(LoadByte, n);
    }
  }

  lemma Loaded(s: State) returns (s1: State)
    requires Inv(s) && s.reader.Loading? && |s.reader.got| < s.reader.want
    ensures Next(s, s1, LoadByte) && s1 == s.(reader := s1.reader) && s1.reader.Loading?
    ensures s1.reader.want == s.reader.want && |s1.reader.got| == |s.reader.got| + 1
  {
    hide Holds, Count;
    s1 := s.(reader := s.reader.(got := s.reader.got + [s.cells[Cell(|s.cells|, s.rxIndex, |s.reader.got|)]]));
  }

  /** A read takes as much as is committed, and no more than it asks for, whatever the writer is doing. */
  lemma {:induction false} ReadCall(s: State, size: nat) returns (t: State)
    requires Inv(s) && s.reader == ReaderIdle && size > 0 && s.committed > |s.output|
    ensures
      var have := s.committed - |s.output|;
      var n := if have < size then have else size;
      && Leads(s, [BeginRead(size)] + Times(LoadByte, n) + [EndRead], t) && Inv(t)
      && t == s.(rdCount := t.rdCount, rxIndex := t.rxIndex, output := s.output + s.stream[|s.output|..|s.output| + n])
  {
    var n := if s.committed - |s.output| < size then s.committed - |s.output| else size;
    var s1 := ReadBegun(s, size);
    NextInv(s, s1, BeginRead(size));
    var s2 := LoadsAll(s1);
    assert s2.reader.got == s2.stream[|s2.output|..|s2.output| + n] by { hide Holds, Count; }
    t := ReadEnded(s2);
    hide Next, Inv;
    NextInv(s2, t, EndRead);
    Then(s, BeginRead(size), s1, Times(LoadByte, n), s2);
    After(s, [BeginRead(size)] + Times(LoadByte, n), s2, EndRead, t);
  }

  lemma ReadBegun(s: State, size: nat) returns (s1: State)
    requires Inv(s) && s.reader == ReaderIdle && size > 0 && s.committed > |s.output|
    ensures Next(s, s1, BeginRead(size))
    ensures s1 == s.(reader := Loading(if s.committed - |s.output| < size then s.committed - |s.output| else size, []))
  {
    hide Holds;
    CountDistance(s.committed, |s.output|);
    s1 := s.(reader := Loading(if Available(s) < size then Available(s) else size, []));
  }

  lemma ReadEnded(s: State) returns (t: State)
    requires Inv(s) && s.reader.Loading? && |s.reader.got| == s.reader.want
    ensures Next(s, t, EndRead)
    ensures t == s.(rdCount := t.rdCount, rxIndex := t.rxIndex, reader := ReaderIdle, output := s.output + s.reader.got)
  {
    hide Holds, Count;
    t := s.(rdCount := Add32(s.rdCount, s.reader.want), rxIndex := Cell(|s.cells|, s.rxIndex, s.reader.want),
            reader := ReaderIdle, output := s.output + s.reader.got);
  }

  /** A read that asks for bytes can begin exactly if some are committed and not read. */
  lemma {:induction false} ReadExactly(s: State, size: nat)
    requires Inv(s) && s.reader == ReaderIdle
    ensures (exists t :: Next(s, t, BeginRead(size))) <==> size > 0 && s.committed > |s.output|
  {
    CountDistance(s.committed, |s.output|);
    hide Holds;
    if size > 0 && s.committed > |s.output| { var t := ReadBegun(s, size); }
  }
}
