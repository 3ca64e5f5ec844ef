/**
  The data path of a JOS pipe (devpipe_read and devpipe_write in lib/pipe.c) between one reader and one
  writer, who may be interleaved between the test, the copy and the increment of each byte.
 */
module PipeFifo {
  const PIPEBUFSIZ: nat := 32

  type byte = b: int | 0 <= b < 256

  /** Where each side is for its next byte: before the test, between test and copy, between copy and increment. */
  datatype Side = Testing | Copying | Counting

  /**
    The shared page, where the two sides are, and the bytes: `input` is what the writer has been asked
    to write so far, `output` what the reader has copied out.
   */
  datatype State = State(buf: seq<byte>, rpos: nat, wpos: nat, reader: Side, writer: Side, input: seq<byte>, output: seq<byte>)

  datatype Choice =
    | Ask(data: seq<byte>)      // another call of write
    | WriterStep
    | ReaderStep

  function Next(s: State, c: Choice): State
    requires Inv(s)
  {
    match c
    case Ask(data) => s.(input := s.input + data)
    case WriterStep =>
      (match s.writer
       case Testing => if s.wpos < |s.input| && s.wpos < s.rpos + PIPEBUFSIZ then s.(writer := Copying) else s
       case Copying => s.(buf := s.buf[s.wpos % PIPEBUFSIZ := s.input[s.wpos]], writer := Counting)
       case Counting => s.(wpos := s.wpos + 1, writer := Testing))
    case ReaderStep =>
      (match s.reader
       case Testing => if s.rpos != s.wpos then s.(reader := Copying) else s
       case Copying => s.(output := s.output + [s.buf[s.rpos % PIPEBUFSIZ]], reader := Counting)
       case Counting => s.(rpos := s.rpos + 1, reader := Testing))
  }

  /** Byte number `k` of the stream is in its place in the ring. */
  ghost predicate InRing(s: State, k: nat)
    requires |s.buf| == PIPEBUFSIZ
  {
    k < |s.input| && s.buf[k % PIPEBUFSIZ] == s.input[k]
  }

  ghost predicate Inv(s: State) {
    && |s.buf| == PIPEBUFSIZ && s.rpos <= s.wpos <= s.rpos + PIPEBUFSIZ && s.wpos <= |s.input|
    && (forall k: nat {:trigger InRing(s, k)} :: s.rpos <= k < s.wpos ==> InRing(s, k))
    && (s.writer != Testing ==> s.wpos < |s.input| && s.wpos < s.rpos + PIPEBUFSIZ)
    && (s.writer == Counting ==> InRing(s, s.wpos))
    && (s.reader != Testing ==> s.rpos < s.wpos)
    && s.output == s.input[..if s.reader == Counting then s.rpos + 1 else s.rpos]
  }

  /** Two positions less than a buffer apart have different places in the ring. */
  lemma Places(j: nat, k: nat)
    requires j < k < j + PIPEBUFSIZ
    ensures j % PIPEBUFSIZ != k % PIPEBUFSIZ
  {
  }

  lemma NextInv(s: State, c: Choice)
    requires Inv(s)
    ensures Inv(Next(s, c))
  {
    var s' := Next(s, c);
    forall k: nat | s'.rpos <= k < s'.wpos || (k == s'.wpos && s'.writer == Counting) ensures InRing(s', k) {
      assert s.rpos <= k < s.wpos || (k == s.wpos && s.writer == Counting) ==> InRing(s, k);
      if c.WriterStep? && s.writer == Copying && k < s.wpos {
        Places(k, s.wpos);
      }
    }
    if c.ReaderStep? && s.reader == Copying {
      assert InRing(s, s.rpos);
      assert s.input[..s.rpos + 1] == s.input[..s.rpos] + [s.input[s.rpos]];
    }
  }

  function Run(s: State, run: seq<Choice>): (s': State)
    requires Inv(s)
    ensures Inv(s')
    decreases |run|
  {
    if run == [] then s
    else
      NextInv(s, run[0]);
      Run(Next(s, run[0]), run[1..])
  }

  /** In every interleaving the positions stay a buffer apart at most, and the bytes read are a prefix of the bytes written. */
  lemma Fifo(buf: seq<byte>, run: seq<Choice>)
    requires |buf| == PIPEBUFSIZ
    ensures var s := Run(State(buf, 0, 0, Testing, Testing, [], []), run);
      0 <= s.wpos - s.rpos <= PIPEBUFSIZ && s.output <= s.input && s.rpos <= |s.output| <= s.rpos + 1
  {
  }

  // ---------------------------------------------------------------------------------------------
  // Nothing gets stuck.

  lemma {:induction false} RunAppend(s: State, a: seq<Choice>, b: seq<Choice>)
    requires Inv(s)
    ensures Run(s, a + b) == Run(Run(s, a), b)
    decreases |a|
  {
    hide Next, Inv;
    if a == [] {
      assert a + b == b;
    } else {
      assert (a + b)[0] == a[0] && (a + b)[1..] == a[1..] + b;
      NextInv(s, a[0]);
      RunAppend(Next(s, a[0]), a[1..], b);
    }
  }

  lemma RunOne(s: State, c: Choice)
    requires Inv(s)
    ensures Run(s, [c]) == Next(s, c)
  {
    hide Next, Inv;
    NextInv(s, c);
    assert [c][1..] == [];
  }

  /** The steps that the two sides still have to take for what they have been asked for. */
  function Todo(s: State): int {
    3 * (|s.input| - s.wpos) - (if s.writer == Testing then 0 else if s.writer == Copying then 1 else 2)
    + 3 * (|s.input| - s.rpos) - (if s.reader == Testing then 0 else if s.reader == Copying then 1 else 2)
  }

  /** As long as bytes are missing one of the sides gets on. */
  lemma GetsOn(s: State) returns (c: Choice)
    requires Inv(s) && s.output != s.input
    ensures (c == WriterStep || c == ReaderStep) && Next(s, c).input == s.input && 0 <= Todo(Next(s, c)) < Todo(s)
  {
    c := if s.reader != Testing || s.rpos != s.wpos then ReaderStep else WriterStep;
    assert s.reader == Testing && s.rpos == |s.input| ==> s.output == s.input;
    NextInv(s, c);
  }

  /** From every state of every run there is a way to go on until the reader has got every byte. */
  lemma {:induction false} Delivers(s: State) returns (run: seq<Choice>)
    requires Inv(s)
    ensures (forall i :: 0 <= i < |run| ==> !run[i].Ask?) && Run(s, run).output == Run(s, run).input == s.input
    decreases Todo(s)
  {
    run := [];
    if s.output != s.input {
      var c := GetsOn(s);
      NextInv(s, c);
      RunOne(s, c);
      var rest := Delivers(Next(s, c));
      RunAppend(s, [c], rest);
      run := [c] + rest;
    }
  }
}
