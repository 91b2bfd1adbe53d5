/**
 * The token stream writer: every token goes to the sink at once, and
 * `Flush` ends piped output with one newline. The sink is an output buffer
 * that either accepts every write or rejects every write.
 */
module StreamWriter {

  datatype Sink = Sink(written: string, broken: bool)

  /**
   * `warnings` counts the messages `Flush` logs to standard error when its
   * newline cannot be written; it is the only trace such a failure leaves.
   */
  datatype Writer = Writer(sink: Sink, tty: bool, warnings: nat)

  datatype Written = Written(writer: Writer, ok: bool)

  function NewWriter(sink: Sink, tty: bool): (w: Writer)
    ensures IsTty(w) == tty && w.sink == sink
  {
    Writer(sink, tty, 0)
  }

  /** Appends `s` to a working sink; a broken sink keeps its contents and reports failure. */
  function SinkWrite(sink: Sink, s: string): (r: (Sink, bool))
  {
    if sink.broken then (sink, false) else (sink.(written := sink.written + s), true)
  }

  /** `Writer.Write`: the token verbatim, with no buffering or escaping. */
  function Write(w: Writer, token: string): (r: Written)
    ensures r.ok <==> !w.sink.broken
    ensures r.ok ==> r.writer.sink.written == w.sink.written + token
    ensures !r.ok ==> r.writer == w
    ensures r.writer.tty == w.tty && r.writer.warnings == w.warnings
  {
    var (sink, ok) := SinkWrite(w.sink, token);
    Written(w.(sink := sink), ok)
  }

  /**
   * `Writer.Flush`. It returns no error: a failed newline write only adds a
   * warning.
   */
  function Flush(w: Writer): (r: Writer)
    ensures w.tty ==> r == w
    ensures !w.tty && !w.sink.broken ==> r == w.(sink := w.sink.(written := w.sink.written + "\n"))
    ensures !w.tty && w.sink.broken ==> r == w.(warnings := w.warnings + 1)
  {
    if w.tty then w
    else
      var (sink, ok) := SinkWrite(w.sink, "\n");
      if ok then w.(sink := sink) else w.(warnings := w.warnings + 1)
  }

  function IsTty(w: Writer): bool {
    w.tty
  }

  function Concat(tokens: seq<string>): string {
    if tokens == [] then "" else tokens[0] + Concat(tokens[1..])
  }

  /** Writing tokens one by one, stopping at the first failure. */
  function WriteAll(w: Writer, tokens: seq<string>): (r: Written)
    decreases |tokens|
  {
    if tokens == [] then Written(w, true)
    else
      var first := Write(w, tokens[0]);
      if !first.ok then first else WriteAll(first.writer, tokens[1..])
  }

  /** On a working sink the output is the tokens' concatenation, byte for byte. */
  lemma {:induction false} WriteAllConcatenates(w: Writer, tokens: seq<string>)
    requires !w.sink.broken
    ensures WriteAll(w, tokens).ok
    ensures WriteAll(w, tokens).writer == w.(sink := w.sink.(written := w.sink.written + Concat(tokens)))
    decreases |tokens|
  {
    if tokens != [] {
      WriteAllConcatenates(Write(w, tokens[0]).writer, tokens[1..]);
    }
  }

  /** An empty token changes nothing. */
  lemma EmptyTokenInvisible(w: Writer)
    requires !w.sink.broken
    ensures Write(w, "").writer == w
  {
    assert w.sink.written + "" == w.sink.written;
  }

  /** Neither writing nor flushing changes the mode the writer was built with. */
  lemma {:induction false} ModeIsStable(sink: Sink, tty: bool, tokens: seq<string>)
    ensures IsTty(Flush(WriteAll(NewWriter(sink, tty), tokens).writer)) == tty
  {
    WriteAllKeepsMode(NewWriter(sink, tty), tokens);
  }

  lemma {:induction false} WriteAllKeepsMode(w: Writer, tokens: seq<string>)
    ensures WriteAll(w, tokens).writer.tty == w.tty
    decreases |tokens|
  {
    if tokens != [] && Write(w, tokens[0]).ok {
      WriteAllKeepsMode(Write(w, tokens[0]).writer, tokens[1..]);
    }
  }

  /**
   * The whole output of a response: in a pipe it is the tokens followed by
   * exactly one newline, on a terminal the tokens alone.
   */
  lemma ResponseOutput(sink: Sink, tty: bool, tokens: seq<string>)
    requires !sink.broken
    ensures Flush(WriteAll(NewWriter(sink, tty), tokens).writer).sink.written
      == sink.written + Concat(tokens) + (if tty then "" else "\n")
  {
    WriteAllConcatenates(NewWriter(sink, tty), tokens);
  }
}
