/**
 * The generic event-stream reader (`Reader.Read`): a line state machine that
 * turns `event:` / `data:` lines into events, emitting at blank lines and
 * flushing a pending event at end of input.
 *
 * The input is the sequence of lines the scanner produced, a flag telling
 * whether the scanner stopped on a read error, and the context's
 * cancellation. Checkpoints are numbered in the order the code reaches them:
 * one before every line, one at every send.
 */
module SseReader {
  import opened Wrappers
  import opened Strings
  import opened Context

  /** An event; `name` is the `event:` field, empty when absent. */
  datatype Event = Event(name: string, data: string)

  const Blank: Event := Event("", "")

  /** How `Read` returned: nil, the context's error, or a wrapped scanner error. */
  datatype Outcome = Finished | Cancelled | ReadFailed

  /** The events sent on the channel, in order, and how the call returned. */
  datatype Reading = Reading(events: seq<Event>, outcome: Outcome)

  predicate IsCommentLine(line: string) { HasPrefix(line, ":") }
  predicate IsEventLine(line: string) { HasPrefix(line, "event:") }
  predicate IsDataLine(line: string) { HasPrefix(line, "data:") }

  /** The payload of a `data:` line: the rest of the line minus at most one leading space. */
  function DataPayload(line: string): string {
    TrimPrefix(TrimPrefix(line, "data:"), " ")
  }

  /**
   * The effect of one non-blank line on the pending event: a comment or an
   * unknown line changes nothing, `event:` replaces the name only, and
   * `data:` extends the data only.
   */
  function Absorb(pending: Event, line: string): (r: Event)
    requires line != ""
    ensures !IsEventLine(line) || IsCommentLine(line) ==> r.name == pending.name
    ensures !IsDataLine(line) || IsCommentLine(line) || IsEventLine(line) ==> r.data == pending.data
    ensures pending.data <= r.data
    ensures pending.data != "" ==> r.data != ""
  {
    if IsCommentLine(line) then pending
    else if IsEventLine(line) then pending.(name := TrimSpace(TrimPrefix(line, "event:")))
    else if IsDataLine(line) then pending.(data := Accumulate(pending.data, DataPayload(line), "\n"))
    else pending
  }

  /** `event:v` names the pending event `v` with surrounding white space removed; the data stays. */
  lemma EventLineSetsName(p: Event, v: string)
    ensures Absorb(p, "event:" + v) == Event(TrimSpace(v), p.data)
  {
    var line := "event:" + v;
    assert line[0] == 'e';
    assert !IsCommentLine(line) && IsEventLine(line);
    assert TrimPrefix(line, "event:") == v;
  }

  /**
   * `data:v` keeps the name and appends `v` minus at most one leading space,
   * after a newline only when data has already accumulated.
   */
  lemma DataLineAppends(p: Event, v: string)
    ensures Absorb(p, "data:" + v).name == p.name
    ensures Absorb(p, "data:" + v).data
      == (if p.data == "" then TrimPrefix(v, " ") else p.data + "\n" + TrimPrefix(v, " "))
  {
    var line := "data:" + v;
    assert line[0] == 'd';
    assert !IsCommentLine(line) && !IsEventLine(line) && IsDataLine(line);
    assert TrimPrefix(line, "data:") == v;
  }

  predicate AllHaveData(events: seq<Event>) {
    forall i :: 0 <= i < |events| ==> events[i].data != ""
  }

  /** What happens once the scanner stops (reader.go lines 88-105). */
  function Finish(pending: Event, tick: nat, cancel: Cancellation, scanFailed: bool): (r: Reading)
    ensures AllHaveData(r.events)
    ensures r.outcome == Cancelled ==> Done(cancel, tick)
    ensures r.outcome == ReadFailed ==> scanFailed
  {
    if scanFailed then Reading([], if Done(cancel, tick) then Cancelled else ReadFailed)
    else if pending.data == "" then Reading([], Finished)
    else if Done(cancel, tick) then Reading([], Cancelled)
    else Reading([pending], Finished)
  }

  /** The main loop from checkpoint `tick` on, with `pending` accumulated so far. */
  function Scan(lines: seq<string>, pending: Event, tick: nat, cancel: Cancellation, scanFailed: bool): (r: Reading)
    ensures AllHaveData(r.events)
    ensures r.outcome == Cancelled ==> cancel.Some?
    ensures r.outcome == ReadFailed ==> scanFailed
    decreases |lines|
  {
    if lines == [] then Finish(pending, tick, cancel, scanFailed)
    else if Done(cancel, tick) then Reading([], Cancelled)
    else if lines[0] == "" then
      if pending.data == "" then Scan(lines[1..], Blank, tick + 1, cancel, scanFailed)
      else if Done(cancel, tick + 1) then Reading([], Cancelled)
      else
        var rest := Scan(lines[1..], Blank, tick + 2, cancel, scanFailed);
        Reading([pending] + rest.events, rest.outcome)
    else Scan(lines[1..], Absorb(pending, lines[0]), tick + 1, cancel, scanFailed)
  }

  /**
   * `Reader.Read`. The reader never closes the channel, so the model has no
   * close step: `events` is everything sent, in order.
   */
  function Read(lines: seq<string>, cancel: Cancellation, scanFailed: bool): (r: Reading)
    ensures AllHaveData(r.events)
    ensures r.outcome == Cancelled ==> cancel.Some?
    ensures r.outcome == ReadFailed ==> scanFailed
    ensures lines == [] ==> r.events == []
    ensures lines == [] && !scanFailed ==> r.outcome == Finished
  {
    Scan(lines, Blank, 0, cancel, scanFailed)
  }

  /** Without cancellation the checkpoint numbering is irrelevant. */
  lemma {:induction false} TickIrrelevant(lines: seq<string>, p: Event, t: nat, t': nat, f: bool)
    ensures Scan(lines, p, t, None, f) == Scan(lines, p, t', None, f)
    decreases |lines|
  {
    if lines != [] {
      var q := if lines[0] == "" then Blank else Absorb(p, lines[0]);
      if lines[0] == "" && p.data != "" {
        TickIrrelevant(lines[1..], q, t + 2, t' + 2, f);
      } else {
        TickIrrelevant(lines[1..], q, t + 1, t' + 1, f);
      }
    }
  }

  /** A context that is never cancelled yields the nil error unless the scanner failed. */
  lemma {:induction false} UncancelledOutcome(lines: seq<string>, p: Event, t: nat, f: bool)
    ensures Scan(lines, p, t, None, f).outcome == (if f then ReadFailed else Finished)
    decreases |lines|
  {
    if lines != [] {
      if lines[0] == "" && p.data != "" {
        UncancelledOutcome(lines[1..], Blank, t + 2, f);
      } else if lines[0] == "" {
        UncancelledOutcome(lines[1..], Blank, t + 1, f);
      } else {
        UncancelledOutcome(lines[1..], Absorb(p, lines[0]), t + 1, f);
      }
    }
  }

  /**
   * Cancellation only cuts the stream short: the events sent are a prefix of
   * those an uncancelled read sends, and a read that does not report the
   * cancellation sent all of them.
   */
  lemma {:induction false} CancellationTruncates(lines: seq<string>, p: Event, t: nat, k: nat, f: bool)
    ensures Scan(lines, p, t, Some(k), f).events <= Scan(lines, p, t, None, f).events
    ensures Scan(lines, p, t, Some(k), f).outcome != Cancelled ==>
      Scan(lines, p, t, Some(k), f) == Scan(lines, p, t, None, f)
    decreases |lines|
  {
    if lines != [] && !Done(Some(k), t) {
      if lines[0] == "" && p.data != "" {
        if !Done(Some(k), t + 1) {
          CancellationTruncates(lines[1..], Blank, t + 2, k, f);
        }
      } else if lines[0] == "" {
        CancellationTruncates(lines[1..], Blank, t + 1, k, f);
      } else {
        CancellationTruncates(lines[1..], Absorb(p, lines[0]), t + 1, k, f);
      }
    }
  }

  /**
   * A context already cancelled when `Read` starts reports the cancellation,
   * sends nothing, and wins over a scanner error.
   */
  lemma CancelledBeforeStart(lines: seq<string>, f: bool)
    requires lines != [] || f
    ensures Read(lines, Some(0), f) == Reading([], Cancelled)
  {
  }

  /** A line that is neither blank nor an `event:` or `data:` line; comments are among them. */
  predicate Inert(line: string) {
    line != "" && (IsCommentLine(line) || (!IsEventLine(line) && !IsDataLine(line)))
  }

  /** Comment lines and lines of unknown fields can be deleted without changing the result. */
  lemma {:induction false} InertLineInvisible(pre: seq<string>, line: string, post: seq<string>, p: Event, f: bool)
    requires Inert(line)
    ensures Scan(pre + [line] + post, p, 0, None, f) == Scan(pre + post, p, 0, None, f)
    decreases |pre|
  {
    if pre == [] {
      assert pre + [line] + post == [line] + post && pre + post == post;
      assert ([line] + post)[0] == line && ([line] + post)[1..] == post;
      assert Absorb(p, line) == p;
      TickIrrelevant(post, p, 1, 0, f);
    } else {
      var q := if pre[0] == "" then Blank else Absorb(p, pre[0]);
      assert (pre + [line] + post)[1..] == pre[1..] + [line] + post;
      assert (pre + post)[1..] == pre[1..] + post;
      assert (pre + [line] + post)[0] == (pre + post)[0] == pre[0];
      InertLineInvisible(pre[1..], line, post, q, f);
      var t := if pre[0] == "" && p.data != "" then 2 else 1;
      TickIrrelevant(pre[1..] + [line] + post, q, t, 0, f);
      TickIrrelevant(pre[1..] + post, q, t, 0, f);
    }
  }

  /** A final blank line and plain end of input dispatch the pending event alike. */
  lemma {:induction false} TrailingBlankLikeEndOfInput(lines: seq<string>, p: Event)
    ensures Scan(lines + [""], p, 0, None, false) == Scan(lines, p, 0, None, false)
    decreases |lines|
  {
    if lines == [] {
      assert [""][1..] == [];
    } else {
      var q := if lines[0] == "" then Blank else Absorb(p, lines[0]);
      var t := if lines[0] == "" && p.data != "" then 2 else 1;
      assert (lines + [""])[1..] == lines[1..] + [""];
      assert (lines + [""])[0] == lines[0];
      TrailingBlankLikeEndOfInput(lines[1..], q);
      TickIrrelevant(lines[1..] + [""], q, t, 0, false);
      TickIrrelevant(lines[1..], q, t, 0, false);
    }
  }

  // ----- Reference reading: one event per blank-line-separated block -----

  /** Index of the first blank line, or `|lines|` when there is none. */
  function BlankIndex(lines: seq<string>): (k: nat)
    ensures k <= |lines|
    ensures k < |lines| ==> lines[k] == ""
    ensures forall i :: 0 <= i < k ==> lines[i] != ""
  {
    if lines == [] || lines[0] == "" then 0 else 1 + BlankIndex(lines[1..])
  }

  /** The event a block of non-blank lines assembles, starting from `p`. */
  function Assemble(p: Event, block: seq<string>): Event
    requires forall i :: 0 <= i < |block| ==> block[i] != ""
    decreases |block|
  {
    if block == [] then p else Assemble(Absorb(p, block[0]), block[1..])
  }

  /**
   * Reference semantics: split the input at blank lines, assemble each block
   * into an event, and keep the events whose data is non-empty.
   */
  function Dispatch(lines: seq<string>, p: Event): seq<Event>
    decreases |lines|
  {
    var k := BlankIndex(lines);
    var e := Assemble(p, lines[..k]);
    var out := if e.data != "" then [e] else [];
    if k == |lines| then out else out + Dispatch(lines[k + 1..], Blank)
  }

  /** Without cancellation or read errors, `Read` is exactly the block-wise reference. */
  lemma {:induction false} ReadIsDispatch(lines: seq<string>, p: Event, t: nat)
    ensures Scan(lines, p, t, None, false) == Reading(Dispatch(lines, p), Finished)
    decreases |lines|
  {
    if lines == [] {
    } else if lines[0] == "" {
      assert lines[..0] == [];
      var t' := if p.data != "" then t + 2 else t + 1;
      ReadIsDispatch(lines[1..], Blank, t');
    } else {
      var q := Absorb(p, lines[0]);
      ReadIsDispatch(lines[1..], q, t + 1);
      var k := BlankIndex(lines);
      assert k == 1 + BlankIndex(lines[1..]);
      assert lines[..k][1..] == lines[1..][..k - 1];
      assert Assemble(p, lines[..k]) == Assemble(q, lines[1..][..k - 1]);
      if k < |lines| {
        assert lines[k + 1..] == lines[1..][k..];
      }
    }
  }

  /** The payloads of a block of `data:` lines. */
  function Payloads(block: seq<string>): (r: seq<string>)
    ensures |r| == |block|
  {
    if block == [] then [] else [DataPayload(block[0])] + Payloads(block[1..])
  }

  /**
   * A block made of `data:` lines carries the payloads joined by newlines,
   * where leading empty payloads contribute no separator.
   */
  lemma {:induction false} DataLinesJoin(block: seq<string>, p: Event)
    requires forall i :: 0 <= i < |block| ==> IsDataLine(block[i])
    ensures forall i :: 0 <= i < |block| ==> block[i] != ""
    ensures Assemble(p, block).data == AccumulateAll(p.data, Payloads(block), "\n")
    ensures Assemble(p, block).name == p.name
    decreases |block|
  {
    if block != [] {
      assert block[0][0] == "data:"[0] == 'd';
      assert block[0] != "" && !IsCommentLine(block[0]) && !IsEventLine(block[0]);
      DataLinesJoin(block[1..], Absorb(p, block[0]));
    }
  }

  /** So a block of `data:` lines read from scratch has data `Join(DropLeadingEmpty(payloads), "\n")`. */
  lemma DataBlockFromScratch(block: seq<string>)
    requires forall i :: 0 <= i < |block| ==> IsDataLine(block[i])
    ensures forall i :: 0 <= i < |block| ==> block[i] != ""
    ensures Assemble(Blank, block) == Event("", Join(DropLeadingEmpty(Payloads(block)), "\n"))
  {
    DataLinesJoin(block, Blank);
    AccumulateAllIsJoin(Payloads(block), "\n");
  }
}
