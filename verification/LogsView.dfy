/**
 Container logs: two byte streams arrive in arbitrary chunks and are assembled into lines.
 Text is kept as bytes.
 */
module LogsView {
  import opened Wrappers
  import opened Bytes

  const NEWLINE: byte := 10
  const RETURN: byte := 13
  const MAX_LOG_LINES: nat := 10_000

  datatype Stream = Stdout | Stderr

  datatype Line = Line(stream: Stream, text: Chunk)

  // ---- splitting bytes into lines ----------------------------------------------------

  /** The newline-terminated pieces of `s`, without their newline. */
  function Raw(s: Chunk): seq<Chunk> {
    if s == [] then []
    else Raw(s[..|s| - 1]) + if s[|s| - 1] == NEWLINE then [Rest(s[..|s| - 1])] else []
  }

  /** What follows the last newline of `s`. */
  function Rest(s: Chunk): Chunk {
    if s == [] || s[|s| - 1] == NEWLINE then [] else Rest(s[..|s| - 1]) + [s[|s| - 1]]
  }

  function Join(pieces: seq<Chunk>): Chunk {
    if pieces == [] then [] else Join(pieces[..|pieces| - 1]) + pieces[|pieces| - 1] + [NEWLINE]
  }

  ghost predicate NewlineFree(pieces: seq<Chunk>) {
    forall p :: p in pieces ==> NEWLINE !in p
  }

  /** Nothing is lost or invented: the pieces and the rest, newlines put back, are the input. */
  lemma {:induction false} RawJoins(s: Chunk)
    ensures Join(Raw(s)) + Rest(s) == s
    ensures NewlineFree(Raw(s)) && NEWLINE !in Rest(s)
  {
    if s != [] {
      hide Raw, Rest, Join;
      var init, b := s[..|s| - 1], s[|s| - 1];
      assert s == init + [b];
      RawJoins(init);
      RawPush(init, b);
      if b == NEWLINE {
        JoinPush(Raw(init), Rest(init));
        assert init + [b] + [] == s;
      } else {
        assert Raw(init) + [] == Raw(init);
        assert Join(Raw(init)) + (Rest(init) + [b]) == (Join(Raw(init)) + Rest(init)) + [b];
      }
    } else {
      assert Join([]) == [];
    }
  }

  lemma JoinPush(pieces: seq<Chunk>, p: Chunk)
    ensures Join(pieces + [p]) == Join(pieces) + p + [NEWLINE]
  {
    assert (pieces + [p])[..|pieces|] == pieces;
  }

  lemma RawPush(s: Chunk, b: byte)
    ensures Raw(s + [b]) == Raw(s) + if b == NEWLINE then [Rest(s)] else []
    ensures Rest(s + [b]) == if b == NEWLINE then [] else Rest(s) + [b]
  {
    assert (s + [b])[..|s|] == s;
  }

  /** Splitting can be done in two goes, carrying the rest over. */
  lemma {:induction false} RawConcat(a: Chunk, b: Chunk)
    ensures Raw(a + b) == Raw(a) + Raw(Rest(a) + b)
    ensures Rest(a + b) == Rest(Rest(a) + b)
  {
    hide Raw, Rest;
    if b == [] {
      assert a + b == a && Rest(a) + b == Rest(a);
      RawJoins(a);
      NoNewline(Rest(a));
    } else {
      var init, c := b[..|b| - 1], b[|b| - 1];
      RawConcat(a, init);
      assert a + b == (a + init) + [c] && Rest(a) + b == (Rest(a) + init) + [c];
      RawPush(a + init, c);
      RawPush(Rest(a) + init, c);
    }
  }

  lemma {:induction false} NoNewline(s: Chunk)
    requires NEWLINE !in s
    ensures Raw(s) == [] && Rest(s) == s
  {
    if s != [] {
      NoNewline(s[..|s| - 1]);
    }
  }

  /** One line and what follows it. */
  lemma RawFirst(line: Chunk, more: Chunk)
    requires NEWLINE !in line
    ensures Raw(line + [NEWLINE] + more) == [line] + Raw(more)
    ensures Rest(line + [NEWLINE] + more) == Rest(more)
  {
    hide Raw, Rest;
    NoNewline(line);
    RawPush(line, NEWLINE);
    RawConcat(line + [NEWLINE], more);
    assert [] + more == more;
  }

  /** The split is the only one: newline-free pieces and rest that make up `s` are `Raw(s)` and `Rest(s)`. */
  lemma {:induction false} RawUnique(pieces: seq<Chunk>, rest: Chunk)
    requires NewlineFree(pieces) && NEWLINE !in rest
    ensures Raw(Join(pieces) + rest) == pieces && Rest(Join(pieces) + rest) == rest
  {
    hide Raw, Rest;
    RawConcat(Join(pieces), rest);
    NoNewline([]);
    if pieces == [] {
      assert [] + rest == rest;
      NoNewline(rest);
    } else {
      var init, last := pieces[..|pieces| - 1], pieces[|pieces| - 1];
      RawUnique(init, last);
      RawPush(Join(init) + last, NEWLINE);
      NoNewline(rest);
      assert [] + rest == rest;
      assert Join(pieces) == Join(init) + last + [NEWLINE];
      assert pieces == init + [last];
      assert pieces + [] == pieces;
    }
  }

  /** One trailing carriage return is dropped. */
  function Strip(raw: Chunk): Chunk {
    if raw != [] && raw[|raw| - 1] == RETURN then raw[..|raw| - 1] else raw
  }

  /** `text` is `raw`, less the carriage return it ends with if it does. */
  predicate Trims(raw: Chunk, text: Chunk) {
    raw == text + [RETURN] || (raw == text && (raw != [] ==> raw[|raw| - 1] != RETURN))
  }

  lemma StripTrims(raw: Chunk)
    ensures Trims(raw, Strip(raw))
  {
  }

  function Lines(stream: Stream, pieces: seq<Chunk>): (r: seq<Line>)
    ensures |r| == |pieces|
  {
    seq(|pieces|, k requires 0 <= k < |pieces| => Line(stream, Strip(pieces[k])))
  }

  lemma LinesConcat(stream: Stream, a: seq<Chunk>, b: seq<Chunk>)
    ensures Lines(stream, a + b) == Lines(stream, a) + Lines(stream, b)
  {
  }

  lemma LinesNone(stream: Stream)
    ensures Lines(stream, []) == []
  {
  }

  lemma LinesOne(stream: Stream, raw: Chunk)
    ensures Lines(stream, [raw]) == [Line(stream, Strip(raw))]
  {
  }

  /** `lines` are what `bytes` holds up to its last newline, one for each newline, of the given stream. */
  ghost predicate AreLines(stream: Stream, lines: seq<Line>, bytes: Chunk) {
    && |lines| == |Raw(bytes)|
    && forall k :: 0 <= k < |lines| ==> lines[k].stream == stream && Trims(Raw(bytes)[k], lines[k].text)
  }

  lemma LinesAre(stream: Stream, bytes: Chunk)
    ensures AreLines(stream, Lines(stream, Raw(bytes)), bytes)
  {
    hide Strip, Trims;
    forall k | 0 <= k < |Raw(bytes)| ensures Trims(Raw(bytes)[k], Strip(Raw(bytes)[k])) {
      StripTrims(Raw(bytes)[k]);
    }
  }

  // ---- the uncapped view ----------------------------------------------------------------

  /** All lines ever completed, and the unterminated tail of each stream. */
  datatype Transcript = Transcript(lines: seq<Line>, out: Chunk, err: Chunk)

  const EMPTY := Transcript([], [], [])

  function Pending(t: Transcript, stream: Stream): Chunk {
    if stream.Stdout? then t.out else t.err
  }

  function Feed(t: Transcript, stream: Stream, data: Chunk): Transcript {
    var bytes := Pending(t, stream) + data;
    var t' := t.(lines := t.lines + Lines(stream, Raw(bytes)));
    if stream.Stdout? then t'.(out := Rest(bytes)) else t'.(err := Rest(bytes))
  }

  /** The end of the stream turns the tails into last lines, stdout's first. */
  function Finish(t: Transcript): Transcript {
    var tails := (if t.out == [] then [] else [Line(Stdout, t.out)]) + if t.err == [] then [] else [Line(Stderr, t.err)];
    Transcript(t.lines + tails, [], [])
  }

  datatype Arrival = Arrival(stream: Stream, data: Chunk)

  function FeedAll(arrivals: seq<Arrival>): Transcript {
    if arrivals == [] then EMPTY
    else
      var last := arrivals[|arrivals| - 1];
      Feed(FeedAll(arrivals[..|arrivals| - 1]), last.stream, last.data)
  }

  function BytesOf(stream: Stream, arrivals: seq<Arrival>): Chunk {
    if arrivals == [] then []
    else
      var last := arrivals[|arrivals| - 1];
      BytesOf(stream, arrivals[..|arrivals| - 1]) + if last.stream == stream then last.data else []
  }

  function LinesOf(stream: Stream, lines: seq<Line>): seq<Line> {
    if lines == [] then []
    else
      var last := lines[|lines| - 1];
      LinesOf(stream, lines[..|lines| - 1]) + if last.stream == stream then [last] else []
  }

  lemma {:induction false} LinesOfConcat(stream: Stream, a: seq<Line>, b: seq<Line>)
    ensures LinesOf(stream, a + b) == LinesOf(stream, a) + LinesOf(stream, b)
  {
    if b == [] {
      assert a + b == a;
    } else {
      var init, last := b[..|b| - 1], b[|b| - 1];
      assert (a + b)[..|a + b| - 1] == a + init;
      LinesOfConcat(stream, a, init);
    }
  }

  lemma {:induction false} LinesOfTagged(stream: Stream, other: Stream, pieces: seq<Chunk>)
    ensures LinesOf(stream, Lines(other, pieces)) == if stream == other then Lines(other, pieces) else []
  {
    if pieces != [] {
      var all := Lines(other, pieces);
      assert all[..|all| - 1] == Lines(other, pieces[..|pieces| - 1]);
      LinesOfTagged(stream, other, pieces[..|pieces| - 1]);
    }
  }

  /** Ingesting `a` then `b` is ingesting `a + b`. */
  lemma ChunkingIrrelevant(t: Transcript, stream: Stream, a: Chunk, b: Chunk)
    ensures Feed(Feed(t, stream, a), stream, b) == Feed(t, stream, a + b)
  {
    var whole := Pending(t, stream) + a;
    assert Pending(t, stream) + (a + b) == whole + b;
    RawConcat(whole, b);
    LinesConcat(stream, Raw(whole), Raw(Rest(whole) + b));
    assert t.lines + (Lines(stream, Raw(whole)) + Lines(stream, Raw(Rest(whole) + b)))
        == (t.lines + Lines(stream, Raw(whole))) + Lines(stream, Raw(Rest(whole) + b));
  }

  lemma {:induction false} FedLines(stream: Stream, arrivals: seq<Arrival>)
    ensures
      var t, bytes := FeedAll(arrivals), BytesOf(stream, arrivals);
      LinesOf(stream, t.lines) == Lines(stream, Raw(bytes)) && Pending(t, stream) == Rest(bytes)
  {
    if arrivals != [] {
      var init, last := arrivals[..|arrivals| - 1], arrivals[|arrivals| - 1];
      FedLines(stream, init);
      hide Raw, Rest, LinesOf, Lines;
      var t, bytes := FeedAll(init), BytesOf(stream, init);
      var pieces := Raw(Pending(t, last.stream) + last.data);
      LinesOfConcat(stream, t.lines, Lines(last.stream, pieces));
      LinesOfTagged(stream, last.stream, pieces);
      RawConcat(bytes, last.data);
      LinesConcat(stream, Raw(bytes), Raw(Rest(bytes) + last.data));
      if last.stream != stream {
        assert bytes + [] == bytes && LinesOf(stream, t.lines) + [] == LinesOf(stream, t.lines);
      }
    }
  }

  /**
   However the two streams are cut and interleaved, each stream's lines are its own bytes split at
   the newlines, one carriage return dropped from each, and its tail is what is left over.
   */
  lemma InterleavingIrrelevant(stream: Stream, arrivals: seq<Arrival>)
    ensures
      var t, bytes := FeedAll(arrivals), BytesOf(stream, arrivals);
      AreLines(stream, LinesOf(stream, t.lines), bytes) && Pending(t, stream) == Rest(bytes)
  {
    FedLines(stream, arrivals);
    LinesAre(stream, BytesOf(stream, arrivals));
  }

  /** What is left of a stream without a newline is a line if it is anything. */
  function TailLine(stream: Stream, tail: Chunk): seq<Line> {
    if tail == [] then [] else [Line(stream, tail)]
  }

  lemma LinesOfTail(stream: Stream, other: Stream, tail: Chunk)
    ensures LinesOf(stream, TailLine(other, tail)) == if stream == other then TailLine(other, tail) else []
  {
    if tail != [] {
      assert [Line(other, tail)][..0] == [];
    }
  }

  /**
   However the two streams are cut and interleaved, once they have ended every byte of each is in
   its lines: `pieces` and `tail`, newlines put back, are all its bytes, there is one line for each
   piece, and one more for the tail as it is unless that is empty. The tails are the last lines of
   all, and stdout's comes first.
   */
  lemma NothingLost(stream: Stream, arrivals: seq<Arrival>)
    ensures
      var t, bytes := Finish(FeedAll(arrivals)), BytesOf(stream, arrivals);
      var lines, pieces, tail := LinesOf(stream, t.lines), Raw(bytes), Rest(bytes);
      && t.out == [] && t.err == []
      && Join(pieces) + tail == bytes
      && |lines| == |pieces| + (if tail == [] then 0 else 1)
      && (forall k :: 0 <= k < |pieces| ==> lines[k].stream == stream && Trims(pieces[k], lines[k].text))
      && (tail != [] ==> lines[|pieces|] == Line(stream, tail))
    ensures
      var out, err := Rest(BytesOf(Stdout, arrivals)), Rest(BytesOf(Stderr, arrivals));
      Finish(FeedAll(arrivals)).lines == FeedAll(arrivals).lines + TailLine(Stdout, out) + TailLine(Stderr, err)
  {
    var t, bytes := FeedAll(arrivals), BytesOf(stream, arrivals);
    FedLines(Stdout, arrivals);
    FedLines(Stderr, arrivals);
    FedLines(stream, arrivals);
    LinesAre(stream, bytes);
    RawJoins(bytes);
    FinishLines(t);
    LinesOfConcat(stream, t.lines + TailLine(Stdout, t.out), TailLine(Stderr, t.err));
    LinesOfConcat(stream, t.lines, TailLine(Stdout, t.out));
    LinesOfTail(stream, Stdout, t.out);
    LinesOfTail(stream, Stderr, t.err);
    hide Raw, Rest, Join, FeedAll, BytesOf, LinesOf, Lines, Trims;
  }

  lemma FinishLines(t: Transcript)
    ensures Finish(t) == Transcript(t.lines + TailLine(Stdout, t.out) + TailLine(Stderr, t.err), [], [])
  {
  }

  // ---- the buffer ------------------------------------------------------------------------

  /** `lines` is the end of `all`: everything, or its last `n` lines. */
  ghost predicate HoldsLast(lines: seq<Line>, all: seq<Line>, n: nat) {
    && |lines| == (if |all| <= n then |all| else n)
    && forall k :: 0 <= k < |lines| ==> lines[k] == all[|all| - |lines| + k]
  }

  /** Dropping the oldest line of a full buffer makes room for the newest. */
  lemma HoldsNewest(lines: seq<Line>, all: seq<Line>, n: nat, line: Line)
    requires HoldsLast(lines, all, n) && 0 < n
    ensures HoldsLast((if |lines| >= n then lines[1..] else lines) + [line], all + [line], n)
  {
  }

  /** One more line is complete. */
  lemma LineCompleted(stream: Stream, completed: seq<Line>, line: Chunk, more: Chunk)
    requires NEWLINE !in line
    ensures Rest(line + [NEWLINE] + more) == Rest(more)
    ensures completed + Lines(stream, Raw(line + [NEWLINE] + more))
         == completed + [Line(stream, Strip(line))] + Lines(stream, Raw(more))
  {
    hide Raw, Rest, Lines, Strip;
    RawFirst(line, more);
    LinesConcat(stream, [line], Raw(more));
    LinesNone(stream);
    LinesOne(stream, line);
  }

  class LogsView {
    var lines: seq<Line>
    var pendingStdout: Chunk
    var pendingStderr: Chunk
    var atTail: bool
    var streamEnded: Option<string>
    ghost var all: seq<Line>

    /** The buffer is the end of everything that was ever pushed. */
    ghost predicate Valid()
      reads this
    {
      HoldsLast(lines, all, 10_000)
    }

    ghost function View(): Transcript
      reads this
    {
      Transcript(all, pendingStdout, pendingStderr)
    }

    constructor ()
      ensures Valid() && View() == EMPTY && streamEnded == None && atTail
    {
      lines, pendingStdout, pendingStderr, atTail, streamEnded := [], [], [], true, None;
      all := [];
    }

    method PushLine(line: Line)
      requires Valid()
      modifies this`lines, this`all
      ensures Valid() && all == old(all) + [line]
    {
      HoldsNewest(lines, all, MAX_LOG_LINES, line);
      hide HoldsLast;
      if |lines| >= MAX_LOG_LINES {
        lines := lines[1..];
      }
      lines := lines + [line];
      all := all + [line];
    }

    /** The position of the first newline. */
    method FindNewline(s: Chunk) returns (at: Option<nat>)
      ensures at.None? ==> NEWLINE !in s
      ensures at.Some? ==> at.value < |s| && s[at.value] == NEWLINE && NEWLINE !in s[..at.value]
    {
      for i := 0 to |s|
        invariant NEWLINE !in s[..i]
      {
        if s[i] == NEWLINE {
          return Some(i);
        }
      }
      return None;
    }

    /** Cut every complete line off `bytes`. */
    method DrainLines(stream: Stream, bytes: Chunk) returns (completed: seq<Line>, rest: Chunk)
      ensures completed == Lines(stream, Raw(bytes)) && rest == Rest(bytes)
    {
      hide Raw, Rest, Lines;
      completed, rest := [], bytes;
      assert Lines(stream, []) == [] by { LinesNone(stream); }
      while true
        invariant completed + Lines(stream, Raw(rest)) == Lines(stream, Raw(bytes))
        invariant Rest(rest) == Rest(bytes)
        decreases |rest|
      {
        var at := FindNewline(rest);
        if at.None? {
          NoNewline(rest);
          return;
        }
        var raw := rest[..at.value + 1];
        var end := |raw| - 1;
        if end > 0 && raw[end - 1] == RETURN {
          end := end - 1;
        }
        var more := rest[at.value + 1..];
        ghost var line := rest[..at.value];
        assert rest == line + [NEWLINE] + more;
        assert raw[..end] == Strip(line);
        LineCompleted(stream, completed, line, more);
        completed := completed + [Line(stream, raw[..end])];
        rest := more;
      }
    }

    /** The lines that the new bytes complete are pushed, in order; what follows the last newline waits. */
    method Ingest(stream: Stream, data: Chunk)
      requires Valid()
      modifies this
      ensures Valid() && View() == Feed(old(View()), stream, data)
      ensures old(all) <= all && AreLines(stream, all[|old(all)|..], old(Pending(View(), stream)) + data)
      ensures pendingStdout == if stream.Stdout? then Rest(old(pendingStdout) + data) else old(pendingStdout)
      ensures pendingStderr == if stream.Stderr? then Rest(old(pendingStderr) + data) else old(pendingStderr)
      ensures atTail == old(atTail) && streamEnded == old(streamEnded)
    {
      hide HoldsLast, AreLines;
      var completed: seq<Line>;
      match stream {
        case Stdout => completed, pendingStdout := DrainLines(stream, pendingStdout + data);
        case Stderr => completed, pendingStderr := DrainLines(stream, pendingStderr + data);
      }
      for k := 0 to |completed|
        invariant Valid() && all == old(all) + completed[..k]
        invariant View() == Transcript(all, pendingStdout, pendingStderr)
        invariant pendingStdout == (if stream.Stdout? then Rest(old(pendingStdout) + data) else old(pendingStdout))
        invariant pendingStderr == (if stream.Stderr? then Rest(old(pendingStderr) + data) else old(pendingStderr))
        invariant atTail == old(atTail) && streamEnded == old(streamEnded)
      {
        PushLine(completed[k]);
      }
      assert completed[..|completed|] == completed;
      LinesAre(stream, old(Pending(View(), stream)) + data);
    }

    /** Flush the unterminated tails as last lines. */
    method EndStream(reason: string)
      requires Valid()
      modifies this
      ensures Valid() && View() == Finish(old(View()))
      ensures pendingStdout == [] && pendingStderr == []
      ensures all == old(all)
                     + (if old(pendingStdout) == [] then [] else [Line(Stdout, old(pendingStdout))])
                     + (if old(pendingStderr) == [] then [] else [Line(Stderr, old(pendingStderr))])
      ensures streamEnded == Some(reason) && !atTail
    {
      hide HoldsLast;
      FinishLines(View());
      hide Finish;
      var stdoutTail := pendingStdout;
      pendingStdout := [];
      if stdoutTail != [] {
        PushLine(Line(Stdout, stdoutTail));
      }
      var stderrTail := pendingStderr;
      pendingStderr := [];
      if stderrTail != [] {
        PushLine(Line(Stderr, stderrTail));
      }
      streamEnded := Some(reason);
      atTail := false;
    }
  }
}
