/** The newline framer behind the stdio server: a buffer cut in place, and a mode that discards an oversized line. */
module StdioFraming {
  import opened Common

  type Bytes = seq<Byte>

  const NEWLINE: Byte := 10
  const READ_CHUNK_BYTES: nat := 64 * 1024
  const MAX_MESSAGE_BYTES: nat := 16 * 1024 * 1024

  /** What the reader sends on: a complete line, or the error that a message exceeds the ceiling. */
  datatype Sent = Line(raw: Bytes) | Oversized

  // ----- The lines of a stream -----

  datatype Split = Split(lines: seq<Bytes>, tail: Bytes)

  /** The newline-terminated lines, and what follows the last newline. */
  function Lines(stream: Bytes): Split
    decreases |stream|
  {
    if stream == [] then Split([], [])
    else
      var rest := Lines(stream[1..]);
      if stream[0] == NEWLINE then Split([[]] + rest.lines, rest.tail)
      else if rest.lines == [] then Split([], [stream[0]] + rest.tail)
      else Split([[stream[0]] + rest.lines[0]] + rest.lines[1..], rest.tail)
  }

  function Join(lines: seq<Bytes>): Bytes
    decreases |lines|
  {
    if lines == [] then [] else Join(lines[..|lines| - 1]) + lines[|lines| - 1] + [NEWLINE]
  }

  predicate Unbroken(bytes: Bytes) {
    NEWLINE !in bytes
  }

  lemma {:induction false} UnbrokenIsTail(tail: Bytes)
    requires Unbroken(tail)
    ensures Lines(tail) == Split([], tail)
    decreases |tail|
  {
    if tail != [] { UnbrokenIsTail(tail[1..]); }
  }

  lemma {:induction false} FirstLine(line: Bytes, rest: Bytes)
    requires Unbroken(line)
    ensures Lines(line + [NEWLINE] + rest) == Split([line] + Lines(rest).lines, Lines(rest).tail)
    decreases |line|
  {
    var all := line + [NEWLINE] + rest;
    if line == [] {
      assert all[1..] == rest;
    } else {
      assert all[1..] == line[1..] + [NEWLINE] + rest;
      FirstLine(line[1..], rest);
      assert [line[0]] + line[1..] == line;
    }
  }

  lemma Regroup(a: Bytes, b: Bytes, c: Bytes)
    ensures a + b + c == a + (b + c)
  {
  }

  lemma RegroupLines(a: seq<Bytes>, b: seq<Bytes>, c: seq<Bytes>)
    ensures a + b + c == a + (b + c)
  {
  }

  /** Splitting is the inverse of joining: these are the lines of a stream that is put together from them. */
  lemma {:induction false} LinesOfJoin(lines: seq<Bytes>, rest: Bytes)
    requires forall i | 0 <= i < |lines| :: Unbroken(lines[i])
    ensures Lines(Join(lines) + rest) == Split(lines + Lines(rest).lines, Lines(rest).tail)
    decreases |lines|
  {
    if lines == [] {
      assert Join(lines) + rest == rest && lines + Lines(rest).lines == Lines(rest).lines;
    } else {
      var front, last := lines[..|lines| - 1], lines[|lines| - 1];
      LinesOfJoin(front, last + [NEWLINE] + rest);
      FirstLine(last, rest);
      Regroup(Join(front), last + [NEWLINE], rest);
      Regroup(Join(front), last, [NEWLINE]);
      assert front + [last] == lines;
      RegroupLines(front, [last], Lines(rest).lines);
    }
  }

  // ----- What may be sent for a stream -----

  function Errors(count: nat): (errors: seq<Sent>)
    ensures |errors| == count && forall i | 0 <= i < count :: errors[i] == Oversized
  {
    seq(count, _ => Oversized)
  }

  /** The least number of dropped bytes that `errors` errors stand for. */
  function Cost(errors: nat, limit: nat): (c: nat)
    ensures errors > 0 ==> c > limit
  {
    if errors == 0 then 0 else Cost(errors - 1, limit) + limit + 1
  }

  lemma {:induction false} CostIsProduct(errors: nat, limit: nat)
    ensures Cost(errors, limit) == errors * (limit + 1)
  {
    if errors > 0 { CostIsProduct(errors - 1, limit); }
  }

  /** A line within the ceiling is sent; a longer one costs at least one error, each for more than `limit` bytes. */
  predicate LineSends(line: Bytes, limit: nat, sent: seq<Sent>) {
    if |line| <= limit then sent == [Line(line)] else sent == Errors(|sent|) && |sent| >= 1 && Cost(|sent|, limit) <= |line|
  }

  /** A line of length L over the ceiling costs between 1 and L / (limit + 1) errors. */
  lemma LongLineErrors(line: Bytes, limit: nat, sent: seq<Sent>)
    requires |line| > limit
    ensures LineSends(line, limit, sent) <==> sent == Errors(|sent|) && 1 <= |sent| <= |line| / (limit + 1)
  {
    CostIsProduct(|sent|, limit);
    AtMost(|sent|, limit + 1, |line|);
  }

  lemma AtMost(n: nat, unit: nat, length: nat)
    requires unit > 0
    ensures n * unit <= length <==> n <= length / unit
  {
    var q, r := length / unit, length % unit;
    assert length == q * unit + r;
    if n <= q { assert n * unit <= q * unit; }
    if n > q { assert n * unit >= (q + 1) * unit; }
  }

  /** The same for what follows the last newline, which is no line if it is empty. */
  predicate TailSends(tail: Bytes, limit: nat, sent: seq<Sent>) {
    if tail == [] then sent == [] else LineSends(tail, limit, sent)
  }

  function Flatten(parts: seq<seq<Sent>>): seq<Sent>
    decreases |parts|
  {
    if parts == [] then [] else Flatten(parts[..|parts| - 1]) + parts[|parts| - 1]
  }

  ghost predicate LinesSend(lines: seq<Bytes>, limit: nat, parts: seq<seq<Sent>>) {
    |parts| == |lines| && forall i | 0 <= i < |lines| :: LineSends(lines[i], limit, parts[i])
  }

  /** `sent` is the messages of the lines of the stream, in order, and then of its tail. */
  ghost predicate Framed(stream: Bytes, limit: nat, sent: seq<Sent>) {
    exists parts: seq<seq<Sent>>, tail: seq<Sent> ::
      LinesSend(Lines(stream).lines, limit, parts) && TailSends(Lines(stream).tail, limit, tail)
      && sent == Flatten(parts) + tail
  }

  /** The lines among what was sent. */
  function Delivered(sent: seq<Sent>): seq<Bytes>
    decreases |sent|
  {
    if sent == [] then []
    else
      var last := sent[|sent| - 1];
      Delivered(sent[..|sent| - 1]) + (if last.Line? then [last.raw] else [])
  }

  function Short(lines: seq<Bytes>, limit: nat): seq<Bytes>
    decreases |lines|
  {
    if lines == [] then []
    else
      var last := lines[|lines| - 1];
      Short(lines[..|lines| - 1], limit) + (if |last| <= limit then [last] else [])
  }

  lemma {:induction false} DeliveredAppend(a: seq<Sent>, b: seq<Sent>)
    ensures Delivered(a + b) == Delivered(a) + Delivered(b)
    decreases |b|
  {
    if b == [] {
      assert a + b == a;
    } else {
      assert (a + b)[..|a + b| - 1] == a + b[..|b| - 1];
      DeliveredAppend(a, b[..|b| - 1]);
    }
  }

  lemma {:induction false} ErrorsDeliverNothing(count: nat)
    ensures Delivered(Errors(count)) == []
  {
    if count > 0 {
      assert Errors(count)[..count - 1] == Errors(count - 1);
      ErrorsDeliverNothing(count - 1);
    }
  }

  lemma OneLineDelivers(line: Bytes, limit: nat, sent: seq<Sent>)
    requires LineSends(line, limit, sent)
    ensures Delivered(sent) == if |line| <= limit then [line] else []
  {
    if |line| <= limit {
      assert sent[..0] == [] && Delivered([]) == [];
    } else {
      ErrorsDeliverNothing(|sent|);
    }
  }

  lemma {:induction false} LinesDeliver(lines: seq<Bytes>, limit: nat, parts: seq<seq<Sent>>)
    requires LinesSend(lines, limit, parts)
    ensures Delivered(Flatten(parts)) == Short(lines, limit)
    decreases |lines|
  {
    if lines != [] {
      var n := |lines| - 1;
      LinesDeliver(lines[..n], limit, parts[..n]);
      DeliveredAppend(Flatten(parts[..n]), parts[n]);
      OneLineDelivers(lines[n], limit, parts[n]);
    }
  }

  /** What is delivered depends on the stream alone, not on how it was cut into reads. */
  lemma DeliveredIsDetermined(stream: Bytes, limit: nat, sent: seq<Sent>)
    requires Framed(stream, limit, sent)
    ensures var split := Lines(stream);
      Delivered(sent) == Short(split.lines, limit) + (if 0 < |split.tail| <= limit then [split.tail] else [])
  {
    var parts: seq<seq<Sent>>, tail: seq<Sent> :|
      LinesSend(Lines(stream).lines, limit, parts) && TailSends(Lines(stream).tail, limit, tail)
      && sent == Flatten(parts) + tail;
    LinesDeliver(Lines(stream).lines, limit, parts);
    DeliveredAppend(Flatten(parts), tail);
    if Lines(stream).tail != [] { OneLineDelivers(Lines(stream).tail, limit, tail); }
  }

  // ----- The reader -----

  function Max(a: nat, b: nat): nat {
    if a < b then b else a
  }

  /** One more complete line with its messages. */
  lemma OneMoreLine(lines: seq<Bytes>, limit: nat, parts: seq<seq<Sent>>, line: Bytes, part: seq<Sent>)
    requires LinesSend(lines, limit, parts) && LineSends(line, limit, part)
    ensures LinesSend(lines + [line], limit, parts + [part])
    ensures Flatten(parts + [part]) == Flatten(parts) + part
    ensures Join(lines + [line]) == Join(lines) + line + [NEWLINE]
  {
    assert (lines + [line])[..|lines|] == lines && (parts + [part])[..|parts|] == parts;
  }

  lemma Cut(stream: Bytes, joined: Bytes, dropped: Bytes, buffer: Bytes, newline: nat)
    requires newline < |buffer| && buffer[newline] == NEWLINE && stream == joined + dropped + buffer
    ensures stream == (joined + (dropped + buffer[..newline]) + [NEWLINE]) + [] + buffer[newline + 1..]
  {
    assert buffer == buffer[..newline] + [NEWLINE] + buffer[newline + 1..];
  }

  /** A stream that ends in an unterminated rest is framed by the messages of its lines and of that rest. */
  lemma Ends(lines: seq<Bytes>, limit: nat, parts: seq<seq<Sent>>, tail: Bytes, messages: seq<Sent>)
    requires forall i | 0 <= i < |lines| :: Unbroken(lines[i])
    requires LinesSend(lines, limit, parts) && Unbroken(tail) && TailSends(tail, limit, messages)
    ensures Framed(Join(lines) + tail, limit, Flatten(parts) + messages)
  {
    LinesOfJoin(lines, tail);
    UnbrokenIsTail(tail);
    assert lines + [] == lines;
  }

  /** The first newline at or after `from`, or none. */
  method Find(bytes: Bytes) returns (at: int)
    ensures at < 0 ==> Unbroken(bytes)
    ensures at >= 0 ==> at < |bytes| && bytes[at] == NEWLINE && Unbroken(bytes[..at])
  {
    for i := 0 to |bytes|
      invariant Unbroken(bytes[..i])
    {
      if bytes[i] == NEWLINE {
        return i;
      }
      assert bytes[..i + 1] == bytes[..i] + [bytes[i]];
    }
    assert bytes[..|bytes|] == bytes;
    return -1;
  }

  class Reader {
    var buffer: Bytes
    var discarding: bool
    var sent: seq<Sent>
    const limit: nat

    /** The complete lines so far with their messages, and the part of the current line already thrown away. */
    ghost var lines: seq<Bytes>
    ghost var parts: seq<seq<Sent>>
    ghost var dropped: Bytes
    ghost var errors: nat

    /** The greatest length the buffer has had. */
    ghost var peak: nat

    /** Everything read so far. */
    ghost function Stream(): Bytes
      reads this
    {
      Join(lines) + dropped + buffer
    }

    ghost predicate Valid()
      reads this
    {
      && (forall i | 0 <= i < |lines| :: Unbroken(lines[i]))
      && LinesSend(lines, limit, parts)
      && Unbroken(dropped)
      && sent == Flatten(parts) + Errors(errors)
      && (discarding <==> errors > 0)
      && (!discarding ==> dropped == [])
      && Cost(errors, limit) <= |dropped|
      && |buffer| <= peak
    }

    /** Between two reads the buffer holds no newline and is within the ceiling. */
    ghost predicate Settled()
      reads this
    {
      Valid() && Unbroken(buffer) && |buffer| <= limit
    }

    constructor (limit: nat)
      ensures Settled() && Stream() == [] && this.limit == limit && peak == 0
    {
      this.limit := limit;
      buffer, discarding, sent := [], false, [];
      lines, parts, dropped, errors, peak := [], [], [], 0, 0;
    }

    /** The buffer gets a read at its end; no other method makes it longer. */
    method Extend(chunk: Bytes)
      requires Valid()
      modifies this`buffer, this`peak
      ensures Valid() && Stream() == old(Stream()) + chunk && buffer == old(buffer) + chunk
      ensures peak == Max(old(peak), |buffer|)
    {
      Regroup(Join(lines) + dropped, buffer, chunk);
      buffer := buffer + chunk;
      peak := Max(peak, |buffer|);
    }

    /** The current line is complete, and `part` is what was sent for it. */
    ghost method Complete(line: Bytes, part: seq<Sent>)
      requires (forall i | 0 <= i < |lines| :: Unbroken(lines[i])) && LinesSend(lines, limit, parts)
      requires Unbroken(line) && LineSends(line, limit, part) && sent == Flatten(parts) + part && !discarding && |buffer| <= peak
      modifies this`lines, this`parts, this`dropped, this`errors
      ensures Valid() && dropped == [] && Join(lines) == Join(old(lines)) + line + [NEWLINE]
    {
      OneMoreLine(lines, limit, parts, line, part);
      lines, parts, dropped, errors := lines + [line], parts + [part], [], 0;
      assert sent == Flatten(parts) + Errors(0);
    }

    /** What is sent for the line that ends in `raw`; nothing when its beginning has been reported and dropped. */
    method SendLine(raw: Bytes) returns (ghost part: seq<Sent>)
      requires Valid() && Unbroken(raw)
      modifies this`sent, this`discarding
      ensures !discarding && sent == Flatten(parts) + part && LineSends(dropped + raw, limit, part)
    {
      if discarding {
        discarding, part := false, Errors(errors);
      } else if |raw| > limit {
        sent, part := sent + [Oversized], Errors(1);
        assert Cost(1, limit) == Cost(0, limit) + limit + 1;
      } else {
        sent, part := sent + [Line(raw)], [Line(raw)];
        assert dropped + raw == raw;
      }
    }

    /** Cut the first line off the buffer, and send it, report it or drop it. */
    method TakeLine(newline: nat)
      requires Valid() && newline < |buffer| && buffer[newline] == NEWLINE && Unbroken(buffer[..newline])
      modifies this
      ensures Valid() && Stream() == old(Stream()) && buffer == old(buffer)[newline + 1..] && peak == old(peak)
    {
      Cut(Stream(), Join(lines), dropped, buffer, newline);
      var raw := buffer[..newline];
      buffer := buffer[newline + 1..];
      ghost var part := SendLine(raw);
      Complete(dropped + raw, part);
    }

    /** No newline in sight: too long a rest is reported and thrown away. */
    method KeepOrDrop()
      requires Valid() && Unbroken(buffer)
      modifies this
      ensures Settled() && Stream() == old(Stream()) && |buffer| <= |old(buffer)| && peak == old(peak)
    {
      if |buffer| > limit {
        sent := sent + [Oversized];
        errors, dropped := errors + 1, dropped + buffer;
        buffer := [];
        discarding := true;
        assert Errors(errors) == Errors(errors - 1) + [Oversized];
      }
    }

    /** One read: extend the buffer, and take lines from it as long as there are any. */
    method Feed(chunk: Bytes)
      requires Settled()
      modifies this
      ensures Settled() && Stream() == old(Stream()) + chunk
      ensures peak == Max(old(peak), |old(buffer)| + |chunk|) <= Max(old(peak), limit + |chunk|)
    {
      Extend(chunk);
      var newline := Find(buffer);
      while newline >= 0
        invariant Valid() && Stream() == old(Stream()) + chunk && |buffer| <= |old(buffer)| + |chunk|
        invariant peak == Max(old(peak), |old(buffer)| + |chunk|)
        invariant newline < 0 ==> Unbroken(buffer)
        invariant newline >= 0 ==> newline < |buffer| && buffer[newline] == NEWLINE && Unbroken(buffer[..newline])
        decreases |buffer|
      {
        TakeLine(newline);
        newline := Find(buffer);
      }
      KeepOrDrop();
    }

    /** The end of the input: a rest that is neither empty nor being discarded is a last line. */
    method Close()
      requires Settled()
      modifies this`sent
      ensures Framed(Stream(), limit, sent)
    {
      ghost var tail, messages := dropped + buffer, Errors(errors);
      if buffer != [] && !discarding {
        sent := sent + [Line(buffer)];
        messages := [Line(buffer)];
        assert tail == buffer;
      }
      Ends(lines, limit, parts, tail, messages);
      Regroup(Join(lines), dropped, buffer);
    }
  }

  function Concat(chunks: seq<Bytes>): Bytes
    decreases |chunks|
  {
    if chunks == [] then [] else Concat(chunks[..|chunks| - 1]) + chunks[|chunks| - 1]
  }

  /**
    The reader over all reads up to the end of the input. Whatever the reads are, the messages are those of the
    stream; the lines delivered are its lines within the ceiling. `peak` is the greatest length of the buffer.
   */
  method ReadStdin(chunks: seq<Bytes>) returns (sent: seq<Sent>, ghost peak: nat)
    requires forall i | 0 <= i < |chunks| :: 0 < |chunks[i]| <= READ_CHUNK_BYTES
    ensures Framed(Concat(chunks), MAX_MESSAGE_BYTES, sent)
    ensures var split := Lines(Concat(chunks));
      Delivered(sent) == Short(split.lines, MAX_MESSAGE_BYTES)
        + (if 0 < |split.tail| <= MAX_MESSAGE_BYTES then [split.tail] else [])
    ensures peak <= MAX_MESSAGE_BYTES + READ_CHUNK_BYTES
  {
    var reader := new Reader(MAX_MESSAGE_BYTES);
    for i := 0 to |chunks|
      invariant fresh(reader) && reader.Settled() && reader.limit == MAX_MESSAGE_BYTES
      invariant reader.Stream() == Concat(chunks[..i]) && reader.peak <= MAX_MESSAGE_BYTES + READ_CHUNK_BYTES
    {
      reader.Feed(chunks[i]);
      assert chunks[..i + 1][..i] == chunks[..i];
    }
    assert chunks[..|chunks|] == chunks;
    reader.Close();
    sent, peak := reader.sent, reader.peak;
    DeliveredIsDetermined(Concat(chunks), MAX_MESSAGE_BYTES, sent);
  }
}
