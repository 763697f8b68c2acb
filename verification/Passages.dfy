/** Bounded source passages: the greedy split of cited lines into chunks, and why no other split covers more. */
module Passages {
  import opened Common

  const MAX_SOURCE_LINES: nat := 200
  const MAX_LINE_NUMBER: nat := 1_000_000
  const MAX_PASSAGE_CHARS: nat := 3_500
  const MAX_PASSAGES_PER_EVENT: nat := 8

  // ----- Text of a chunk -----

  /** The lines with a newline between each two. */
  function Join(lines: seq<string>): string
    decreases |lines|
  {
    if lines == [] then ""
    else
      var n := |lines| - 1;
      if n == 0 then lines[0] else Join(lines[..n]) + "\n" + lines[n]
  }

  lemma {:induction false} JoinLength(a: seq<string>, b: seq<string>)
    ensures |Join(a + b)| == |Join(a)| + |Join(b)| + (if a != [] && b != [] then 1 else 0)
    decreases |b|
  {
    if b == [] {
      assert a + b == a;
    } else {
      var n := |b| - 1;
      assert (a + b)[..|a + b| - 1] == a + b[..n];
      JoinLength(a, b[..n]);
      if a == [] && n == 0 { assert a + b == b; }
    }
  }

  /** The length of the text of the lines from `a` up to, but not including, `b`. */
  function Length(lines: seq<string>, a: nat, b: nat): nat {
    if a <= b <= |lines| then |Join(lines[a..b])| else 0
  }

  /** A chunk is at least as long as any run of lines within it. */
  lemma WithinIsShorter(lines: seq<string>, a: nat, c: nat, d: nat, b: nat)
    requires a <= c <= d <= b <= |lines|
    ensures Length(lines, c, d) <= Length(lines, a, b)
  {
    assert lines[a..b] == lines[a..c] + (lines[c..d] + lines[d..b]);
    JoinLength(lines[a..c], lines[c..d] + lines[d..b]);
    JoinLength(lines[c..d], lines[d..b]);
  }

  // ----- Splits -----

  /** Consecutive chunks of a prefix of the lines, given by the index after the last line of each. */
  predicate IsSplit(lines: seq<string>, ends: seq<nat>, limit: nat, most: nat) {
    |ends| <= most && forall j {:trigger ChunkFits(lines, ends, j, limit)} | 0 <= j < |ends| :: ChunkFits(lines, ends, j, limit)
  }

  function StartOf(ends: seq<nat>, j: nat): nat
    requires j <= |ends|
  {
    if j == 0 then 0 else ends[j - 1]
  }

  /** The j-th chunk is not empty and its text is within the limit. */
  predicate ChunkFits(lines: seq<string>, ends: seq<nat>, j: nat, limit: nat)
    requires j < |ends|
  {
    StartOf(ends, j) < ends[j] <= |lines| && Length(lines, StartOf(ends, j), ends[j]) <= limit
  }

  function Covered(ends: seq<nat>): nat {
    StartOf(ends, |ends|)
  }

  /** The j-th chunk could not take the next line. */
  predicate IsFull(lines: seq<string>, ends: seq<nat>, j: nat, limit: nat)
    requires j < |ends|
  {
    ends[j] < |lines| && Length(lines, StartOf(ends, j), ends[j] + 1) > limit
  }

  /** No chunk could take the next line, and chunks are only left over when the lines are used up. */
  predicate Greedy(lines: seq<string>, ends: seq<nat>, limit: nat, most: nat) {
    && IsSplit(lines, ends, limit, most)
    && (forall j {:trigger IsFull(lines, ends, j, limit)} | 0 <= j < |ends| :: ends[j] == |lines| || IsFull(lines, ends, j, limit))
    && (|ends| < most ==> Covered(ends) == |lines|)
  }

  /** After any number of chunks, a greedy split is at least as far as any other. */
  lemma {:induction false} GreedyStaysAhead(lines: seq<string>, greedy: seq<nat>, other: seq<nat>, limit: nat, most: nat, j: nat)
    requires Greedy(lines, greedy, limit, most) && IsSplit(lines, other, limit, most) && j <= |greedy| && j <= |other|
    ensures StartOf(other, j) <= StartOf(greedy, j)
  {
    if j > 0 {
      GreedyStaysAhead(lines, greedy, other, limit, most, j - 1);
      assert ChunkFits(lines, greedy, j - 1, limit) && ChunkFits(lines, other, j - 1, limit);
      assert greedy[j - 1] == |lines| || IsFull(lines, greedy, j - 1, limit);
      if other[j - 1] > greedy[j - 1] {
        WithinIsShorter(lines, StartOf(other, j - 1), StartOf(greedy, j - 1), greedy[j - 1] + 1, other[j - 1]);
      }
    }
  }

  lemma CoveredInRange(lines: seq<string>, ends: seq<nat>, limit: nat, most: nat, j: nat)
    requires IsSplit(lines, ends, limit, most) && j <= |ends|
    ensures StartOf(ends, j) <= |lines|
  {
    if j > 0 { assert ChunkFits(lines, ends, j - 1, limit); }
  }

  /**
    No split into at most `most` chunks within the limit covers more lines, and none that covers as much with
    fewer chunks.
   */
  lemma GreedyIsOptimal(lines: seq<string>, greedy: seq<nat>, other: seq<nat>, limit: nat, most: nat)
    requires Greedy(lines, greedy, limit, most) && IsSplit(lines, other, limit, most)
    ensures Covered(other) <= Covered(greedy)
    ensures Covered(other) == Covered(greedy) ==> |greedy| <= |other|
  {
    CoveredInRange(lines, other, limit, most, |other|);
    if |other| <= |greedy| {
      GreedyStaysAhead(lines, greedy, other, limit, most, |other|);
      if |other| < |greedy| {
        EndsIncrease(lines, greedy, limit, most, |other|, |greedy|);
      }
    }
  }

  lemma {:induction false} EndsIncrease(lines: seq<string>, ends: seq<nat>, limit: nat, most: nat, i: nat, j: nat)
    requires IsSplit(lines, ends, limit, most) && i < j <= |ends|
    ensures StartOf(ends, i) < StartOf(ends, j)
    decreases j
  {
    assert ChunkFits(lines, ends, j - 1, limit);
    if i < j - 1 { EndsIncrease(lines, ends, limit, most, i, j - 1); }
  }

  // ----- The chunk loop -----

  datatype Numbered = Numbered(number: nat, text: string)

  function Texts(lines: seq<Numbered>): (texts: seq<string>)
    ensures |texts| == |lines| && forall i | 0 <= i < |lines| :: texts[i] == lines[i].text
  {
    seq(|lines|, i requires 0 <= i < |lines| => lines[i].text)
  }

  /** A line over the limit is cut, so that it stays addressable. */
  function Cut(raw: string): (line: string)
    ensures |line| <= MAX_PASSAGE_CHARS && (|raw| <= MAX_PASSAGE_CHARS ==> line == raw)
  {
    if |raw| <= MAX_PASSAGE_CHARS then raw else raw[..MAX_PASSAGE_CHARS]
  }

  function CutAll(lines: seq<Numbered>): (cut: seq<Numbered>)
    ensures |cut| == |lines| && forall i | 0 <= i < |lines| :: cut[i] == Numbered(lines[i].number, Cut(lines[i].text))
  {
    seq(|lines|, i requires 0 <= i < |lines| => Numbered(lines[i].number, Cut(lines[i].text)))
  }

  /** The chunks are the consecutive runs of lines that the ends give. */
  predicate ChunksAt(lines: seq<Numbered>, chunks: seq<seq<Numbered>>, ends: seq<nat>) {
    |chunks| == |ends|
    && forall j {:trigger ChunkAt(lines, chunks[j], StartOf(ends, j), ends[j])} | 0 <= j < |ends| ::
         ChunkAt(lines, chunks[j], StartOf(ends, j), ends[j])
  }

  predicate ChunkAt(lines: seq<Numbered>, chunk: seq<Numbered>, start: nat, end: nat) {
    start <= end <= |lines| && chunk == lines[start..end]
  }

  lemma TextsOf(lines: seq<Numbered>, a: nat, b: nat)
    requires a <= b <= |lines|
    ensures Texts(lines[a..b]) == Texts(lines)[a..b]
  {
  }

  /** One more line at the end of the current chunk. */
  lemma OneMore(texts: seq<string>, a: nat, i: nat)
    requires a <= i < |texts|
    ensures Length(texts, a, i + 1) == Length(texts, a, i) + |texts[i]| + (if a < i then 1 else 0)
  {
    assert texts[a..i + 1] == texts[a..i] + [texts[i]];
    JoinLength(texts[a..i], [texts[i]]);
  }

  /** What the loop keeps: closed chunks that could take no more, and the count of the open one. */
  predicate Going(texts: seq<string>, ends: seq<nat>, i: nat, chars: nat) {
    && i <= |texts| && |ends| < MAX_PASSAGES_PER_EVENT
    && IsSplit(texts, ends, MAX_PASSAGE_CHARS, MAX_PASSAGES_PER_EVENT)
    && (forall j {:trigger IsFull(texts, ends, j, MAX_PASSAGE_CHARS)} | 0 <= j < |ends| :: IsFull(texts, ends, j, MAX_PASSAGE_CHARS))
    && Covered(ends) <= i
    && chars == Length(texts, Covered(ends), i) <= MAX_PASSAGE_CHARS
  }

  lemma CloseChunk(texts: seq<string>, ends: seq<nat>, i: nat, chars: nat)
    requires Going(texts, ends, i, chars) && i < |texts| && Covered(ends) < i
    requires chars + |texts[i]| + 1 > MAX_PASSAGE_CHARS
    ensures var more := ends + [i];
      && IsSplit(texts, more, MAX_PASSAGE_CHARS, MAX_PASSAGES_PER_EVENT) && Covered(more) == i
      && forall j | 0 <= j < |more| :: IsFull(texts, more, j, MAX_PASSAGE_CHARS)
  {
    var more := ends + [i];
    OneMore(texts, Covered(ends), i);
    forall j | 0 <= j < |more| ensures ChunkFits(texts, more, j, MAX_PASSAGE_CHARS) {
      assert StartOf(more, j) == StartOf(ends, j);
      if j < |ends| { assert ChunkFits(texts, ends, j, MAX_PASSAGE_CHARS); }
    }
    forall j | 0 <= j < |more| ensures IsFull(texts, more, j, MAX_PASSAGE_CHARS) {
      assert StartOf(more, j) == StartOf(ends, j);
      if j < |ends| { assert IsFull(texts, ends, j, MAX_PASSAGE_CHARS); }
    }
  }

  /** The last chunk takes all remaining lines. */
  lemma LastChunk(texts: seq<string>, ends: seq<nat>, chars: nat)
    requires Going(texts, ends, |texts|, chars) && Covered(ends) < |texts|
    ensures Greedy(texts, ends + [|texts|], MAX_PASSAGE_CHARS, MAX_PASSAGES_PER_EVENT)
  {
    var more := ends + [|texts|];
    forall j | 0 <= j < |more| ensures ChunkFits(texts, more, j, MAX_PASSAGE_CHARS) {
      assert StartOf(more, j) == StartOf(ends, j);
      if j < |ends| { assert ChunkFits(texts, ends, j, MAX_PASSAGE_CHARS); }
    }
    forall j | 0 <= j < |more| ensures more[j] == |texts| || IsFull(texts, more, j, MAX_PASSAGE_CHARS) {
      assert StartOf(more, j) == StartOf(ends, j);
      if j < |ends| { assert IsFull(texts, ends, j, MAX_PASSAGE_CHARS); }
    }
  }

  /** A line that fits joins the open chunk. */
  lemma Extend(texts: seq<string>, ends: seq<nat>, i: nat, chars: nat)
    requires Going(texts, ends, i, chars) && i < |texts|
    requires chars + |texts[i]| + (if Covered(ends) < i then 1 else 0) <= MAX_PASSAGE_CHARS
    ensures Going(texts, ends, i + 1, chars + |texts[i]| + (if Covered(ends) < i then 1 else 0))
  {
    OneMore(texts, Covered(ends), i);
  }

  lemma NewChunk(lines: seq<Numbered>, chunks: seq<seq<Numbered>>, ends: seq<nat>, current: seq<Numbered>, i: nat)
    requires ChunksAt(lines, chunks, ends) && ChunkAt(lines, current, Covered(ends), i)
    ensures ChunksAt(lines, chunks + [current], ends + [i])
  {
    var more, all := ends + [i], chunks + [current];
    forall j | 0 <= j < |more| ensures ChunkAt(lines, all[j], StartOf(more, j), more[j]) {
      assert StartOf(more, j) == StartOf(ends, j);
      if j < |ends| { assert ChunkAt(lines, chunks[j], StartOf(ends, j), ends[j]); }
    }
  }

  predicate Running(
    texts: seq<string>, lines: seq<Numbered>, chunks: seq<seq<Numbered>>, ends: seq<nat>, current: seq<Numbered>, i: nat,
    chars: nat)
  {
    Going(texts, ends, i, chars) && ChunksAt(lines, chunks, ends) && i <= |lines| && current == lines[Covered(ends)..i]
  }

  /** The variables of the loop before line `i`, about the texts of the lines. */
  ghost predicate LoopState(
    lines: seq<Numbered>, chunks: seq<seq<Numbered>>, ends: seq<nat>, current: seq<Numbered>, i: nat, chars: nat)
  {
    forall texts {:trigger Running(texts, lines, chunks, ends, current, i, chars)} ::
      texts == Texts(lines) ==> Running(texts, lines, chunks, ends, current, i, chars)
  }

  lemma StateBegins(lines: seq<Numbered>)
    ensures LoopState(lines, [], [], [], 0, 0)
  {
  }

  lemma StateExtends(
    lines: seq<Numbered>, chunks: seq<seq<Numbered>>, ends: seq<nat>, current: seq<Numbered>, i: nat, chars: nat)
    requires LoopState(lines, chunks, ends, current, i, chars) && i < |lines|
    requires chars + |lines[i].text| + (if current != [] then 1 else 0) <= MAX_PASSAGE_CHARS
    ensures LoopState(lines, chunks, ends, current + [lines[i]], i + 1,
      chars + |lines[i].text| + (if current != [] then 1 else 0))
  {
    assert Running(Texts(lines), lines, chunks, ends, current, i, chars);
    Extend(Texts(lines), ends, i, chars);
    assert lines[Covered(ends)..i + 1] == lines[Covered(ends)..i] + [lines[i]];
  }

  /** Closing the open chunk: either the loop goes on with an empty one, or the split is complete. */
  lemma StateCloses(
    lines: seq<Numbered>, chunks: seq<seq<Numbered>>, ends: seq<nat>, current: seq<Numbered>, i: nat, chars: nat)
    requires LoopState(lines, chunks, ends, current, i, chars) && i < |lines| && current != []
    requires chars + |lines[i].text| + 1 > MAX_PASSAGE_CHARS
    ensures |chunks| + 1 < MAX_PASSAGES_PER_EVENT ==> LoopState(lines, chunks + [current], ends + [i], [], i, 0)
    ensures |chunks| + 1 >= MAX_PASSAGES_PER_EVENT ==> Complete(lines, chunks + [current], ends + [i])
  {
    assert Running(Texts(lines), lines, chunks, ends, current, i, chars);
    CloseChunk(Texts(lines), ends, i, chars);
    NewChunk(lines, chunks, ends, current, i);
  }

  predicate Complete(lines: seq<Numbered>, chunks: seq<seq<Numbered>>, ends: seq<nat>) {
    ChunksAt(lines, chunks, ends) && Greedy(Texts(lines), ends, MAX_PASSAGE_CHARS, MAX_PASSAGES_PER_EVENT)
  }

  lemma StateEnds(lines: seq<Numbered>, chunks: seq<seq<Numbered>>, ends: seq<nat>, current: seq<Numbered>, chars: nat)
    requires LoopState(lines, chunks, ends, current, |lines|, chars)
    ensures current != [] ==> Complete(lines, chunks + [current], ends + [|lines|])
    ensures current == [] ==> Complete(lines, chunks, ends)
    ensures |chunks| < MAX_PASSAGES_PER_EVENT
  {
    assert Running(Texts(lines), lines, chunks, ends, current, |lines|, chars);
    if current != [] {
      LastChunk(Texts(lines), ends, chars);
      NewChunk(lines, chunks, ends, current, |lines|);
    }
  }

  /** The chunks are a greedy split of the lines. */
  ghost predicate GreedyChunks(lines: seq<Numbered>, chunks: seq<seq<Numbered>>) {
    exists ends: seq<nat> :: Complete(lines, chunks, ends)
  }

  /** The chunks of numbered lines, a greedy split of the cut lines. */
  method Chunk(numbered: seq<Numbered>) returns (chunks: seq<seq<Numbered>>)
    ensures GreedyChunks(CutAll(numbered), chunks)
  {
    ghost var lines := CutAll(numbered);
    ghost var ends: seq<nat> := [];
    chunks := [];
    var current: seq<Numbered> := [];
    var currentChars: nat := 0;
    ghost var over := false;
    var i := 0;
    StateBegins(lines);
    while i < |numbered|
      invariant i <= |numbered| && !over && (current == [] ==> currentChars == 0)
      invariant LoopState(lines, chunks, ends, current, i, currentChars)
    {
      var line := Cut(numbered[i].text);
      var added := |line| + (if current != [] then 1 else 0);
      if current != [] && currentChars + added > MAX_PASSAGE_CHARS {
        StateCloses(lines, chunks, ends, current, i, currentChars);
        chunks, ends := chunks + [current], ends + [i];
        current, currentChars := [], 0;
        if |chunks| >= MAX_PASSAGES_PER_EVENT {
          over := true;
          break;
        }
      }
      assert lines[i] == Numbered(numbered[i].number, line);
      StateExtends(lines, chunks, ends, current, i, currentChars);
      current := current + [Numbered(numbered[i].number, line)];
      currentChars := currentChars + |line| + (if |current| > 1 then 1 else 0);
      i := i + 1;
    }
    if !over { StateEnds(lines, chunks, ends, current, currentChars); }
    if current != [] && |chunks| < MAX_PASSAGES_PER_EVENT {
      chunks, ends := chunks + [current], ends + [|numbered|];
    }
    assert Complete(lines, chunks, ends);
  }

  /** The chunks of a greedy split are not empty and their texts are within the limit. */
  lemma ChunksFit(lines: seq<Numbered>, chunks: seq<seq<Numbered>>, ends: seq<nat>, j: nat)
    requires ChunksAt(lines, chunks, ends) && j < |chunks|
    requires IsSplit(Texts(lines), ends, MAX_PASSAGE_CHARS, MAX_PASSAGES_PER_EVENT)
    ensures chunks[j] != [] && |Join(Texts(chunks[j]))| <= MAX_PASSAGE_CHARS
  {
    assert ChunkFits(Texts(lines), ends, j, MAX_PASSAGE_CHARS) && ChunkAt(lines, chunks[j], StartOf(ends, j), ends[j]);
    TextsOf(lines, StartOf(ends, j), ends[j]);
  }

  // ----- The cited range -----

  /** A field of an index row. */
  datatype Field = Number(value: int) | Flag(bool) | Missing

  function LineRange(lineStart: Field, lineEnd: Field): (range: Option<(nat, nat)>)
    ensures range.Some? <==>
      lineStart.Number? && lineEnd.Number? && 1 <= lineStart.value <= lineEnd.value && lineStart.value <= MAX_LINE_NUMBER
    ensures range.Some? ==>
      && range.value.0 == lineStart.value
      && 1 <= range.value.0 <= range.value.1 <= lineEnd.value && range.value.1 - range.value.0 < MAX_SOURCE_LINES
      && (range.value.1 < lineEnd.value ==> range.value.1 - range.value.0 == MAX_SOURCE_LINES - 1)
  {
    if !lineStart.Number? || !lineEnd.Number? || lineStart.value < 1 || lineEnd.value < lineStart.value
       || lineStart.value > MAX_LINE_NUMBER
    then None
    else
      var last := lineStart.value + MAX_SOURCE_LINES - 1;
      Some((lineStart.value, if lineEnd.value <= last then lineEnd.value else last))
  }

  /** The lines of a file from `start` to `end`, numbered from one; fewer when the file is shorter. */
  method ReadNumberedLines(file: seq<string>, start: nat, end: nat) returns (selected: seq<Numbered>)
    requires 1 <= start <= end
    ensures forall k | 0 <= k < |selected| :: selected[k].number == start + k <= |file| && selected[k].text == file[start + k - 1]
    ensures |selected| == if |file| < start then 0 else if |file| < end then |file| - start + 1 else end - start + 1
  {
    selected := [];
    var number := 1;
    while number <= |file|
      invariant 1 <= number <= |file| + 1
      invariant |selected| == if number <= start then 0 else number - start
      invariant number <= end + 1
      invariant forall k | 0 <= k < |selected| ::
        selected[k].number == start + k <= |file| && selected[k].text == file[start + k - 1]
    {
      if number > end {
        break;
      }
      if number >= start {
        selected := selected + [Numbered(number, file[number - 1])];
      }
      number := number + 1;
    }
  }

  predicate FromRange(line: Numbered, lineStart: Field, lineEnd: Field, file: seq<string>) {
    && lineStart.Number? && lineEnd.Number? && 1 <= lineStart.value <= line.number <= lineEnd.value
    && line.number <= |file| && line.text == Cut(file[line.number - 1])
  }

  /** The line after the last line of the first chunk. */
  predicate Follows(chunk: seq<Numbered>, next: seq<Numbered>) {
    chunk != [] && next != [] && next[0].number == chunk[|chunk| - 1].number + 1
  }

  lemma ChunksFollow(lines: seq<Numbered>, chunks: seq<seq<Numbered>>, ends: seq<nat>, start: nat, j: nat)
    requires ChunksAt(lines, chunks, ends) && j < |chunks|
    requires forall k | 0 <= k < |chunks| :: chunks[k] != []
    requires forall k | 0 <= k < |lines| :: lines[k].number == start + k
    ensures if j == 0 then chunks[j][0].number == start else Follows(chunks[j - 1], chunks[j])
  {
    assert ChunkAt(lines, chunks[j], StartOf(ends, j), ends[j]);
    if j > 0 { assert ChunkAt(lines, chunks[j - 1], StartOf(ends, j - 1), ends[j - 1]); }
  }

  predicate AllFromRange(lines: seq<Numbered>, lineStart: Field, lineEnd: Field, file: seq<string>) {
    forall k | 0 <= k < |lines| :: FromRange(lines[k], lineStart, lineEnd, file)
  }

  lemma ChunkFromRange(
    lines: seq<Numbered>, chunk: seq<Numbered>, start: nat, end: nat, lineStart: Field, lineEnd: Field, file: seq<string>)
    requires ChunkAt(lines, chunk, start, end) && AllFromRange(lines, lineStart, lineEnd, file)
    ensures AllFromRange(chunk, lineStart, lineEnd, file)
  {
  }

  /** What the passages of a citation are made of. */
  predicate PassageOk(chunk: seq<Numbered>, lineStart: Field, lineEnd: Field, file: seq<string>) {
    chunk != [] && |Join(Texts(chunk))| <= MAX_PASSAGE_CHARS && AllFromRange(chunk, lineStart, lineEnd, file)
  }

  /** The first chunk begins at the cited line, and each later one after the chunk before it. */
  predicate InOrder(chunks: seq<seq<Numbered>>, j: nat, lineStart: Field)
    requires j < |chunks|
  {
    if j == 0 then chunks[0] != [] && lineStart.Number? && chunks[0][0].number == lineStart.value
    else Follows(chunks[j - 1], chunks[j])
  }

  lemma PassagesOk(
    lines: seq<Numbered>, chunks: seq<seq<Numbered>>, ends: seq<nat>, lineStart: Field, lineEnd: Field, file: seq<string>)
    requires ChunksAt(lines, chunks, ends) && IsSplit(Texts(lines), ends, MAX_PASSAGE_CHARS, MAX_PASSAGES_PER_EVENT)
    requires AllFromRange(lines, lineStart, lineEnd, file)
    requires forall k | 0 <= k < |lines| :: lines[k].number == lineStart.value + k
    ensures forall j | 0 <= j < |chunks| :: PassageOk(chunks[j], lineStart, lineEnd, file) && InOrder(chunks, j, lineStart)
  {
    forall j | 0 <= j < |chunks| ensures PassageOk(chunks[j], lineStart, lineEnd, file) {
      ChunksFit(lines, chunks, ends, j);
      ChunkFromRange(lines, chunks[j], StartOf(ends, j), ends[j], lineStart, lineEnd, file);
    }
    forall j | 0 <= j < |chunks| ensures InOrder(chunks, j, lineStart) {
      assert PassageOk(chunks[j], lineStart, lineEnd, file) && FromRange(chunks[j][0], lineStart, lineEnd, file);
      ChunksFollow(lines, chunks, ends, lineStart.value, j);
    }
  }

  /** The lines of the file that a citation is about, from its first line on, as many as there are. */
  function CitedLines(lineStart: Field, lineEnd: Field, file: seq<string>): (lines: seq<Numbered>)
    ensures forall k | 0 <= k < |lines| ::
      lineStart.Number? && 1 <= lines[k].number == lineStart.value + k <= |file| && lines[k].text == file[lines[k].number - 1]
  {
    var range := LineRange(lineStart, lineEnd);
    if range.None? || |file| < range.value.0 then []
    else
      var last := if |file| < range.value.1 then |file| else range.value.1;
      seq(last - range.value.0 + 1,
          k requires 0 <= k < last - range.value.0 + 1 => Numbered(range.value.0 + k, file[range.value.0 + k - 1]))
  }

  /** Nothing of a citation is left out but what a greedy split has no room for. */
  lemma NothingCited(lines: seq<Numbered>)
    requires lines == []
    ensures GreedyChunks(CutAll(lines), [])
  {
    assert Complete(CutAll(lines), [], []);
  }

  /**
    The passages of one citation: a greedy split of the cited lines. They are chunks of consecutive lines from the start of the cited range on, none outside
    it, each within the limit, at most eight.
   */
  method SourcePassages(lineStart: Field, lineEnd: Field, file: seq<string>) returns (chunks: seq<seq<Numbered>>)
    ensures GreedyChunks(CutAll(CitedLines(lineStart, lineEnd, file)), chunks)
    ensures |chunks| <= MAX_PASSAGES_PER_EVENT
    ensures forall j | 0 <= j < |chunks| :: PassageOk(chunks[j], lineStart, lineEnd, file) && InOrder(chunks, j, lineStart)
  {
    chunks := [];
    var range := LineRange(lineStart, lineEnd);
    if range.None? {
      NothingCited(CitedLines(lineStart, lineEnd, file));
      return;
    }
    var numbered := ReadNumberedLines(file, range.value.0, range.value.1);
    assert numbered == CitedLines(lineStart, lineEnd, file);
    if numbered == [] {
      NothingCited(numbered);
      return;
    }
    chunks := Chunk(numbered);
    ghost var ends: seq<nat> :| Complete(CutAll(numbered), chunks, ends);
    PassagesOk(CutAll(numbered), chunks, ends, lineStart, lineEnd, file);
  }
}
