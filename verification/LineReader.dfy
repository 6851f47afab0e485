/**
 The newline framing shared by the daemon's socket and its event file: a reader that
 pulls bounded chunks out of a buffer and assembles lines of bounded length.
 The specification never mentions chunks, so proving the reader against it shows that
 the result does not depend on how the buffer happens to cut the input.
 */
module LineReader {
  import opened Basics

  const LF: Byte := 10
  const CR: Byte := 13

  /** What one line of input means to a caller of ReadLine. */
  datatype Line = Text(bytes: seq<Byte>) | TooLarge

  /** What one call of ReadLine returns. */
  datatype ReadResult = Got(line: Line) | EndOfFile | ReadError

  /** How the underlying stream ends. */
  datatype Ending = AtEof | AtError

  // ---------- Specification: splitting at newlines ----------

  function LineLength(s: seq<Byte>): (n: nat)
    ensures n <= |s|
  {
    if s == [] || s[0] == LF then 0 else 1 + LineLength(s[1..])
  }

  function TrimSuffix(s: seq<Byte>, b: Byte): seq<Byte> {
    if s != [] && s[|s| - 1] == b then s[..|s| - 1] else s
  }

  function StripCR(s: seq<Byte>): seq<Byte> {
    TrimSuffix(s, CR)
  }

  function Classify(segment: seq<Byte>, max: nat): Line {
    if |segment| > max then TooLarge else Text(StripCR(segment))
  }

  /** The lines of a whole stream; an unterminated tail counts only when the stream ends cleanly. */
  function Lines(s: seq<Byte>, max: nat, ending: Ending): seq<Line> {
    var n := LineLength(s);
    if n < |s| then [Classify(s[..n], max)] + Lines(s[n + 1..], max, ending)
    else if s == [] || ending == AtError then []
    else [Classify(s, max)]
  }

  lemma {:induction false} LineLengthMeaning(s: seq<Byte>)
    ensures var n := LineLength(s); LF !in s[..n] && (n < |s| ==> s[n] == LF)
  {
    if s != [] && s[0] != LF {
      LineLengthMeaning(s[1..]);
      var n := LineLength(s[1..]);
      assert s[..n + 1] == [s[0]] + s[1..][..n];
    }
  }

  lemma {:induction false} LineLengthIs(s: seq<Byte>, n: nat)
    requires n <= |s| && LF !in s[..n] && (n < |s| ==> s[n] == LF)
    ensures LineLength(s) == n
  {
    if n > 0 {
      assert s[0] == s[..n][0];
      assert s[1..][..n - 1] == s[..n][1..];
      LineLengthIs(s[1..], n - 1);
    }
  }

  /** Splitting the concatenation of newline-terminated records gives the records back. */
  lemma {:induction false} LinesOfRecord(record: seq<Byte>, rest: seq<Byte>, max: nat, ending: Ending)
    requires LF !in record
    ensures Lines(record + [LF] + rest, max, ending) == [Classify(record, max)] + Lines(rest, max, ending)
  {
    var s := record + [LF] + rest;
    assert s[..|record|] == record && s[|record| + 1..] == rest;
    LineLengthIs(s, |record|);
  }

  /**
   What a terminated line is, byte by byte: an over-long record is one error; one trailing CR, and only
   one, is dropped; everything else comes through unchanged.
   */
  lemma LineOfRecord(record: seq<Byte>, rest: seq<Byte>, max: nat, ending: Ending)
    requires LF !in record
    ensures Lines(record + [LF] + rest, max, ending) != []
    ensures var line := Lines(record + [LF] + rest, max, ending)[0];
            && (line.TooLarge? <==> |record| > max)
            && (line.Text? && (record == [] || record[|record| - 1] != CR) ==> line.bytes == record)
            && (line.Text? && record != [] && record[|record| - 1] == CR ==> line.bytes + [CR] == record)
  {
    LinesOfRecord(record, rest, max, ending);
  }

  // ---------- The split is exact: an independent reading of Lines ----------

  /** The pieces of a stream between newlines, the last one being whatever follows the last newline. */
  function Segments(s: seq<Byte>): (segments: seq<seq<Byte>>)
    ensures segments != []
  {
    var n := LineLength(s);
    if n < |s| then [s[..n]] + Segments(s[n + 1..]) else [s]
  }

  function Join(segments: seq<seq<Byte>>): seq<Byte>
    requires segments != []
  {
    if |segments| == 1 then segments[0] else segments[0] + [LF] + Join(segments[1..])
  }

  function ClassifyAll(segments: seq<seq<Byte>>, max: nat): seq<Line> {
    seq(|segments|, i requires 0 <= i < |segments| => Classify(segments[i], max))
  }

  /** No byte is lost or moved, and no piece hides a newline. */
  lemma {:induction false} SegmentsSplitTheStream(s: seq<Byte>)
    ensures Join(Segments(s)) == s
    ensures forall i :: 0 <= i < |Segments(s)| ==> LF !in Segments(s)[i]
  {
    var n := LineLength(s);
    LineLengthMeaning(s);
    if n < |s| {
      SegmentsSplitTheStream(s[n + 1..]);
      assert Segments(s)[1..] == Segments(s[n + 1..]);
      assert s == s[..n] + [LF] + s[n + 1..];
    } else {
      assert s[..n] == s;
    }
  }

  /** The segments that count as lines: the tail only if it is not empty and the stream ended cleanly. */
  function Counted(segments: seq<seq<Byte>>, ending: Ending): seq<seq<Byte>>
    requires segments != []
  {
    if segments[|segments| - 1] == [] || ending == AtError then segments[..|segments| - 1] else segments
  }

  lemma CountedLater(first: seq<Byte>, rest: seq<seq<Byte>>, max: nat, ending: Ending)
    requires rest != []
    ensures ClassifyAll(Counted([first] + rest, ending), max) == [Classify(first, max)] + ClassifyAll(Counted(rest, ending), max)
  {
    assert Counted([first] + rest, ending) == [first] + Counted(rest, ending);
  }

  /** Lines is one result per segment, the tail counting only if it is not empty and the stream ended cleanly. */
  lemma {:induction false} LinesClassifySegments(s: seq<Byte>, max: nat, ending: Ending)
    ensures Lines(s, max, ending) == ClassifyAll(Counted(Segments(s), ending), max)
  {
    var n := LineLength(s);
    if n < |s| {
      LinesClassifySegments(s[n + 1..], max, ending);
      CountedLater(s[..n], Segments(s[n + 1..]), max, ending);
    }
  }

  /** The contract of one read from offset `from` to offset `to` of a stream. */
  ghost predicate ReadsOneLine(data: seq<Byte>, from: nat, to: nat, max: nat, ending: Ending, r: ReadResult)
    requires from <= to <= |data|
  {
    var before := Lines(data[from..], max, ending);
    if before == [] then r == (if ending == AtEof then EndOfFile else ReadError) && to == |data|
    else from < to && r == Got(before[0]) && Lines(data[to..], max, ending) == before[1..]
  }

  lemma SliceJoin(data: seq<Byte>, from: nat, mid: nat, to: nat)
    requires from <= mid <= to <= |data|
    ensures data[from..to] == data[from..mid] + data[mid..to]
  {
  }

  /** Cutting the final newline off a slice that holds no other. */
  lemma TrimSlice(data: seq<Byte>, from: nat, to: nat, terminated: bool)
    requires from <= to <= |data|
    requires terminated ==> from < to && data[to - 1] == LF
    requires !terminated ==> LF !in data[from..to]
    ensures TrimSuffix(data[from..to], LF) == data[from..if terminated then to - 1 else to]
  {
  }

  lemma EndsAtNewline(data: seq<Byte>, from: nat, to: nat, max: nat, ending: Ending)
    requires from < to <= |data| && LF !in data[from..to - 1] && data[to - 1] == LF
    ensures ReadsOneLine(data, from, to, max, ending, Got(Classify(data[from..to - 1], max)))
  {
    assert data[from..] == data[from..to - 1] + [LF] + data[to..];
    LinesOfRecord(data[from..to - 1], data[to..], max, ending);
  }

  lemma EndsWithStream(data: seq<Byte>, from: nat, max: nat, ending: Ending)
    requires from <= |data| && LF !in data[from..|data|]
    ensures ReadsOneLine(data, from, |data|, max, ending,
              if ending == AtError then ReadError
              else if from == |data| then EndOfFile
              else Got(Classify(data[from..|data|], max)))
  {
    var rest := data[from..];
    assert data[from..|data|] == rest;
    assert rest[..|rest|] == rest;
    LineLengthIs(rest, |rest|);
    assert data[|data|..] == [];
  }

  // ---------- The reader ----------

  datatype SliceEnd = AtDelimiter | BufferFull | AtEnd

  /** A buffered reader over a fixed stream, with a buffer of `size` bytes. */
  class Reader {
    const data: seq<Byte>
    const size: nat
    const ending: Ending
    var pos: nat

    ghost predicate Valid()
      reads this
    {
      size > 0 && pos <= |data|
    }

    constructor (data: seq<Byte>, size: nat, ending: Ending)
      requires size > 0
      ensures Valid() && pos == 0
      ensures this.data == data && this.size == size && this.ending == ending
    {
      this.data, this.size, this.ending, this.pos := data, size, ending, 0;
    }

    /** The bytes up to and including a newline, or a full buffer, or what is left at the end. */
    method ReadSlice() returns (chunk: seq<Byte>, end: SliceEnd)
      requires Valid()
      modifies this
      ensures Valid() && pos == old(pos) + |chunk| && chunk == data[old(pos)..pos]
      ensures end == AtDelimiter ==> chunk != [] && data[pos - 1] == LF && LF !in data[old(pos)..pos - 1]
      ensures end == BufferFull ==> chunk != [] && LF !in chunk
      ensures end == AtEnd ==> LF !in chunk && pos == |data|
    {
      var n := 0;
      while n < size && pos + n < |data| && data[pos + n] != LF
        invariant n <= size && pos + n <= |data|
        invariant LF !in data[pos..pos + n]
      {
        assert data[pos..pos + n + 1] == data[pos..pos + n] + [data[pos + n]];
        n := n + 1;
      }
      // With the buffer full exactly at the end of the stream, either outcome can be seen first.
      var endSeen: bool := *;
      if n < size && pos + n < |data| {
        chunk, end := data[pos..pos + n + 1], AtDelimiter;
      } else if n == size && !(pos + n == |data| && endSeen) {
        chunk, end := data[pos..pos + n], BufferFull;
      } else {
        chunk, end := data[pos..pos + n], AtEnd;
      }
      pos := pos + |chunk|;
    }

    /** The reading loop: joins chunks until a newline or the end, keeping nothing of an over-long line. */
    method ReadChunks(max: nat) returns (line: seq<Byte>, tooLong: bool, end: SliceEnd)
      requires Valid()
      modifies this
      ensures Valid() && old(pos) <= pos && end != BufferFull
      ensures end == AtDelimiter ==> old(pos) < pos && data[pos - 1] == LF
      ensures end == AtEnd ==> pos == |data|
      ensures var stop := if end == AtDelimiter then pos - 1 else pos;
              && LF !in data[old(pos)..stop]
              && tooLong == (stop - old(pos) > max)
              && (tooLong ==> line == [])
              && (!tooLong ==> TrimSuffix(line, LF) == data[old(pos)..stop] && |line| == pos - old(pos))
    {
      line, tooLong := [], false;
      ghost var from := pos;
      while true
        invariant Valid() && from <= pos
        invariant LF !in data[from..pos]
        invariant tooLong == (pos - from > max)
        invariant line == if tooLong then [] else data[from..pos]
        decreases |data| - pos
      {
        ghost var mid := pos;
        var chunk;
        chunk, end := ReadSlice();
        SliceJoin(data, from, mid, pos);
        if !tooLong {
          var content := |line| + |chunk|;
          if end == AtDelimiter {
            content := content - 1;
          }
          if content > max {
            tooLong, line := true, [];
          } else {
            line := line + chunk;
          }
        }
        if end != BufferFull {
          if end == AtDelimiter {
            SliceJoin(data, from, mid, pos - 1);
          }
          TrimSlice(data, from, pos, end == AtDelimiter);
          return;
        }
      }
    }

    /** One line, whatever the chunking; the reader stays aligned on the next line even when the line is too long. */
    method ReadLine(max: nat) returns (r: ReadResult)
      requires Valid()
      modifies this
      ensures Valid() && old(pos) <= pos
      ensures ReadsOneLine(data, old(pos), pos, max, ending, r)
    {
      var line, tooLong, end := ReadChunks(max);
      if end == AtDelimiter {
        EndsAtNewline(data, old(pos), pos, max, ending);
      } else {
        EndsWithStream(data, old(pos), max, ending);
        if ending == AtError || (line == [] && !tooLong) {
          return if ending == AtEof then EndOfFile else ReadError;
        }
      }
      r := Got(if tooLong then TooLarge else Text(StripCR(TrimSuffix(line, LF))));
    }

    /** What is still to be read. */
    ghost function Remaining(max: nat): seq<Line>
      reads this
      requires Valid()
    {
      Lines(data[pos..], max, ending)
    }

    ghost function End(): ReadResult {
      if ending == AtEof then EndOfFile else ReadError
    }

    /** ReadLine, said in terms of what remains. */
    method Next(max: nat) returns (r: ReadResult)
      requires Valid()
      modifies this
      ensures Valid() && old(pos) <= pos
      ensures old(Remaining(max)) == [] ==> r == End()
      ensures old(Remaining(max)) != [] ==>
                r == Got(old(Remaining(max))[0]) && Remaining(max) == old(Remaining(max))[1..] && old(pos) < pos
    {
      r := ReadLine(max);
    }

    /** Reading until the stream ends yields exactly the lines of the remaining stream. */
    method ReadAll(max: nat) returns (lines: seq<Line>, last: ReadResult)
      requires Valid()
      modifies this
      ensures Valid()
      ensures lines == old(Remaining(max)) && last == End()
    {
      lines := [];
      ghost var all := Remaining(max);
      while true
        invariant Valid() && all == lines + Remaining(max)
        decreases |data| - pos
      {
        ghost var rest := Remaining(max);
        last := Next(max);
        if !last.Got? {
          return;
        }
        lines := lines + [last.line];
        assert rest == [rest[0]] + rest[1..];
      }
    }
  }
}
