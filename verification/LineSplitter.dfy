/** The console reader: reads of any size are cut into lines, and the lines do not depend on how the reads were cut. */
module LineSplitter {

  const NUL := '\0'

  function IndexOf(s: string, c: char): (i: nat)
    ensures i <= |s|
    ensures i < |s| ==> s[i] == c
    ensures forall j :: 0 <= j < i ==> s[j] != c
  {
    if s == "" || s[0] == c then 0 else 1 + IndexOf(s[1..], c)
  }

  /** What appending a read as a C string keeps of it: everything up to the first NUL. */
  function UpToNul(read: string): string {
    read[..IndexOf(read, NUL)]
  }

  /** The newline-terminated lines of a text, empty ones included. */
  function Lines(s: string): seq<string>
    decreases |s|
  {
    var i := IndexOf(s, '\n');
    if i == |s| then [] else [s[..i]] + Lines(s[i + 1..])
  }

  /** What follows the last newline. */
  function Rest(s: string): string
    decreases |s|
  {
    var i := IndexOf(s, '\n');
    if i == |s| then s else Rest(s[i + 1..])
  }

  /** Both at once: either there is no newline, or the first one ends the first line. */
  lemma {:induction false} FirstLine(s: string)
    ensures var i := IndexOf(s, '\n');
            if i == |s| then Lines(s) == [] && Rest(s) == s
            else Lines(s) == [s[..i]] + Lines(s[i + 1..]) && Rest(s) == Rest(s[i + 1..])
  {
    hide IndexOf;
  }

  function NonEmpty(lines: seq<string>): seq<string> {
    if lines == [] then [] else (if lines[0] == "" then [] else [lines[0]]) + NonEmpty(lines[1..])
  }

  lemma NonEmptyFirst(line: string, more: seq<string>)
    ensures NonEmpty([line] + more) == (if line == "" then [] else [line]) + NonEmpty(more)
  {
    assert ([line] + more)[1..] == more;
  }

  lemma MoveOne<T>(xs: seq<T>, x: T, ys: seq<T>)
    ensures xs + ([x] + ys) == xs + [x] + ys && [] + ys == ys
  {
  }

  /** Taking the first line off the buffer moves it from what is still to come to what has come. */
  lemma {:induction false} TakeLine(lines: seq<string>, buffer: string, i: nat, lines': seq<string>)
    requires i == IndexOf(buffer, '\n') < |buffer|
    requires lines' == if buffer[..i] == "" then lines else lines + [buffer[..i]]
    ensures lines' + NonEmpty(Lines(buffer[i + 1..])) == lines + NonEmpty(Lines(buffer))
    ensures Rest(buffer[i + 1..]) == Rest(buffer)
  {
    hide Lines, Rest, IndexOf, NonEmpty;
    var line, more := buffer[..i], Lines(buffer[i + 1..]);
    FirstLine(buffer);
    NonEmptyFirst(line, more);
    MoveOne(lines, line, NonEmpty(more));
  }

  lemma NoLine(lines: seq<string>, buffer: string)
    requires IndexOf(buffer, '\n') == |buffer|
    ensures lines + NonEmpty(Lines(buffer)) == lines && Rest(buffer) == buffer
  {
    hide IndexOf;
  }

  class ConsoleReader {
    var lineBuffer: string
    var lines: seq<string>

    constructor ()
      ensures lineBuffer == "" && lines == []
    {
      lineBuffer, lines := "", [];
    }

    /** One read: append it, then emit and erase line after line while the buffer holds a newline. */
    method Feed(read: string)
      modifies this
      ensures lines == old(lines) + NonEmpty(Lines(old(lineBuffer) + UpToNul(read)))
      ensures lineBuffer == Rest(old(lineBuffer) + UpToNul(read))
    {
      hide Lines, Rest, IndexOf, UpToNul, NonEmpty;
      lineBuffer := lineBuffer + UpToNul(read);
      ghost var text := lineBuffer;
      var pos := IndexOf(lineBuffer, '\n');
      while pos < |lineBuffer|
        invariant pos == IndexOf(lineBuffer, '\n')
        invariant lines + NonEmpty(Lines(lineBuffer)) == old(lines) + NonEmpty(Lines(text))
        invariant Rest(lineBuffer) == Rest(text)
        decreases |lineBuffer|
      {
        var line := lineBuffer[..pos];
        TakeLine(lines, lineBuffer, pos, if line == "" then lines else lines + [line]);
        lineBuffer := lineBuffer[pos + 1..];
        if line != "" {
          lines := lines + [line];
        }
        pos := IndexOf(lineBuffer, '\n');
      }
      NoLine(lines, lineBuffer);
    }
  }

  // ---- independence of chunking

  lemma {:induction false} IndexOfAppend(a: string, b: string, c: char)
    ensures IndexOf(a + b, c) == if IndexOf(a, c) < |a| then IndexOf(a, c) else |a| + IndexOf(b, c)
  {
    if a == "" {
      assert a + b == b;
    } else {
      assert (a + b)[1..] == a[1..] + b;
      IndexOfAppend(a[1..], b, c);
    }
  }

  /** Splitting what has come so far, and then the rest of it with what comes next, splits it all. */
  lemma {:induction false} SplitInTwo(a: string, b: string)
    ensures Lines(a + b) == Lines(a) + Lines(Rest(a) + b)
    ensures Rest(a + b) == Rest(Rest(a) + b)
    decreases |a|
  {
    hide Lines, Rest, IndexOf;
    var i := IndexOf(a, '\n');
    IndexOfAppend(a, b, '\n');
    FirstLine(a);
    FirstLine(a + b);
    if i < |a| {
      var c := a[i + 1..];
      assert (a + b)[i + 1..] == c + b && (a + b)[..i] == a[..i];
      SplitInTwo(c, b);
      assert [a[..i]] + (Lines(c) + Lines(Rest(c) + b)) == [a[..i]] + Lines(c) + Lines(Rest(c) + b);
    } else {
      assert [] + Lines(a + b) == Lines(a + b);
    }
  }

  lemma {:induction false} NonEmptyAppend(xs: seq<string>, ys: seq<string>)
    ensures NonEmpty(xs + ys) == NonEmpty(xs) + NonEmpty(ys)
  {
    if xs == [] {
      assert xs + ys == ys;
    } else {
      assert (xs + ys)[1..] == xs[1..] + ys;
      NonEmptyAppend(xs[1..], ys);
    }
  }

  function Concat(chunks: seq<string>): string {
    if chunks == [] then "" else Concat(chunks[..|chunks| - 1]) + chunks[|chunks| - 1]
  }

  function Kept(chunks: seq<string>): string {
    if chunks == [] then "" else Kept(chunks[..|chunks| - 1]) + UpToNul(chunks[|chunks| - 1])
  }

  /** The lines emitted and the buffer left after a sequence of reads, read by read. */
  function Emitted(chunks: seq<string>): seq<string> {
    if chunks == [] then []
    else Emitted(chunks[..|chunks| - 1]) + NonEmpty(Lines(Left(chunks[..|chunks| - 1]) + UpToNul(chunks[|chunks| - 1])))
  }

  function Left(chunks: seq<string>): string {
    if chunks == [] then "" else Rest(Left(chunks[..|chunks| - 1]) + UpToNul(chunks[|chunks| - 1]))
  }

  method ReadAll(chunks: seq<string>) returns (reader: ConsoleReader)
    ensures fresh(reader) && reader.lines == Emitted(chunks) && reader.lineBuffer == Left(chunks)
  {
    reader := new ConsoleReader();
    var n := 0;
    while n < |chunks|
      invariant 0 <= n <= |chunks|
      invariant fresh(reader) && reader.lines == Emitted(chunks[..n]) && reader.lineBuffer == Left(chunks[..n])
    {
      assert chunks[..n + 1][..n] == chunks[..n];
      reader.Feed(chunks[n]);
      n := n + 1;
    }
    assert chunks[..n] == chunks;
  }

  lemma {:induction false} ChunkingDoesNotMatter(chunks: seq<string>)
    ensures Emitted(chunks) == NonEmpty(Lines(Kept(chunks)))
    ensures Left(chunks) == Rest(Kept(chunks))
  {
    if chunks == [] {
    } else {
      var front, last := chunks[..|chunks| - 1], UpToNul(chunks[|chunks| - 1]);
      ChunkingDoesNotMatter(front);
      SplitInTwo(Kept(front), last);
      NonEmptyAppend(Lines(Kept(front)), Lines(Left(front) + last));
    }
  }

  // ---- nothing lost

  ghost predicate NulFree(chunks: seq<string>) {
    forall i :: 0 <= i < |chunks| ==> NUL !in chunks[i]
  }

  lemma {:induction false} KeptLength(chunks: seq<string>)
    ensures |Kept(chunks)| <= |Concat(chunks)|
    ensures |Kept(chunks)| == |Concat(chunks)| <==> NulFree(chunks)
    ensures NulFree(chunks) ==> Kept(chunks) == Concat(chunks)
  {
    if chunks == [] {
    } else {
      var front, last := chunks[..|chunks| - 1], chunks[|chunks| - 1];
      KeptLength(front);
      assert NulFree(chunks) <==> NulFree(front) && NUL !in last by {
        if NulFree(front) && NUL !in last {
          forall i | 0 <= i < |chunks| ensures NUL !in chunks[i] {
            if i < |front| { assert chunks[i] == front[i]; }
          }
        }
        if NulFree(chunks) {
          forall i | 0 <= i < |front| ensures NUL !in front[i] { assert chunks[i] == front[i]; }
          assert chunks[|chunks| - 1] == last;
        }
      }
      assert NUL !in last <==> IndexOf(last, NUL) == |last|;
    }
  }

  function Rejoin(lines: seq<string>): string {
    if lines == [] then "" else lines[0] + "\n" + Rejoin(lines[1..])
  }

  /** The lines and the rest hold no newline, and put together again they are the text. */
  lemma {:induction false} LinesRejoin(s: string)
    ensures Rejoin(Lines(s)) + Rest(s) == s
    ensures '\n' !in Rest(s) && forall i :: 0 <= i < |Lines(s)| ==> '\n' !in Lines(s)[i]
    decreases |s|
  {
    hide Lines, Rest, IndexOf, Rejoin;
    var i := IndexOf(s, '\n');
    FirstLine(s);
    if i < |s| {
      var t := s[i + 1..];
      LinesRejoin(t);
      RejoinFirst(s[..i], Lines(t));
      assert s == s[..i] + "\n" + t;
      assert s[..i] + "\n" + Rejoin(Lines(t)) + Rest(t) == s[..i] + "\n" + (Rejoin(Lines(t)) + Rest(t));
    } else {
      RejoinNone();
    }
  }

  lemma RejoinFirst(line: string, more: seq<string>)
    ensures Rejoin([line] + more) == line + "\n" + Rejoin(more)
  {
    assert ([line] + more)[1..] == more;
  }

  lemma RejoinNone()
    ensures Rejoin([]) == ""
  {
  }

  /** And that determines them: a text can be cut into newline-free lines and rest in one way only. */
  lemma {:induction false} LinesUnique(lines: seq<string>, rest: string)
    requires '\n' !in rest && forall i :: 0 <= i < |lines| ==> '\n' !in lines[i]
    ensures Lines(Rejoin(lines) + rest) == lines && Rest(Rejoin(lines) + rest) == rest
  {
    hide Lines, Rest, IndexOf, Rejoin;
    var s := Rejoin(lines) + rest;
    FirstLine(s);
    if lines == [] {
      RejoinNone();
      assert s == rest;
    } else {
      var first, more := lines[0], lines[1..];
      var tail := Rejoin(more) + rest;
      LinesUnique(more, rest);
      assert lines == [first] + more;
      RejoinFirst(first, more);
      assert s == first + ("\n" + tail);
      IndexOfAppend(first, "\n" + tail, '\n');
      assert ("\n" + tail)[0] == '\n';
      assert s[|first| + 1..] == tail && s[..|first|] == first;
    }
  }

  /**
    For every sequence of reads: the lines emitted are the non-empty lines of the whole input in order and what is left
    is its tail, and rejoining all lines with what is left gives the input back, if and only if no read holds a NUL.
   */
  lemma InputIsKeptIff(chunks: seq<string>)
    ensures NulFree(chunks) ==> Emitted(chunks) == NonEmpty(Lines(Concat(chunks))) && Left(chunks) == Rest(Concat(chunks))
    ensures Rejoin(Lines(Kept(chunks))) + Left(chunks) == Concat(chunks) <==> NulFree(chunks)
  {
    hide Kept, Concat, Lines, Rest, Emitted, Left, Rejoin;
    ChunkingDoesNotMatter(chunks);
    KeptLength(chunks);
    LinesRejoin(Kept(chunks));
  }

  /** What is emitted of some lines: those that are not empty, in order. */
  lemma NonEmptyIs(lines: seq<string>, line: string)
    ensures NonEmpty([]) == [] && NonEmpty(lines + [line]) == NonEmpty(lines) + if line == "" then [] else [line]
  {
    NonEmptyAppend(lines, [line]);
    NonEmptyFirst(line, []);
    assert [line] + [] == [line];
  }

  /** What is kept of a read: what comes before its first NUL, or all of it. */
  lemma UpToNulIs(read: string, more: string)
    requires '\0' !in read
    ensures UpToNul(read) == read && UpToNul(read + "\0" + more) == read
  {
    IndexOfAppend(read, "\0" + more, NUL);
    assert read + "\0" + more == read + ("\0" + more);
    assert ("\0" + more)[0] == NUL;
  }
}
