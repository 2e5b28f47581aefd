/** Newline-delimited streams read in arbitrary chunks: the log and event followers of seedling-ctl
    and the status messages of a port forward. */
module LineSplitter {
  import opened Common

  type Byte = bv8
  type Bytes = seq<Byte>

  const NEWLINE: Byte := 10

  // ---------------------------------------------------------------------
  // Lines of a byte string
  // ---------------------------------------------------------------------

  /** Where the first newline from `i` on is, or the length if there is none. */
  function NewlineFrom(s: Bytes, i: nat): (n: nat)
    requires i <= |s|
    ensures i <= n <= |s| && (forall k :: i <= k < n ==> s[k] != NEWLINE) && (n < |s| ==> s[n] == NEWLINE)
    decreases |s| - i
  {
    if i == |s| || s[i] == NEWLINE then i else NewlineFrom(s, i + 1)
  }

  function FirstNewline(s: Bytes): (n: nat)
    ensures n <= |s| && (forall k :: 0 <= k < n ==> s[k] != NEWLINE) && (n < |s| ==> s[n] == NEWLINE)
  {
    NewlineFrom(s, 0)
  }

  /** The newline-terminated lines, without their terminators. */
  function Complete(s: Bytes): seq<Bytes>
    decreases |s|
  {
    var n := FirstNewline(s);
    if n == |s| then [] else [s[..n]] + Complete(s[n + 1..])
  }

  /** What follows the last newline. */
  function Partial(s: Bytes): Bytes
    decreases |s|
  {
    var n := FirstNewline(s);
    if n == |s| then s else Partial(s[n + 1..])
  }

  function Joined(lines: seq<Bytes>): Bytes {
    if lines == [] then [] else lines[0] + [NEWLINE] + Joined(lines[1..])
  }

  predicate OneLine(s: Bytes) {
    NEWLINE !in s
  }

  lemma FirstNewlineIs(s: Bytes, n: nat)
    requires n <= |s| && NEWLINE !in s[..n] && (n < |s| ==> s[n] == NEWLINE)
    ensures FirstNewline(s) == n
  {
    forall k | 0 <= k < n ensures s[k] != NEWLINE {
      assert s[k] in s[..n];
    }
  }

  /** A line in front of a byte string is its first line. */
  lemma LineInFront(line: Bytes, tail: Bytes)
    requires OneLine(line)
    ensures var s := line + [NEWLINE] + tail;
            FirstNewline(s) == |line| && Complete(s) == [line] + Complete(tail) && Partial(s) == Partial(tail)
  {
    var s := line + [NEWLINE] + tail;
    assert s[..|line|] == line && s[|line| + 1..] == tail;
    FirstNewlineIs(s, |line|);
  }

  lemma NoLine(s: Bytes)
    requires OneLine(s)
    ensures FirstNewline(s) == |s| && Complete(s) == [] && Partial(s) == s
  {
    assert s[..|s|] == s;
    FirstNewlineIs(s, |s|);
  }

  /** A byte string with a newline is its first line in front of the rest. */
  lemma FirstLine(s: Bytes)
    requires FirstNewline(s) < |s|
    ensures var n := FirstNewline(s);
            OneLine(s[..n]) && s == s[..n] + [NEWLINE] + s[n + 1..]
  {
  }

  lemma JoinedCons(line: Bytes, lines: seq<Bytes>)
    ensures Joined([line] + lines) == line + [NEWLINE] + Joined(lines)
  {
    assert ([line] + lines)[1..] == lines;
  }

  lemma {:induction false} LinesAreLines(s: Bytes)
    ensures (forall l :: l in Complete(s) ==> OneLine(l)) && OneLine(Partial(s))
    decreases |s|
  {
    var n := FirstNewline(s);
    if n < |s| { LinesAreLines(s[n + 1..]); }
  }

  lemma JoinedInFront(line: Bytes, lines: seq<Bytes>, rest: Bytes)
    ensures Joined([line] + lines) + rest == line + [NEWLINE] + (Joined(lines) + rest)
  {
    JoinedCons(line, lines);
  }

  /** A byte string is its complete lines followed by its partial line... */
  lemma {:induction false} SplitJoins(s: Bytes)
    ensures Joined(Complete(s)) + Partial(s) == s
    ensures (forall l :: l in Complete(s) ==> OneLine(l)) && OneLine(Partial(s))
    decreases |s|
  {
    LinesAreLines(s);
    var n := FirstNewline(s);
    if n < |s| {
      SplitJoins(s[n + 1..]);
      FirstLine(s);
      JoinedInFront(s[..n], Complete(s[n + 1..]), Partial(s[n + 1..]));
    }
  }

  /** ...and there is no other way to read it so. */
  lemma {:induction false} SplitUnique(lines: seq<Bytes>, rest: Bytes)
    requires (forall l :: l in lines ==> OneLine(l)) && OneLine(rest)
    ensures Complete(Joined(lines) + rest) == lines && Partial(Joined(lines) + rest) == rest
  {
    if lines == [] {
      assert Joined(lines) + rest == rest;
      NoLine(rest);
    } else {
      SplitUnique(lines[1..], rest);
      var tail := Joined(lines[1..]) + rest;
      assert Joined(lines) + rest == lines[0] + [NEWLINE] + tail;
      LineInFront(lines[0], tail);
    }
  }

  /** More input: lines already complete stay, the rest is split with the partial line. */
  lemma {:induction false} SplitMore(s: Bytes, more: Bytes)
    ensures Complete(s + more) == Complete(s) + Complete(Partial(s) + more)
    ensures Partial(s + more) == Partial(Partial(s) + more)
    decreases |s|
  {
    var n := FirstNewline(s);
    if n < |s| {
      SplitMore(s[n + 1..], more);
      FirstLine(s);
      SplitMoreStep(s[..n], s[n + 1..], more);
    } else {
      assert s[..n] == s;
      NoLine(s);
      assert [] + Complete(s + more) == Complete(s + more);
    }
  }

  lemma SplitMoreStep(line: Bytes, tail: Bytes, more: Bytes)
    requires OneLine(line)
    requires Complete(tail + more) == Complete(tail) + Complete(Partial(tail) + more)
    requires Partial(tail + more) == Partial(Partial(tail) + more)
    ensures var s := line + [NEWLINE] + tail;
            && Complete(s + more) == Complete(s) + Complete(Partial(s) + more)
            && Partial(s + more) == Partial(Partial(s) + more)
  {
    LineInFront(line, tail);
    InFrontMore(line, tail, more);
    ConsConcat(line, Complete(tail), Complete(Partial(tail) + more));
  }

  lemma InFrontMore(line: Bytes, tail: Bytes, more: Bytes)
    requires OneLine(line)
    ensures var s := line + [NEWLINE] + tail + more;
            Complete(s) == [line] + Complete(tail + more) && Partial(s) == Partial(tail + more)
  {
    assert line + [NEWLINE] + tail + more == line + [NEWLINE] + (tail + more);
    LineInFront(line, tail + more);
  }

  lemma ConsConcat(line: Bytes, a: seq<Bytes>, b: seq<Bytes>)
    ensures [line] + (a + b) == ([line] + a) + b
  {
  }

  function NonEmpty(lines: seq<Bytes>): seq<Bytes> {
    if lines == [] then []
    else (if lines[0] == [] then [] else [lines[0]]) + NonEmpty(lines[1..])
  }

  lemma {:induction false} NonEmptyConcat(a: seq<Bytes>, b: seq<Bytes>)
    ensures NonEmpty(a + b) == NonEmpty(a) + NonEmpty(b)
  {
    if a == [] {
      assert a + b == b;
    } else {
      assert (a + b)[1..] == a[1..] + b;
      NonEmptyConcat(a[1..], b);
    }
  }

  lemma NonEmptyCons(taken: seq<Bytes>, line: Bytes, lines: seq<Bytes>)
    ensures taken + NonEmpty([line] + lines) == (if line == [] then taken else taken + [line]) + NonEmpty(lines)
  {
    assert ([line] + lines)[1..] == lines;
  }

  function Concat(chunks: seq<Bytes>): Bytes {
    if chunks == [] then [] else Concat(chunks[..|chunks| - 1]) + chunks[|chunks| - 1]
  }

  lemma ConcatSnoc(chunks: seq<Bytes>, chunk: Bytes)
    ensures Concat(chunks + [chunk]) == Concat(chunks) + chunk
  {
    assert (chunks + [chunk])[..|chunks|] == chunks;
  }

  // ---------------------------------------------------------------------
  // The followers
  // ---------------------------------------------------------------------

  method Position(buf: Bytes) returns (pos: nat)
    ensures pos == FirstNewline(buf)
  {
    pos := 0;
    while pos < |buf| && buf[pos] != NEWLINE
      invariant pos <= |buf| && NEWLINE !in buf[..pos]
    {
      assert buf[..pos + 1] == buf[..pos] + [buf[pos]];
      pos := pos + 1;
    }
    FirstNewlineIs(buf, pos);
  }

  /** The inner loop of both followers: take every complete line off the buffer. */
  method TakeLines(buf: Bytes) returns (rest: Bytes, emitted: seq<Bytes>)
    ensures emitted == NonEmpty(Complete(buf)) && rest == Partial(buf)
  {
    rest := buf;
    emitted := [];
    var pos := Position(rest);
    while pos < |rest|
      invariant pos == FirstNewline(rest)
      invariant emitted + NonEmpty(Complete(rest)) == NonEmpty(Complete(buf)) && Partial(rest) == Partial(buf)
      decreases |rest|
    {
      var line := rest[..pos];
      NonEmptyCons(emitted, line, Complete(rest[pos + 1..]));
      if line != [] {
        emitted := emitted + [line];
      }
      rest := rest[pos + 1..];
      pos := Position(rest);
    }
  }

  /** `run_subscribe_session`: what has been printed and what is buffered once `chunks` have been
      read, one read at a time. */
  method Follow(chunks: seq<Bytes>) returns (printed: seq<Bytes>, buf: Bytes)
    ensures printed == NonEmpty(Complete(Concat(chunks))) && buf == Partial(Concat(chunks))
  {
    printed, buf := [], [];
    for i := 0 to |chunks|
      invariant printed == NonEmpty(Complete(Concat(chunks[..i]))) && buf == Partial(Concat(chunks[..i]))
    {
      var seen := Concat(chunks[..i]);
      SplitMore(seen, chunks[i]);
      NonEmptyConcat(Complete(seen), Complete(buf + chunks[i]));
      assert chunks[..i + 1] == chunks[..i] + [chunks[i]];
      ConcatSnoc(chunks[..i], chunks[i]);
      var emitted;
      buf, emitted := TakeLines(buf + chunks[i]);
      printed := printed + emitted;
    }
    assert chunks[..|chunks|] == chunks;
  }

  /** `run_log_session` to the end of the stream, where a partial last line is printed as well. */
  method FollowToEnd(chunks: seq<Bytes>) returns (printed: seq<Bytes>)
    ensures printed == NonEmpty(Complete(Concat(chunks)) + [Partial(Concat(chunks))])
  {
    var buf;
    printed, buf := Follow(chunks);
    NonEmptyConcat(Complete(Concat(chunks)), [buf]);
    if buf != [] {
      printed := printed + [buf];
    }
  }

  // ---------------------------------------------------------------------
  // Status messages
  // ---------------------------------------------------------------------

  datatype Message = Message(level: string, text: string)

  /** The messages in a run of lines; `parse` reads one line with its terminator and gives nothing for
      a line that is not a status object. */
  function Messages(lines: seq<Bytes>, parse: Bytes -> Option<Message>): seq<Message> {
    if lines == [] then []
    else MessageIn(parse(lines[0] + [NEWLINE])) + Messages(lines[1..], parse)
  }

  function MessageIn(m: Option<Message>): seq<Message> {
    if m.Some? then [m.value] else []
  }

  lemma {:induction false} MessagesConcat(a: seq<Bytes>, b: seq<Bytes>, parse: Bytes -> Option<Message>)
    ensures Messages(a + b, parse) == Messages(a, parse) + Messages(b, parse)
  {
    if a == [] {
      assert a + b == b;
    } else {
      assert (a + b)[1..] == a[1..] + b;
      MessagesConcat(a[1..], b, parse);
    }
  }

  lemma MessagesSnoc(lines: seq<Bytes>, line: Bytes, parse: Bytes -> Option<Message>)
    ensures Messages(lines + [line], parse) == Messages(lines, parse) + MessageIn(parse(line + [NEWLINE]))
  {
    MessagesConcat(lines, [line], parse);
    assert Messages([line], parse) == MessageIn(parse(line + [NEWLINE]));
  }

  lemma ConcatAssoc(read: seq<Bytes>, line: Bytes, tail: seq<Bytes>)
    ensures read + ([line] + tail) == (read + [line]) + tail
  {
  }

  method DrainStatusMessages(buf: Bytes, parse: Bytes -> Option<Message>) returns (rest: Bytes, logged: seq<Message>)
    ensures logged == Messages(Complete(buf), parse) && rest == Partial(buf)
  {
    rest := buf;
    logged := [];
    ghost var read: seq<Bytes> := [];
    var pos := Position(rest);
    while pos < |rest|
      invariant pos == FirstNewline(rest)
      invariant read + Complete(rest) == Complete(buf) && Partial(rest) == Partial(buf)
      invariant logged == Messages(read, parse)
      decreases |rest|
    {
      var line := rest[..pos + 1];
      assert line == rest[..pos] + [NEWLINE];
      MessagesSnoc(read, rest[..pos], parse);
      ghost var tail := Complete(rest[pos + 1..]);
      ConcatAssoc(read, rest[..pos], tail);
      read := read + [rest[..pos]];
      rest := rest[pos + 1..];
      logged := logged + MessageIn(parse(line));
      pos := Position(rest);
    }
    assert read == Complete(buf);
  }

  /** Status messages do not depend on chunking either. */
  method FollowStatus(chunks: seq<Bytes>, parse: Bytes -> Option<Message>) returns (logged: seq<Message>, buf: Bytes)
    ensures logged == Messages(Complete(Concat(chunks)), parse) && buf == Partial(Concat(chunks))
  {
    logged, buf := [], [];
    for i := 0 to |chunks|
      invariant logged == Messages(Complete(Concat(chunks[..i])), parse) && buf == Partial(Concat(chunks[..i]))
    {
      var seen := Concat(chunks[..i]);
      SplitMore(seen, chunks[i]);
      MessagesConcat(Complete(seen), Complete(buf + chunks[i]), parse);
      assert chunks[..i + 1] == chunks[..i] + [chunks[i]];
      ConcatSnoc(chunks[..i], chunks[i]);
      var more;
      buf, more := DrainStatusMessages(buf + chunks[i], parse);
      logged := logged + more;
    }
    assert chunks[..|chunks|] == chunks;
  }
}
