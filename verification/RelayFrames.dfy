/** The relay frames Canopy requests and responses travel in: a JSON header line and a body that runs
    to the end of the stream, both bounded. */
module RelayFrames {
  import opened Common
  import opened LineSplitter

  const MAX_HEADER_LINE := 64 * 1024

  datatype FrameError = BadHeader | TooLarge | Truncated

  datatype Frame<H> = Ok(header: H, body: Bytes) | Err(error: FrameError)

  function Min(a: nat, b: nat): nat {
    if a <= b then a else b
  }

  // ---------------------------------------------------------------------
  // What a whole stream reads as
  // ---------------------------------------------------------------------

  /** The bytes up to and including the first newline, but no more than `limit` of them. */
  function HeaderBytes(s: Bytes, limit: nat): (line: Bytes)
    ensures line <= s && |line| <= limit
  {
    s[..Min(Min(FirstNewline(s) + 1, |s|), limit)]
  }

  function FrameOf<H>(s: Bytes, maxBody: nat, decode: Bytes -> Option<H>): Frame<H> {
    var line := HeaderBytes(s, MAX_HEADER_LINE);
    if line == [] then Err(Truncated)
    else if line[|line| - 1] != NEWLINE then Err(if |line| >= MAX_HEADER_LINE then TooLarge else Truncated)
    else match decode(line[..|line| - 1])
      case None => Err(BadHeader)
      case Some(h) => if |s| - |line| > maxBody then Err(TooLarge) else Ok(h, s[|line|..])
  }

  // ---------------------------------------------------------------------
  // Reading and writing
  // ---------------------------------------------------------------------

  lemma {:induction false} ConcatCons(chunk: Bytes, chunks: seq<Bytes>)
    ensures Concat([chunk] + chunks) == chunk + Concat(chunks)
  {
    var all := [chunk] + chunks;
    if chunks == [] {
      assert all == [chunk] && all[..0] == [];
    } else {
      var n := |chunks| - 1;
      assert all[..|all| - 1] == [chunk] + chunks[..n];
      ConcatCons(chunk, chunks[..n]);
    }
  }

  lemma ConcatHead(chunks: seq<Bytes>)
    requires chunks != []
    ensures Concat(chunks) == chunks[0] + Concat(chunks[1..])
  {
    assert chunks == [chunks[0]] + chunks[1..];
    ConcatCons(chunks[0], chunks[1..]);
  }

  /** Moving a piece over to what has been read. */
  lemma Took(s: Bytes, got: Bytes, left: Bytes, piece: Bytes)
    requires got <= s && left == s[|got|..] && piece <= left
    ensures got + piece <= s && left[|piece|..] == s[|got + piece|..]
  {
    assert s == got + left;
  }

  /** The first newline ends a line read without one so far. */
  lemma EndsLine(s: Bytes, got: Bytes, piece: Bytes, limit: nat)
    requires NEWLINE !in got && piece != [] && NEWLINE !in piece[..|piece| - 1] && piece[|piece| - 1] == NEWLINE
    requires got + piece <= s && |got + piece| <= limit
    ensures got + piece == HeaderBytes(s, limit)
  {
    var line := got + piece[..|piece| - 1];
    assert got + piece == line + [NEWLINE];
    assert s == line + [NEWLINE] + s[|line| + 1..];
    LineInFront(line, s[|line| + 1..]);
  }

  lemma LongerLine(line: Bytes, piece: Bytes)
    requires NEWLINE !in line && piece != [] && NEWLINE !in piece[..|piece| - 1] && piece[|piece| - 1] != NEWLINE
    ensures NEWLINE !in line + piece
  {
    assert piece == piece[..|piece| - 1] + [piece[|piece| - 1]];
  }

  lemma NoNewlineYet(s: Bytes, line: Bytes)
    requires line <= s && NEWLINE !in line
    ensures FirstNewline(s) >= |line|
  {
    forall k | 0 <= k < |line| ensures s[k] != NEWLINE {
      assert line[k] in line;
    }
  }

  /** Without a newline the line is all there is, or all the limit allows. */
  lemma WholeLine(s: Bytes, line: Bytes, limit: nat)
    requires line <= s && NEWLINE !in line && |line| <= limit
    requires |line| == |s| || |line| == limit
    ensures line == HeaderBytes(s, limit)
  {
    NoNewlineYet(s, line);
    assert line == s[..|line|];
  }

  /** A buffered reader over what the transport delivers; a read may stop at any chunk boundary. */
  class Reader {
    var chunks: seq<Bytes>

    function Left(): Bytes
      reads this
    {
      Concat(chunks)
    }

    constructor (chunks: seq<Bytes>)
      ensures Left() == Concat(chunks)
    {
      this.chunks := chunks;
    }

    /** The buffer to read from, empty only at the end of the stream. */
    method FillBuf() returns (buf: Bytes)
      modifies this
      ensures Left() == old(Left()) && buf <= Left()
      ensures buf == [] <==> Left() == []
      ensures buf != [] ==> chunks != [] && chunks[0] == buf
    {
      while chunks != [] && chunks[0] == []
        invariant Left() == old(Left())
        decreases |chunks|
      {
        ConcatHead(chunks);
        chunks := chunks[1..];
      }
      if chunks == [] {
        buf := [];
      } else {
        ConcatHead(chunks);
        buf := chunks[0];
      }
    }

    method Consume(n: nat)
      requires chunks != [] && n <= |chunks[0]|
      modifies this
      ensures n <= |old(Left())| && Left() == old(Left())[n..]
    {
      ConcatHead(chunks);
      ghost var rest := chunks[1..];
      ConcatCons(chunks[0][n..], rest);
      chunks := [chunks[0][n..]] + chunks[1..];
    }

    /** One round of `read_until`: from the buffer, up to a newline or the limit. */
    method TakePiece(limit: nat) returns (piece: Bytes)
      requires limit > 0
      modifies this
      ensures piece <= old(Left()) && |piece| <= limit && Left() == old(Left())[|piece|..]
      ensures piece == [] <==> old(Left()) == []
      ensures piece != [] ==> NEWLINE !in piece[..|piece| - 1]
    {
      var buf := FillBuf();
      var pos := Position(buf);
      var n := Min(Min(pos + 1, |buf|), limit);
      if n > 0 {
        Consume(n);
      }
      piece := buf[..n];
    }

    /** `take(limit).read_until(newline)`. */
    method ReadLine(limit: nat) returns (line: Bytes)
      modifies this
      ensures line == HeaderBytes(old(Left()), limit) && Left() == old(Left())[|line|..]
    {
      ghost var s := Left();
      line := [];
      while |line| < limit
        invariant |line| <= limit && line <= s && Left() == s[|line|..]
        invariant NEWLINE !in line
        decreases limit - |line|
      {
        ghost var left := Left();
        var piece := TakePiece(limit - |line|);
        if piece == [] {
          WholeLine(s, line, limit);
          return;
        }
        Took(s, line, left, piece);
        if piece[|piece| - 1] == NEWLINE {
          EndsLine(s, line, piece, limit);
          line := line + piece;
          return;
        }
        LongerLine(line, piece);
        line := line + piece;
      }
      WholeLine(s, line, limit);
    }

    /** `take(limit).read_to_end`. */
    method ReadToEnd(limit: nat) returns (body: Bytes)
      modifies this
      ensures body == old(Left())[..Min(limit, |old(Left())|)]
    {
      ghost var s := Left();
      body := [];
      while |body| < limit
        invariant |body| <= limit && body <= s && Left() == s[|body|..]
        decreases limit - |body|
      {
        var buf := FillBuf();
        if buf == [] {
          assert |body| == |s| && body == s[..|s|];
          return;
        }
        var n := Min(|buf|, limit - |body|);
        Took(s, body, Left(), buf[..n]);
        Consume(n);
        body := body + buf[..n];
      }
      assert body == s[..limit];
    }

    method ReadFrame<H>(maxBody: nat, decode: Bytes -> Option<H>) returns (frame: Frame<H>)
      modifies this
      ensures frame == FrameOf(old(Left()), maxBody, decode)
    {
      var line := ReadLine(MAX_HEADER_LINE);
      if line == [] {
        return Err(Truncated);
      }
      if line[|line| - 1] != NEWLINE {
        return Err(if |line| >= MAX_HEADER_LINE then TooLarge else Truncated);
      }
      var header := decode(line[..|line| - 1]);
      if header.None? {
        return Err(BadHeader);
      }
      var body := ReadToEnd(maxBody + 1);
      if |body| > maxBody {
        return Err(TooLarge);
      }
      return Ok(header.value, body);
    }
  }

  method WriteFrame<H>(header: H, body: Bytes, encode: H -> Bytes) returns (stream: Bytes)
    ensures stream == Written(encode(header), body)
  {
    stream := encode(header);
    stream := stream + [NEWLINE];
    stream := stream + body;
  }

  function Written(json: Bytes, body: Bytes): Bytes {
    json + [NEWLINE] + body
  }

  // ---------------------------------------------------------------------
  // Results
  // ---------------------------------------------------------------------

  /** Compact JSON escapes newlines, and reads back as what was written. */
  predicate Codes<H(==)>(header: H, encode: H -> Bytes, decode: Bytes -> Option<H>) {
    NEWLINE !in encode(header) && decode(encode(header)) == Some(header)
  }

  /** What any cut of a written frame reads as, the whole frame included. */
  function CutReadsAs<H>(header: H, json: Bytes, body: Bytes, maxBody: nat, cut: nat): Frame<H>
    requires cut <= |json| + 1 + |body|
  {
    if cut <= |json| && cut < MAX_HEADER_LINE then Err(Truncated)
    else if |json| >= MAX_HEADER_LINE then Err(TooLarge)
    else if cut - |json| - 1 > maxBody then Err(TooLarge)
    else Ok(header, body[..cut - |json| - 1])
  }

  lemma CutInHeader<H>(json: Bytes, body: Bytes, maxBody: nat, cut: nat, decode: Bytes -> Option<H>)
    requires NEWLINE !in json && cut <= |json|
    ensures FrameOf(Written(json, body)[..cut], maxBody, decode) ==
            Err(if cut >= MAX_HEADER_LINE then TooLarge else Truncated)
  {
    var s := Written(json, body)[..cut];
    assert s == json[..cut];
    NoLine(s);
  }

  lemma CutInBody<H>(header: H, json: Bytes, body: Bytes, maxBody: nat, cut: nat, decode: Bytes -> Option<H>)
    requires NEWLINE !in json && decode(json) == Some(header) && |json| < cut <= |json| + 1 + |body|
    ensures FrameOf(Written(json, body)[..cut], maxBody, decode) == CutReadsAs(header, json, body, maxBody, cut)
  {
    var s := Written(json, body)[..cut];
    var rest := body[..cut - |json| - 1];
    assert s == json + [NEWLINE] + rest;
    LineInFront(json, rest);
    var line := HeaderBytes(s, MAX_HEADER_LINE);
    if |json| < MAX_HEADER_LINE {
      assert line == s[..|json| + 1];
      assert line[..|line| - 1] == json;
      assert s[|line|..] == rest;
    } else {
      assert line == s[..MAX_HEADER_LINE];
      assert line[|line| - 1] in json;
    }
  }

  /** Wherever a written frame is cut, what the reader makes of it is known exactly: a cut header is
      never taken for a header, and a cut body is taken for the body. */
  lemma CutExactly<H>(
    header: H, body: Bytes, encode: H -> Bytes, decode: Bytes -> Option<H>, maxBody: nat, cut: nat)
    requires Codes(header, encode, decode)
    requires cut <= |Written(encode(header), body)|
    ensures FrameOf(Written(encode(header), body)[..cut], maxBody, decode) ==
            CutReadsAs(header, encode(header), body, maxBody, cut)
  {
    if cut <= |encode(header)| {
      CutInHeader(encode(header), body, maxBody, cut, decode);
    } else {
      CutInBody(header, encode(header), body, maxBody, cut, decode);
    }
  }

  /** A frame reads back as what was written exactly when both parts are within their limits, and
      otherwise is too large. */
  lemma RoundTrip<H>(header: H, body: Bytes, encode: H -> Bytes, decode: Bytes -> Option<H>, maxBody: nat)
    requires Codes(header, encode, decode)
    ensures FrameOf(Written(encode(header), body), maxBody, decode) ==
            if |encode(header)| < MAX_HEADER_LINE && |body| <= maxBody then Ok(header, body) else Err(TooLarge)
  {
    var s := Written(encode(header), body);
    assert s[..|s|] == s;
    CutExactly(header, body, encode, decode, maxBody, |s|);
    assert body[..|body|] == body;
  }
}
