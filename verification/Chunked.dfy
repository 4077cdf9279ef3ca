/**
 * The chunked coding of section 7.1 of RFC 9112: the writer of goproxy/chunked.go, the tail of
 * a response in goproxy/https.go that completes the message, and a decoder as specification.
 */
module Chunked {
  import opened Bytes

  type bytes = seq<byte>

  const CR: byte := 13
  const CRLF: bytes := [13, 10]
  const ZERO: byte := 48

  // ----- the decoder -----

  /** A message is complete with its data and the bytes behind it, or needs more bytes, or is wrong. */
  datatype Decoding = Complete(data: bytes, rest: bytes) | Incomplete | Malformed

  datatype Line = Line(text: bytes, rest: bytes) | NoLine

  /** The bytes up to the first CRLF, and those behind it. */
  function ReadLine(s: bytes): (l: Line)
    ensures l.Line? ==> s == l.text + CRLF + l.rest
  {
    if |s| < 2 then NoLine
    else if s[..2] == CRLF then Line([], s[2..])
    else
      match ReadLine(s[1..])
      case NoLine => NoLine
      case Line(text, rest) => Line([s[0]] + text, rest)
  }

  predicate IsHex(b: byte) {
    48 <= b <= 57 || 65 <= b <= 70 || 97 <= b <= 102
  }

  function HexValue(b: byte): (v: nat)
    requires IsHex(b)
    ensures v < 16
  {
    if b <= 57 then (b - 48) as int else if b <= 70 then (b - 55) as int else (b - 87) as int
  }

  /** The leading hexadecimal digits of a line. */
  function HexPrefix(s: bytes): (h: bytes)
    ensures h <= s && forall i :: 0 <= i < |h| ==> IsHex(h[i])
    ensures |h| < |s| ==> !IsHex(s[|h|])
  {
    if s == [] || !IsHex(s[0]) then [] else [s[0]] + HexPrefix(s[1..])
  }

  function HexNumber(h: bytes): nat
    requires forall i :: 0 <= i < |h| ==> IsHex(h[i])
  {
    if h == [] then 0 else 16 * HexNumber(h[..|h| - 1]) + HexValue(h[|h| - 1])
  }

  datatype Size = Size(n: nat) | BadSize

  /** The chunk-size at the start of a line; a chunk extension may follow and is ignored. */
  function ParseSize(line: bytes): Size {
    var h := HexPrefix(line);
    if h == [] then BadSize
    else if |h| == |line| || line[|h|] in {9, 32, 59} then Size(HexNumber(h))
    else BadSize
  }

  /** Trailer fields up to the empty line that ends the message; they are ignored. */
  function SkipTrailer(s: bytes): Decoding
    decreases |s|
  {
    match ReadLine(s)
    case NoLine => Incomplete
    case Line(text, rest) => if text == [] then Complete([], rest) else SkipTrailer(rest)
  }

  function Decode(s: bytes): Decoding
    decreases |s|
  {
    match ReadLine(s)
    case NoLine => Incomplete
    case Line(line, rest) =>
      match ParseSize(line)
      case BadSize => Malformed
      case Size(n) => if n == 0 then SkipTrailer(rest) else DecodeData(n, rest)
  }

  /** The data of a chunk of n bytes, the CRLF behind it, and the rest of the message. */
  function DecodeData(n: nat, s: bytes): Decoding
    requires n > 0
    decreases |s|
  {
    if |s| < n + 2 then Incomplete
    else if s[n..n + 2] != CRLF then Malformed
    else Prepend(s[..n], Decode(s[n + 2..]))
  }

  /** What decoding gives when a chunk of `data` comes first. */
  function Prepend(data: bytes, d: Decoding): Decoding {
    match d
    case Complete(more, rest) => Complete(data + more, rest)
    case other => other
  }

  // ----- the decoder never changes its mind -----

  function Followed(d: Decoding, more: bytes): Decoding {
    match d
    case Complete(data, rest) => Complete(data, rest + more)
    case other => other
  }

  lemma {:induction false} LineIsStable(s: bytes, more: bytes)
    requires ReadLine(s).Line?
    ensures ReadLine(s + more) == Line(ReadLine(s).text, ReadLine(s).rest + more)
  {
    assert (s + more)[..2] == s[..2];
    if s[..2] == CRLF {
      assert (s + more)[2..] == s[2..] + more;
    } else {
      assert (s + more)[1..] == s[1..] + more;
      LineIsStable(s[1..], more);
    }
  }

  lemma {:induction false} TrailerIsStable(s: bytes, more: bytes)
    requires !SkipTrailer(s).Incomplete?
    ensures SkipTrailer(s + more) == Followed(SkipTrailer(s), more)
    decreases |s|
  {
    LineIsStable(s, more);
    if ReadLine(s).text != [] {
      TrailerIsStable(ReadLine(s).rest, more);
    }
  }

  lemma {:induction false} SplitStable(s: bytes, more: bytes, n: nat)
    requires n + 2 <= |s|
    ensures (s + more)[..n] == s[..n] && (s + more)[n..n + 2] == s[n..n + 2]
    ensures (s + more)[n + 2..] == s[n + 2..] + more
  {
  }

  /** A verdict, once reached, stands whatever bytes come behind. */
  lemma {:induction false} DecodeIsStable(s: bytes, more: bytes)
    requires !Decode(s).Incomplete?
    ensures Decode(s + more) == Followed(Decode(s), more)
    decreases |s|
  {
    LineIsStable(s, more);
    var rest := ReadLine(s).rest;
    match ParseSize(ReadLine(s).text)
    case BadSize =>
    case Size(n) =>
      if n == 0 {
        TrailerIsStable(rest, more);
      } else {
        DataIsStable(n, rest, more);
      }
  }

  lemma {:induction false} DataIsStable(n: nat, s: bytes, more: bytes)
    requires n > 0 && !DecodeData(n, s).Incomplete?
    ensures DecodeData(n, s + more) == Followed(DecodeData(n, s), more)
    decreases |s|
  {
    SplitStable(s, more, n);
    if s[n..n + 2] == CRLF {
      DecodeIsStable(s[n + 2..], more);
    }
  }

  /** If a message decodes with nothing left over, every proper prefix of it asks for more bytes. */
  lemma {:induction false} ProperPrefixIsIncomplete(message: bytes, prefix: bytes)
    requires Decode(message).Complete? && Decode(message).rest == []
    requires prefix < message
    ensures Decode(prefix) == Incomplete
  {
    if !Decode(prefix).Incomplete? {
      var more := message[|prefix|..];
      assert message == prefix + more;
      DecodeIsStable(prefix, more);
    }
  }

  // ----- the encoding -----

  function HexDigit(v: nat): (b: byte)
    requires v < 16
    ensures IsHex(b) && HexValue(b) == v
  {
    if v < 10 then 48 + v as byte else 87 + v as byte
  }

  /** strconv.FormatInt(n, 16): lower-case digits, no leading zeros. */
  function Hex(n: nat): (h: bytes)
    ensures h != [] && forall i :: 0 <= i < |h| ==> IsHex(h[i])
  {
    if n < 16 then [HexDigit(n)] else Hex(n / 16) + [HexDigit(n % 16)]
  }

  function Chunk(data: bytes): bytes {
    if data == [] then [] else Hex(|data|) + CRLF + data + CRLF
  }

  function Chunks(pieces: seq<bytes>): bytes {
    if pieces == [] then [] else Chunk(pieces[0]) + Chunks(pieces[1..])
  }

  function Concat(pieces: seq<bytes>): bytes {
    if pieces == [] then [] else pieces[0] + Concat(pieces[1..])
  }

  const LAST_CHUNK: bytes := [48, 13, 10]

  /** Everything that a response body puts on the wire. */
  function Message(pieces: seq<bytes>): bytes {
    Chunks(pieces) + LAST_CHUNK + CRLF
  }

  // ----- encoding and decoding undo each other -----

  lemma {:induction false} HexRoundTrip(n: nat)
    ensures HexNumber(Hex(n)) == n
    ensures n > 0 ==> Hex(n)[0] != ZERO
  {
    if n < 16 {
      assert Hex(n)[..0] == [];
    } else {
      HexRoundTrip(n / 16);
      assert Hex(n)[..|Hex(n)| - 1] == Hex(n / 16);
    }
  }

  predicate LowerHex(b: byte) {
    48 <= b <= 57 || 97 <= b <= 102
  }

  /** Printing gives back any lower-case number without leading zeros: the other half of the round trip. */
  lemma {:induction false} HexIsCanonical(h: bytes)
    requires h != [] && (forall i :: 0 <= i < |h| ==> IsHex(h[i]) && LowerHex(h[i]))
    requires |h| > 1 ==> h[0] != ZERO
    ensures Hex(HexNumber(h)) == h
    ensures h[0] != ZERO ==> HexNumber(h) > 0
  {
    var init, last := h[..|h| - 1], h[|h| - 1];
    if |h| == 1 {
      assert HexNumber(init) == 0;
    } else {
      HexIsCanonical(init);
      assert HexNumber(h) / 16 == HexNumber(init) && HexNumber(h) % 16 == HexValue(last);
      assert h == init + [last];
    }
  }

  lemma {:induction false} HexPrefixOfHex(h: bytes)
    requires forall i :: 0 <= i < |h| ==> IsHex(h[i])
    ensures HexPrefix(h) == h
  {
    if h != [] {
      HexPrefixOfHex(h[1..]);
    }
  }

  /** A line free of CR ends at the CRLF put behind it. */
  lemma {:induction false} LineOfText(text: bytes, rest: bytes)
    requires CR !in text
    ensures ReadLine(text + CRLF + rest) == Line(text, rest)
  {
    var s := text + CRLF + rest;
    if text == [] {
      assert s[..2] == CRLF && s[2..] == rest;
    } else {
      assert s[0] == text[0] && text[0] in text;
      assert s[..2][0] != CR;
      assert s[1..] == text[1..] + CRLF + rest;
      LineOfText(text[1..], rest);
    }
  }

  lemma {:induction false} DecodeChunk(data: bytes, rest: bytes)
    requires data != []
    ensures Decode(Chunk(data) + rest) == Prepend(data, Decode(rest))
  {
    var h := Hex(|data|);
    var body := data + CRLF + rest;
    assert Chunk(data) + rest == h + CRLF + body;
    HexRoundTrip(|data|);
    HexPrefixOfHex(h);
    LineOfText(h, body);
    assert body[..|data|] == data && body[|data|..|data| + 2] == CRLF && body[|data| + 2..] == rest;
  }

  lemma {:induction false} DecodeEnd(following: bytes)
    ensures Decode(LAST_CHUNK + CRLF + following) == Complete([], following)
  {
    assert LAST_CHUNK + CRLF + following == [ZERO] + CRLF + (CRLF + following);
    LineOfText([ZERO], CRLF + following);
    HexPrefixOfHex([ZERO]);
    assert [ZERO][..0] == [];
    assert HexNumber([ZERO]) == 0;
    assert CRLF + following == [] + CRLF + following;
    LineOfText([], following);
  }

  /** Decoding an emitted body gives its data back, and leaves exactly what follows it. */
  lemma {:induction false} RoundTrip(pieces: seq<bytes>, following: bytes)
    ensures Decode(Message(pieces) + following) == Complete(Concat(pieces), following)
  {
    if pieces == [] {
      assert Message(pieces) + following == LAST_CHUNK + CRLF + following;
      DecodeEnd(following);
    } else {
      var tail := Message(pieces[1..]) + following;
      assert Message(pieces) + following == Chunk(pieces[0]) + tail;
      RoundTrip(pieces[1..], following);
      if pieces[0] != [] {
        DecodeChunk(pieces[0], tail);
      } else {
        assert [] + tail == tail;
      }
    }
  }

  /** Only the data counts: two ways of cutting it into pieces decode alike. */
  lemma {:induction false} PiecesDoNotMatter(a: seq<bytes>, b: seq<bytes>, following: bytes)
    ensures Decode(Message(a) + following) == Decode(Message(b) + following) <==> Concat(a) == Concat(b)
  {
    RoundTrip(a, following);
    RoundTrip(b, following);
  }

  /** A body cut off anywhere on the wire is seen to be incomplete. */
  lemma {:induction false} TruncationIsDetectable(pieces: seq<bytes>, sent: bytes)
    requires sent < Message(pieces)
    ensures Decode(sent) == Incomplete
  {
    RoundTrip(pieces, []);
    assert Message(pieces) + [] == Message(pieces);
    ProperPrefixIsIncomplete(Message(pieces), sent);
  }

  // ----- the writer -----

  datatype Error = NoError | WriteFailed | ShortWrite

  /**
   * The underlying io.Writer. It takes any part of what it is given, with or without an error;
   * an honest one reports an error whenever it takes less than everything. `given` is all that it
   * was ever given, `errors` the number of errors that it reported.
   */
  class Wire {
    const honest: bool
    var log: bytes
    ghost var given: bytes
    ghost var errors: nat

    constructor (honest: bool)
      ensures this.honest == honest && log == [] && given == [] && errors == 0
    {
      this.honest, log, given, errors := honest, [], [], 0;
    }

    method Write(data: bytes) returns (n: nat, err: Error)
      modifies this
      ensures n <= |data| && log == old(log) + data[..n] && given == old(given) + data
      ensures errors == old(errors) + if err == NoError then 0 else 1
      ensures honest && n < |data| ==> err != NoError
    {
      n :| n <= |data|;
      err :| honest && n < |data| ==> err != NoError;
      log := log + data[..n];
      given := given + data;
      errors := errors + if err == NoError then 0 else 1;
    }
  }

  /** What went on the wire since `before` is the start of `full`. */
  predicate Sent(before: bytes, after: bytes, full: bytes) {
    before <= after <= before + full
  }

  lemma {:induction false} SentPart(before: bytes, done: bytes, next: bytes, k: nat, later: bytes)
    requires k <= |next|
    ensures Sent(before, before + done + next[..k], done + next + later)
    ensures k == |next| ==> before + done + next[..k] == before + (done + next)
  {
    assert before + (done + next + later) == before + done + (next + later);
  }

  lemma {:induction false} SentWhole(before: bytes, done: bytes, after: bytes, part: bytes, later: bytes)
    requires Sent(before + done, after, part)
    ensures Sent(before, after, done + (part + later))
  {
    assert before + (done + (part + later)) == (before + done + part) + later;
  }

  lemma {:induction false} ChunkParts(before: bytes, data: bytes)
    requires data != []
    ensures var head := Hex(|data|) + CRLF;
            && [] + head + (data + CRLF) == Chunk(data)
            && head + data + CRLF == Chunk(data)
            && head + data + CRLF + [] == Chunk(data)
            && before + [] == before
  {
    Parts(Hex(|data|) + CRLF, data, CRLF);
  }

  lemma {:induction false} Parts(a: bytes, b: bytes, c: bytes)
    ensures [] + a + (b + c) == a + b + c
    ensures a + b + c + [] == a + b + c
  {
  }

  lemma {:induction false} GivenParts(given: bytes, head: bytes, data: bytes)
    ensures given + head + data + CRLF == given + (head + data + CRLF)
  {
  }

  class ChunkedWriter {
    const wire: Wire

    constructor (wire: Wire)
      ensures this.wire == wire
    {
      this.wire := wire;
    }

    /**
     * One chunk; nothing for no data, which would read as the end. `n` counts the data bytes sent.
     * It succeeds exactly if the wire reports no error and takes all the data, and stops at the
     * first error.
     */
    method Write(data: bytes) returns (n: nat, err: Error)
      modifies wire
      ensures err == NoError <==> wire.errors == old(wire.errors) && n == |data|
      ensures n < |data| && wire.errors == old(wire.errors) ==> err == ShortWrite
      ensures n <= |data| && wire.errors <= old(wire.errors) + 1
      ensures wire.honest ==> (err == NoError <==> wire.errors == old(wire.errors))
      ensures old(wire.log) <= wire.log
      ensures err == NoError ==> wire.given == old(wire.given) + Chunk(data)
      ensures wire.honest ==> Sent(old(wire.log), wire.log, Chunk(data))
      ensures wire.honest && err == NoError ==> wire.log == old(wire.log) + Chunk(data)
      ensures wire.honest && data != [] ==>
                var beyond := |wire.log| - |old(wire.log)| - |Hex(|data|) + CRLF|;
                n == if beyond < 0 then 0 else if beyond < |data| then beyond else |data|
    {
      if |data| == 0 {
        return 0, NoError;
      }
      ghost var before, given := wire.log, wire.given;
      var head := Hex(|data|) + CRLF;
      var k;
      k, err := wire.Write(head);
      SentPart(before, [], head, k, data + CRLF);
      ChunkParts(before, data);
      if err != NoError {
        return 0, err;
      }
      n, err := wire.Write(data);
      SentPart(before, head, data, n, CRLF);
      if err != NoError {
        return;
      }
      if n != |data| {
        return n, ShortWrite;
      }
      k, err := wire.Write(CRLF);
      SentPart(before, head + data, CRLF, k, []);
      GivenParts(given, head, data);
    }

    /** Only the last chunk; the CRLF that ends the message is left to the caller. */
    method Close() returns (err: Error)
      modifies wire
      ensures err == NoError <==> wire.errors == old(wire.errors)
      ensures old(wire.log) <= wire.log && wire.given == old(wire.given) + LAST_CHUNK
      ensures wire.honest ==> Sent(old(wire.log), wire.log, LAST_CHUNK)
      ensures wire.honest && err == NoError ==> wire.log == old(wire.log) + LAST_CHUNK
    {
      var k;
      k, err := wire.Write(LAST_CHUNK);
      if wire.honest && err == NoError {
        assert LAST_CHUNK[..k] == LAST_CHUNK;
      }
    }
  }

  lemma {:induction false} ChunksAppend(pieces: seq<bytes>, i: nat)
    requires i < |pieces|
    ensures Chunks(pieces[..i + 1]) == Chunks(pieces[..i]) + Chunk(pieces[i])
  {
    ChunksPrefix(pieces[..i + 1], i);
    var last := pieces[..i + 1][i..];
    assert last == [pieces[i]] && last[1..] == [];
    assert pieces[..i + 1][..i] == pieces[..i];
  }

  lemma {:induction false} ChunksPrefix(pieces: seq<bytes>, i: nat)
    requires i <= |pieces|
    ensures Chunks(pieces) == Chunks(pieces[..i]) + Chunks(pieces[i..])
  {
    if i == 0 {
      assert pieces[..0] == [] && pieces[0..] == pieces;
      assert [] + Chunks(pieces) == Chunks(pieces);
    } else {
      ChunksPrefix(pieces[1..], i - 1);
      assert pieces[..i][1..] == pieces[1..][..i - 1] && pieces[1..][i - 1..] == pieces[i..];
      Reassociate(Chunk(pieces[0]), Chunks(pieces[..i][1..]), Chunks(pieces[i..]));
    }
  }

  lemma {:induction false} MessageFrom(pieces: seq<bytes>, i: nat)
    requires i < |pieces|
    ensures Message(pieces) == Chunks(pieces[..i]) + (Chunk(pieces[i]) + Message(pieces[i + 1..]))
  {
    ChunksPrefix(pieces, i);
    assert pieces[i..][1..] == pieces[i + 1..];
    Regroup(Chunks(pieces[..i]), Chunk(pieces[i]), Chunks(pieces[i + 1..]), LAST_CHUNK, CRLF);
  }

  lemma {:induction false} Regroup(a: bytes, b: bytes, c: bytes, d: bytes, e: bytes)
    ensures a + (b + c) + d + e == a + (b + (c + d + e))
  {
  }

  /** A failure after `i` whole pieces leaves a proper prefix of the message on the wire. */
  lemma {:induction false} SentStartsMessage(before: bytes, after: bytes, pieces: seq<bytes>, i: nat)
    requires i < |pieces| && Sent(before + Chunks(pieces[..i]), after, Chunk(pieces[i]))
    ensures Sent(before, after, Message(pieces)) && Decode(after[|before|..]) == Incomplete
  {
    MessageFrom(pieces, i);
    SentWhole(before, Chunks(pieces[..i]), after, Chunk(pieces[i]), Message(pieces[i + 1..]));
    assert |Message(pieces[i + 1..])| > 0;
    SentOrTruncated(before, after, pieces);
  }

  lemma {:induction false} SentOrTruncated(before: bytes, after: bytes, pieces: seq<bytes>)
    requires Sent(before, after, Message(pieces))
    ensures after == before + Message(pieces) || Decode(after[|before|..]) == Incomplete
  {
    var sent := after[|before|..];
    assert after == before + sent;
    assert sent == (before + Message(pieces))[|before|..|after|] == Message(pieces)[..|sent|];
    if sent != Message(pieces) {
      TruncationIsDetectable(pieces, sent);
    }
  }

  /** The part of a message behind its chunks, of which some or nothing has been sent. */
  lemma {:induction false} SentEnd(before: bytes, after: bytes, pieces: seq<bytes>, k: nat)
    requires k <= |LAST_CHUNK + CRLF| && after == before + Chunks(pieces) + (LAST_CHUNK + CRLF)[..k]
    ensures Sent(before, after, Message(pieces))
    ensures k == |LAST_CHUNK + CRLF| ==> after == before + Message(pieces)
    ensures k < |LAST_CHUNK + CRLF| ==> Decode(after[|before|..]) == Incomplete
  {
    assert Message(pieces) == Chunks(pieces) + (LAST_CHUNK + CRLF);
    SentPart(before, Chunks(pieces), LAST_CHUNK + CRLF, k, []);
    assert Chunks(pieces) + (LAST_CHUNK + CRLF) + [] == Message(pieces);
    SentOrTruncated(before, after, pieces);
  }

  lemma {:induction false} EndPart(b: bytes, log: bytes, k: nat)
    requires |log| == |b| + k
    requires if k <= 3 then Sent(b, log, LAST_CHUNK) else k <= 5 && log == b + LAST_CHUNK + CRLF[..k - 3]
    ensures log == b + (LAST_CHUNK + CRLF)[..k]
  {
    if k > 3 {
      assert (LAST_CHUNK + CRLF)[..k] == LAST_CHUNK + CRLF[..k - 3];
    }
  }

  /**
   * io.Copy into the chunked writer: it stops at the first failing Write. Once all is given without
   * an error it can only have failed over a wire that took less than it was given.
   */
  method CopyBody(chunked: ChunkedWriter, pieces: seq<bytes>) returns (ok: bool)
    modifies chunked.wire
    ensures ok ==> chunked.wire.errors == old(chunked.wire.errors)
    ensures chunked.wire.honest ==> (ok <==> chunked.wire.errors == old(chunked.wire.errors))
    ensures ok ==> chunked.wire.given == old(chunked.wire.given) + Chunks(pieces)
    ensures old(chunked.wire.log) <= chunked.wire.log
    ensures chunked.wire.honest && ok ==> chunked.wire.log == old(chunked.wire.log) + Chunks(pieces)
    ensures chunked.wire.honest && !ok ==>
              && Sent(old(chunked.wire.log), chunked.wire.log, Message(pieces))
              && Decode(chunked.wire.log[|old(chunked.wire.log)|..]) == Incomplete
  {
    ghost var before, given := chunked.wire.log, chunked.wire.given;
    for i := 0 to |pieces|
      invariant before <= chunked.wire.log && chunked.wire.errors == old(chunked.wire.errors)
      invariant chunked.wire.given == given + Chunks(pieces[..i])
      invariant chunked.wire.honest ==> chunked.wire.log == before + Chunks(pieces[..i])
    {
      var n, err := chunked.Write(pieces[i]);
      if err != NoError {
        if chunked.wire.honest {
          SentStartsMessage(before, chunked.wire.log, pieces, i);
        }
        return false;
      }
      ChunksAppend(pieces, i);
      Reassociate(before, Chunks(pieces[..i]), Chunk(pieces[i]));
      Reassociate(given, Chunks(pieces[..i]), Chunk(pieces[i]));
    }
    assert pieces[..|pieces|] == pieces;
    ok := true;
  }

  lemma {:induction false} Reassociate(a: bytes, b: bytes, c: bytes)
    ensures a + b + c == a + (b + c)
  {
  }

  /**
   * The tail of a response: the body, copied in whatever pieces it comes and possibly breaking
   * off with a read error behind them, the last chunk and the final CRLF. A response to HEAD has
   * none of this. `ok` is false where the source gives up on the connection.
   */
  method WriteBody(wire: Wire, isHead: bool, pieces: seq<bytes>, readFails: bool) returns (ok: bool)
    modifies wire
    ensures isHead ==> ok && wire.log == old(wire.log) && wire.given == old(wire.given)
    ensures old(wire.log) <= wire.log
    // It succeeds exactly if neither the body nor the wire reports an error.
    ensures wire.honest && !isHead ==> (ok <==> !readFails && wire.errors == old(wire.errors))
    ensures ok ==> wire.errors == old(wire.errors) && (readFails ==> isHead)
    ensures !isHead && ok ==> wire.given == old(wire.given) + Message(pieces)
    ensures wire.honest && !isHead && ok ==> wire.log == old(wire.log) + Message(pieces)
    ensures wire.honest && !isHead && !ok ==> Sent(old(wire.log), wire.log, Message(pieces))
    // A receiver of a body that was given up finds it incomplete, except when the error came
    // with the very last byte of it.
    ensures wire.honest && !isHead && !ok ==>
              || Decode(wire.log[|old(wire.log)|..]) == Incomplete
              || (!readFails && wire.log == old(wire.log) + Message(pieces))
  {
    if isHead {
      return true;
    }
    ghost var before, given := wire.log, wire.given;
    var chunked := new ChunkedWriter(wire);
    ok := CopyBody(chunked, pieces);
    if !ok {
      return;
    }
    if readFails {
      if wire.honest {
        EndPart(before + Chunks(pieces), wire.log, 0);
        SentEnd(before, wire.log, pieces, 0);
      }
      return false;
    }
    var err := chunked.Close();
    if err != NoError {
      if wire.honest {
        ghost var k := |wire.log| - |before + Chunks(pieces)|;
        EndPart(before + Chunks(pieces), wire.log, k);
        SentEnd(before, wire.log, pieces, k);
      }
      return false;
    }
    var k;
    k, err := wire.Write(CRLF);
    if wire.honest {
      EndPart(before + Chunks(pieces), wire.log, 3 + k);
      SentEnd(before, wire.log, pieces, 3 + k);
    }
    assert wire.given == given + Chunks(pieces) + LAST_CHUNK + CRLF == given + Message(pieces);
    ok := err == NoError;
  }
}
