/**
 * HandleImage of goproxy/ext/image/image.go: a response body is read by an image decoder
 * through a 16 KiB replay buffer, and rewound when it turns out not to be an image.
 */
module Image {
  import opened Bytes
  import opened Options
  import opened Regretable

  const KB := 1024

  datatype Kind = Jpeg | Png | Gif | OtherKind

  /**
   * What the image library makes of the bytes it read, and of the image that comes of them as PNG
   * and as JPEG; an encoding is None when the encoder fails.
   */
  datatype Decoded = Undecodable | Decodable(kind: Kind, png: Option<seq<byte>>, jpeg: Option<seq<byte>>)

  datatype Outcome = Returned | Panicked

  datatype Body = Original(src: Source) | Replay(rr: RegretableReader) | Buffered(content: seq<byte>)

  class Response {
    var status: int
    var contentType: string
    var body: Body

    constructor (status: int, contentType: string, body: Body)
      ensures this.status == status && this.contentType == contentType && this.body == body
    {
      this.status, this.contentType, this.body := status, contentType, body;
    }
  }

  const IMAGE_TYPES := ["image/jpeg", "image/pjpeg", "application/octet-stream", "image/png", "image/gif"]

  /** Equal to a listed type, or such a type followed by parameters. */
  predicate IsImage(contentType: string) {
    exists t :: t in IMAGE_TYPES && (contentType == t || t + ";" <= contentType)
  }

  predicate Handled(status: int, contentType: string) {
    IsImage(contentType) && status == 200
  }

  predicate EncodesAsPng(contentType: string, kind: Kind) {
    contentType == "image/gif" || contentType == "image/png"
    || (contentType == "application/octet-stream" && (kind == Png || kind == Gif))
  }

  predicate EncodesAsJpeg(contentType: string, kind: Kind) {
    contentType == "image/jpeg" || contentType == "image/pjpeg"
    || (contentType == "application/octet-stream" && kind == Jpeg)
  }

  /**
   * What becomes of an image by its type: GIF and PNG turn into PNG and say so, JPEG into JPEG, an
   * octet stream into either by what it holds, under its own name, and into nothing if that is
   * neither. Where the encoder fails the body stays the reader over the original.
   */
  predicate Reencoded(contentType: string, decoded: Decoded, newType: string, body: Body)
    requires decoded.Decodable?
  {
    var octets := contentType == "application/octet-stream";
    if contentType == "image/gif" || contentType == "image/png" then
      EncodedAs(decoded.png, body) && newType == if decoded.png.Some? then "image/png" else contentType
    else if contentType == "image/jpeg" || contentType == "image/pjpeg" || (octets && decoded.kind == Jpeg) then
      EncodedAs(decoded.jpeg, body) && newType == contentType
    else if octets && (decoded.kind == Png || decoded.kind == Gif) then
      EncodedAs(decoded.png, body) && newType == contentType
    else
      octets && body == Buffered([]) && newType == contentType
  }

  predicate EncodedAs(encoding: Option<seq<byte>>, body: Body) {
    match encoding
    case Some(content) => body == Buffered(content)
    case None => body.Replay?
  }

  /** The decoder reads buffers of whatever sizes it likes. */
  method Decode(rr: RegretableReader, sizes: seq<nat>)
    requires rr.Valid()
    modifies rr`overflow, rr`r, rr`w, rr.reader, rr.buf
    ensures rr.Valid() && rr.mark == old(rr.mark)
    ensures old(rr.Abs().pos) <= rr.Abs().pos && old(rr.reader.pos) <= rr.reader.pos
    ensures old(rr.Abs().pos == rr.reader.pos) ==> rr.Abs().pos == rr.reader.pos
  {
    for i := 0 to |sizes|
      invariant rr.Valid()
      invariant old(rr.Abs().pos) <= rr.Abs().pos && old(rr.reader.pos) <= rr.reader.pos
      invariant old(rr.Abs().pos == rr.reader.pos) ==> rr.Abs().pos == rr.reader.pos
    {
      var p := new byte[sizes[i]](_ => 0);
      var n, err := rr.Read(p);
    }
  }

  /** One Read, and another one behind it, on the stream of a new reader. */
  lemma {:induction false} ReadsInTurn(len: nat, n: nat, m: nat)
    requires n + m <= len
    ensures Run(Seekable(0, 0, 0), [Read(n)], len, 16 * KB)
    ensures After(Seekable(0, 0, 0), [Read(n)]) == Seekable(n, 0, n)
    ensures Run(Seekable(0, 0, 0), [Read(n), Read(m)], len, 16 * KB)
    ensures After(Seekable(0, 0, 0), [Read(n), Read(m)]) == Seekable(n + m, 0, n + m)
  {
    var s0, s1, s2 := Seekable(0, 0, 0), Seekable(n, 0, n), Seekable(n + m, 0, n + m);
    assert [Read(n)][1..] == [] && [Read(m)][1..] == [] && [Read(n), Read(m)][1..] == [Read(m)];
    assert Run(s1, [], len, 16 * KB) && Run(s2, [], len, 16 * KB);
    assert Run(s1, [Read(m)], len, 16 * KB) && After(s1, [Read(m)]) == s2;
  }

  /**
   * What a decoder takes of an image is not handed on when the result cannot be encoded, and nothing
   * is when it reads the image to the end. Up to 16 KiB, Regret would have brought all of it back.
   */
  lemma {:induction false} EncoderFailureLosesBytes(image: seq<byte>, taken: nat)
    requires 0 < taken <= |image| && taken <= 16 * KB
    ensures Run(Seekable(0, 0, 0), [Read(taken)], |image|, 16 * KB)
    ensures var end := After(Seekable(0, 0, 0), [Read(taken)]);
            && end.pos <= |image| && image[end.pos..] == image[taken..] != image
            && (taken == |image| ==> image[end.pos..] == [])
            && Allowed(end, Regret, |image|, 16 * KB) && Apply(end, Regret).pos == 0
  {
    ReadsInTurn(|image|, taken, 0);
  }

  /** A body from which a decoder reads 16 KiB and a byte more before it fails: Regret panics. */
  lemma {:induction false} LargeHeaderPanics(body: seq<byte>)
    requires |body| > 16 * KB
    ensures Run(Seekable(0, 0, 0), [Read(16 * KB), Read(1)], |body|, 16 * KB)
    ensures !Allowed(After(Seekable(0, 0, 0), [Read(16 * KB), Read(1)]), Regret, |body|, 16 * KB)
  {
    ReadsInTurn(|body|, 16 * KB, 1);
  }

  lemma {:induction false} ListedIsHandled(i: nat)
    requires i < |IMAGE_TYPES|
    ensures Handled(200, IMAGE_TYPES[i]) && !Handled(304, IMAGE_TYPES[i])
  {
    assert IMAGE_TYPES[i] in IMAGE_TYPES;
  }

  /** The types that are handled. */
  lemma {:induction false} TypesHandled(t: string)
    requires t == "image/gif" || t == "image/jpeg" || t == "image/pjpeg" || t == "image/png"
             || t == "application/octet-stream"
    ensures Handled(200, t) && !Handled(304, t)
  {
    var i := if t == "image/jpeg" then 0 else if t == "image/pjpeg" then 1
             else if t == "application/octet-stream" then 2 else if t == "image/png" then 3 else 4;
    ListedIsHandled(i);
  }

  /** And a type that only starts like one of them, which is not. */
  lemma {:induction false} LongerNameIsNot()
    ensures !Handled(200, "image/pngx")
  {
    var name := "image/pngx";
    assert |name| == 10 && name[6] == 'p' && name[9] == 'x';
    forall t | t in IMAGE_TYPES
      ensures name != t && !(t + ";" <= name)
    {
      assert |t| == 9 ==> (t + ";")[9] == ';';
      assert t == IMAGE_TYPES[0] || t == IMAGE_TYPES[1] || t == IMAGE_TYPES[2]
             || t == IMAGE_TYPES[3] || t == IMAGE_TYPES[4];
      assert |IMAGE_TYPES[0]| == 10 && IMAGE_TYPES[0][6] == 'j';
      assert |IMAGE_TYPES[1]| == 11 && |IMAGE_TYPES[2]| == 24 && |IMAGE_TYPES[3]| == 9 && |IMAGE_TYPES[4]| == 9;
    }
  }

  /** A content type that the check lets pass and the switch does not know. */
  lemma {:induction false} ParametersPass()
    ensures Handled(200, "image/png;x") && "image/png;x" !in IMAGE_TYPES
  {
    assert IMAGE_TYPES[3] == "image/png" && "image/png" in IMAGE_TYPES;
    assert "image/png" + ";" <= "image/png;x";
    assert |"image/png;x"| == 11;
  }

  /**
   * `sizes` are the reads that the decoder makes and `decoded` is what comes of them. The body
   * handed on is described by the bytes it still delivers; `pulled` counts the bytes that the
   * decoder took from the original body.
   */
  method HandleImage(resp: Response, src: Source, sizes: seq<nat>, decoded: Decoded)
    returns (outcome: Outcome, ghost pulled: nat)
    requires resp.body == Original(src) && src.Valid()
    modifies resp`body, resp`contentType, src
    ensures src.Valid() && pulled == src.pos - old(src.pos)
    // Not an image response: untouched.
    ensures !Handled(old(resp.status), old(resp.contentType)) ==>
              outcome == Returned && pulled == 0 && resp.body == Original(src)
              && resp.contentType == old(resp.contentType)
    // Not decodable: the original body byte for byte, unless the decoder read past the buffer.
    ensures Handled(old(resp.status), old(resp.contentType)) && decoded.Undecodable? ==>
              && (outcome == Panicked <==> pulled > 16384)
              && (outcome == Returned ==>
                    && resp.body.Replay? && resp.body.rr.Valid() && resp.body.rr.reader == src
                    && resp.body.rr.Remaining() == src.data[old(src.pos)..]
                    && resp.contentType == old(resp.contentType))
    // Decodable: a content type with parameters is handled but falls through the switch.
    ensures Handled(old(resp.status), old(resp.contentType)) && decoded.Decodable? ==>
              && (outcome == Panicked <==> old(resp.contentType) !in IMAGE_TYPES)
              && (outcome == Returned ==> Reencoded(old(resp.contentType), decoded, resp.contentType, resp.body))
    // Decodable but not encodable: what is handed on lacks what the decoder took, and nothing else.
    ensures Handled(old(resp.status), old(resp.contentType)) && decoded.Decodable?
            && outcome == Returned && resp.body.Replay? ==>
              && resp.body.rr.Valid() && resp.body.rr.reader == src
              && resp.body.rr.Remaining() == src.data[old(src.pos) + pulled..]
              && (resp.body.rr.Remaining() == src.data[old(src.pos)..] <==> pulled == 0)
  {
    pulled := 0;
    if !IsImage(resp.contentType) {
      return Returned, 0;
    }
    if resp.status != 200 {
      return Returned, 0;
    }
    ghost var start := src.pos;
    var regret := new RegretableReader.WithSize(src, 16 * KB);
    resp.body := Replay(regret);
    Decode(regret, sizes);
    pulled := src.pos - start;
    if decoded.Undecodable? {
      var ok := regret.Regret();
      return if ok then Returned else Panicked, pulled;
    }
    if EncodesAsPng(resp.contentType, decoded.kind) {
      if decoded.png.None? {
        return Returned, pulled;
      }
      if resp.contentType != "application/octet-stream" {
        resp.contentType := "image/png";
      }
      resp.body := Buffered(decoded.png.value);
    } else if EncodesAsJpeg(resp.contentType, decoded.kind) {
      if decoded.jpeg.None? {
        return Returned, pulled;
      }
      resp.body := Buffered(decoded.jpeg.value);
    } else if resp.contentType == "application/octet-stream" {
      resp.body := Buffered([]);
    } else {
      return Panicked, pulled;
    }
    outcome := Returned;
  }
}
