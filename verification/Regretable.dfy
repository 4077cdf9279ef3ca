/**
 * The replay buffer of goproxy/regretable/regretreader.go over an arbitrary reader,
 * against a simple model of a seekable stream with one mark.
 */
module Regretable {
  import opened Bytes

  datatype Error = NoError | EOF | Failure

  /**
   * An arbitrary io.Reader. It delivers the bytes of `data` in order, any number of them at
   * a time up to the size of the buffer, with or without an error; it may scribble on the
   * rest of the buffer; it reports EOF only at the end.
   */
  class Source {
    const data: seq<byte>
    var pos: nat
    ghost var asked: nat       // how often it was read
    ghost var room: nat        // into how large a buffer the last time
    ghost var reported: Error  // and what it reported then

    predicate Valid()
      reads this
    {
      pos <= |data|
    }

    constructor (data: seq<byte>)
      ensures Valid() && this.data == data && pos == 0 && asked == 0
    {
      this.data, pos, asked, room, reported := data, 0, 0, 0, NoError;
    }

    method Read(p: array<byte>) returns (n: nat, err: Error)
      requires Valid()
      modifies this, p
      ensures Valid() && n <= p.Length && pos == old(pos) + n
      ensures asked == old(asked) + 1 && room == p.Length && reported == err
      ensures p[..n] == data[old(pos)..pos]
      ensures err == EOF ==> pos == |data|
    {
      n :| n <= p.Length && pos + n <= |data|;
      err :| err == EOF ==> pos + n == |data|;
      forall i | 0 <= i < n {
        p[i] := data[pos + i];
      }
      pos, asked, room, reported := pos + n, asked + 1, p.Length, err;
    }
  }

  // ----- the simple stream -----

  /**
   * Positions in the underlying data: where reading goes on, where Regret goes back to, and
   * how far the underlying reader has been pulled.
   */
  datatype Seekable = Seekable(pos: nat, mark: nat, high: nat)

  datatype Op = Read(n: nat) | Regret | Forget

  predicate Wf(s: Seekable, len: nat) {
    s.mark <= s.pos <= s.high <= len
  }

  /** A Read replays at most what was pulled, or pulls more; rewinding needs all of it in the buffer. */
  predicate Allowed(s: Seekable, op: Op, len: nat, capacity: nat) {
    match op
    case Read(n) => s.pos + n <= if s.pos < s.high then s.high else len
    case Regret => s.high - s.mark <= capacity
    case Forget => s.high - s.mark <= capacity
  }

  function Apply(s: Seekable, op: Op): Seekable {
    match op
    case Read(n) => Seekable(s.pos + n, s.mark, if s.pos + n > s.high then s.pos + n else s.high)
    case Regret => s.(pos := s.mark)
    case Forget => Seekable(s.high, s.high, s.high)
  }

  predicate Run(s: Seekable, ops: seq<Op>, len: nat, capacity: nat)
    decreases |ops|
  {
    ops == [] || (Wf(s, len) && Allowed(s, ops[0], len, capacity) && Run(Apply(s, ops[0]), ops[1..], len, capacity))
  }

  function After(s: Seekable, ops: seq<Op>): Seekable
    decreases |ops|
  {
    if ops == [] then s else After(Apply(s, ops[0]), ops[1..])
  }

  /**
   * What the reader ends up having seen, starting from `seen` of which the last `s.pos - s.mark`
   * bytes can still be taken back: Read appends the delivered bytes, Regret takes them back.
   */
  function Seen(data: seq<byte>, s: Seekable, seen: seq<byte>, ops: seq<Op>): seq<byte>
    requires Run(s, ops, |data|, |data|) && Wf(s, |data|) && s.pos - s.mark <= |seen|
    decreases |ops|
  {
    if ops == [] then seen
    else
      var s' := Apply(s, ops[0]);
      match ops[0]
      case Read(n) => Seen(data, s', seen + data[s.pos..s.pos + n], ops[1..])
      case Regret => Seen(data, s', seen[..|seen| - (s.pos - s.mark)], ops[1..])
      case Forget => Seen(data, s', seen, ops[1..])
  }

  /** How many bytes Forget drops unread over a run: those regretted and not read again. */
  function Dropped(s: Seekable, ops: seq<Op>): nat
    requires s.pos <= s.high && s.mark <= s.high
    decreases |ops|
  {
    if ops == [] then 0
    else (if ops[0] == Forget then s.high - s.pos else 0) + Dropped(Apply(s, ops[0]), ops[1..])
  }

  /** The buffer size only decides which rewinds are allowed. */
  lemma {:induction false} RunWithLargerBuffer(s: Seekable, ops: seq<Op>, len: nat, capacity: nat)
    requires Run(s, ops, len, capacity)
    ensures Run(s, ops, len, len)
    decreases |ops|
  {
    if ops == [] {
    } else {
      RunWithLargerBuffer(Apply(s, ops[0]), ops[1..], len, capacity);
    }
  }

  /** `seen` ends with the data from the mark to the position, and lacks `gap` bytes in all. */
  predicate SeenUpTo(data: seq<byte>, s: Seekable, seen: seq<byte>, gap: nat) {
    && Wf(s, |data|)
    && |seen| + gap == s.pos
    && s.pos - s.mark <= |seen|
    && seen[|seen| - (s.pos - s.mark)..] == data[s.mark..s.pos]
    && (gap == 0 ==> seen == data[..s.pos])
  }

  lemma {:induction false} ReadExtendsSeen(data: seq<byte>, s: Seekable, seen: seq<byte>, gap: nat, n: nat)
    requires SeenUpTo(data, s, seen, gap) && Allowed(s, Read(n), |data|, |data|)
    ensures SeenUpTo(data, Apply(s, Read(n)), seen + data[s.pos..s.pos + n], gap)
  {
    var more, at := data[s.pos..s.pos + n], |seen| - (s.pos - s.mark);
    assert (seen + more)[at..] == seen[at..] + more;
    assert data[s.mark..s.pos] + more == data[s.mark..s.pos + n];
    assert data[..s.pos] + more == data[..s.pos + n];
  }

  lemma {:induction false} RegretTakesBackSeen(data: seq<byte>, s: Seekable, seen: seq<byte>, gap: nat)
    requires SeenUpTo(data, s, seen, gap)
    ensures SeenUpTo(data, Apply(s, Regret), seen[..|seen| - (s.pos - s.mark)], gap)
  {
  }

  lemma {:induction false} SeenOverRun(data: seq<byte>, s: Seekable, seen: seq<byte>, ops: seq<Op>, gap: nat)
    requires Run(s, ops, |data|, |data|) && SeenUpTo(data, s, seen, gap)
    ensures SeenUpTo(data, After(s, ops), Seen(data, s, seen, ops), gap + Dropped(s, ops))
    decreases |ops|
  {
    if ops == [] {
    } else {
      var s' := Apply(s, ops[0]);
      match ops[0]
      case Read(n) =>
        ReadExtendsSeen(data, s, seen, gap, n);
        SeenOverRun(data, s', seen + data[s.pos..s.pos + n], ops[1..], gap);
      case Regret =>
        RegretTakesBackSeen(data, s, seen, gap);
        SeenOverRun(data, s', seen[..|seen| - (s.pos - s.mark)], ops[1..], gap);
      case Forget =>
        SeenOverRun(data, s', seen, ops[1..], gap + (s.high - s.pos));
    }
  }

  /**
   * Over any interleaving of Reads, Regrets and Forgets, what the reader has seen since the
   * mark is exactly the data from the mark to its position; what it has seen in all is the data
   * up to its position exactly when no Forget dropped regretted bytes that were not read again.
   */
  lemma {:induction false} ReaderSeesTheStream(data: seq<byte>, ops: seq<Op>, capacity: nat)
    requires Run(Seekable(0, 0, 0), ops, |data|, capacity)
    ensures Run(Seekable(0, 0, 0), ops, |data|, |data|)
    ensures var end := After(Seekable(0, 0, 0), ops);
            var out := Seen(data, Seekable(0, 0, 0), [], ops);
            && Wf(end, |data|)
            && end.pos - end.mark <= |out|
            && out[|out| - (end.pos - end.mark)..] == data[end.mark..end.pos]
            && |out| + Dropped(Seekable(0, 0, 0), ops) == end.pos
            && (out == data[..end.pos] <==> Dropped(Seekable(0, 0, 0), ops) == 0)
  {
    RunWithLargerBuffer(Seekable(0, 0, 0), ops, |data|, capacity);
    SeenOverRun(data, Seekable(0, 0, 0), [], ops, 0);
  }

  function Total(sizes: seq<nat>): nat {
    if sizes == [] then 0 else sizes[0] + Total(sizes[1..])
  }

  function Reads(sizes: seq<nat>): seq<Op> {
    if sizes == [] then [] else [Read(sizes[0])] + Reads(sizes[1..])
  }

  lemma {:induction false} ReadsAddUp(s: Seekable, sizes: seq<nat>, len: nat, capacity: nat)
    requires s.pos == s.high && Wf(s, len) && s.pos + Total(sizes) <= len
    ensures Run(s, Reads(sizes), len, capacity)
    ensures After(s, Reads(sizes)) == Seekable(s.pos + Total(sizes), s.mark, s.pos + Total(sizes))
    decreases |sizes|
  {
    if sizes != [] {
      assert Reads(sizes)[1..] == Reads(sizes[1..]);
      ReadsAddUp(Apply(s, Read(sizes[0])), sizes[1..], len, capacity);
    }
  }

  /**
   * After Reads of any sizes from the mark, taking them back and forgetting them both work exactly
   * if their bytes fit in the buffer; then they lead to the mark and to the bytes not read yet.
   */
  lemma {:induction false} RewindsWhatFits(mark: nat, sizes: seq<nat>, len: nat, capacity: nat)
    requires mark + Total(sizes) <= len
    ensures var start, end := Seekable(mark, mark, mark), After(Seekable(mark, mark, mark), Reads(sizes));
            && Run(start, Reads(sizes), len, capacity)
            && (Allowed(end, Regret, len, capacity) <==> Total(sizes) <= capacity)
            && (Allowed(end, Forget, len, capacity) <==> Total(sizes) <= capacity)
            && Apply(end, Regret).pos == mark && Apply(end, Forget).pos == mark + Total(sizes)
  {
    ReadsAddUp(Seekable(mark, mark, mark), sizes, len, capacity);
  }

  /** Forgetting right after a Regret loses data: here the two bytes read are never seen again. */
  lemma {:induction false} ForgetAfterRegretLoses()
    ensures var ops := [Read(2), Regret, Forget, Read(1)];
            && Run(Seekable(0, 0, 0), ops, 3, 500)
            && Dropped(Seekable(0, 0, 0), ops) == 2
            && After(Seekable(0, 0, 0), ops).pos == 3
  {
    var s0 := Seekable(0, 0, 0);
    var s1 := Apply(s0, Read(2));
    var s2 := Apply(s1, Regret);
    var s3 := Apply(s2, Forget);
    assert s3 == Seekable(2, 2, 2);
    var ops := [Read(2), Regret, Forget, Read(1)];
    assert ops[1..] == [Regret, Forget, Read(1)];
    assert ops[1..][1..] == [Forget, Read(1)];
    assert ops[1..][1..][1..] == [Read(1)];
    assert ops[1..][1..][1..][1..] == [];
    var s4 := Apply(s3, Read(1));
    assert Run(s3, [Read(1)], 3, 500) && After(s3, [Read(1)]) == s4 && Dropped(s3, [Read(1)]) == 0;
    assert Run(s2, ops[1..][1..], 3, 500) && After(s2, ops[1..][1..]) == s4 && Dropped(s2, ops[1..][1..]) == 2;
    assert Run(s1, ops[1..], 3, 500) && After(s1, ops[1..]) == s4 && Dropped(s1, ops[1..]) == 2;
  }

  // ----- the reader as the source keeps it -----

  /**
   * The buffer holds what was pulled since the mark, all of it unless it overflowed, which it did
   * exactly if it was too small; `r` of the `w` buffered bytes have been delivered.
   */
  ghost predicate Consistent(data: seq<byte>, pos: nat, mark: nat, buf: seq<byte>, overflow: bool, r: nat, w: nat) {
    && mark <= pos <= |data|
    && w <= |buf|
    && (overflow ==> pos > mark + |buf|)
    && (!overflow ==> r <= w && pos == mark + w && buf[..w] == data[mark..pos])
  }

  lemma {:induction false} ReplayIsStream(data: seq<byte>, pos: nat, mark: nat, buf: seq<byte>, r: nat, w: nat, n: nat)
    requires Consistent(data, pos, mark, buf, false, r, w) && r + n <= w
    ensures buf[r..r + n] == data[mark + r..mark + r + n]
  {
    var rest := data[mark..pos];
    assert buf[r..r + n] == buf[..w][r..r + n] == rest[r..r + n];
    var ours, theirs := rest[r..r + n], data[mark + r..mark + r + n];
    assert forall i :: 0 <= i < n ==> ours[i] == theirs[i];
  }

  lemma {:induction false} PullKeepsConsistent(
    data: seq<byte>, pos: nat, mark: nat, buf: seq<byte>, w: nat, n: nat, buf': seq<byte>, bn: nat)
    requires Consistent(data, pos, mark, buf, false, w, w) && pos + n <= |data|
    requires |buf'| == |buf| && bn == if |buf| - w < n then |buf| - w else n
    requires buf'[..w] == buf[..w] && buf'[w..w + bn] == data[pos..pos + n][..bn]
    ensures Consistent(data, pos + n, mark, buf', bn < n, w + n, w + bn)
  {
    assert buf'[..w + bn] == buf'[..w] + buf'[w..w + bn];
    assert data[mark..pos + bn] == data[mark..pos] + data[pos..pos + n][..bn];
  }

  const DEFAULT_BUFFER_SIZE := 500

  class RegretableReader {
    const reader: Source
    const buf: array<byte>
    var overflow: bool
    var r: nat
    var w: nat
    ghost var mark: nat  // where buf[0] lies in the underlying data

    ghost predicate Valid()
      reads this, reader, buf
    {
      Consistent(reader.data, reader.pos, mark, buf[..], overflow, r, w)
    }

    ghost function Abs(): Seekable
      reads this, reader
    {
      Seekable(if overflow then reader.pos else mark + r, mark, reader.pos)
    }

    /** The bytes this reader still delivers. */
    ghost function Remaining(): seq<byte>
      reads this, reader, buf
      requires Valid()
    {
      reader.data[Abs().pos..]
    }

    constructor WithSize(r: Source, size: nat)
      requires r.Valid()
      ensures Valid() && fresh(buf) && reader == r && buf.Length == size
      ensures Abs() == Seekable(r.pos, r.pos, r.pos) && !overflow
    {
      reader := r;
      buf := new byte[size](i => 0);
      overflow, this.r, w, mark := false, 0, 0, r.pos;
    }

    constructor (r: Source)
      requires r.Valid()
      ensures Valid() && fresh(buf) && reader == r && buf.Length == 500
      ensures Abs() == Seekable(r.pos, r.pos, r.pos) && !overflow
    {
      reader := r;
      buf := new byte[DEFAULT_BUFFER_SIZE](i => 0);
      overflow, this.r, w, mark := false, 0, 0, r.pos;
    }

    method Read(p: array<byte>) returns (n: nat, err: Error)
      requires Valid() && p != buf
      modifies this`overflow, this`r, this`w, reader, buf, p
      ensures Valid() && n <= p.Length
      ensures Allowed(old(Abs()), Op.Read(n), |reader.data|, buf.Length)
      ensures Abs() == Apply(old(Abs()), Op.Read(n))
      // Always the contiguous bytes from the logical position, in the overflowing Read too.
      ensures p[..n] == reader.data[old(Abs().pos)..Abs().pos]
      ensures overflow <==> Abs().high - Abs().mark > buf.Length
      // Pulled bytes are replayed, as many as fit, before the underlying reader is asked again.
      ensures old(Abs().pos < Abs().high) ==>
                reader.pos == old(reader.pos) && err == NoError
                && n == if p.Length < old(Abs().high - Abs().pos) then p.Length else old(Abs().high - Abs().pos)
      // Otherwise it is asked, once and for as much, and what it reports is handed on.
      ensures old(Abs().pos < Abs().high) ==> reader.asked == old(reader.asked)
      ensures old(Abs().pos == Abs().high) ==>
                reader.asked == old(reader.asked) + 1 && reader.room == p.Length && err == reader.reported
      ensures err == EOF ==> Remaining() == []
    {
      if overflow {
        n, err := reader.Read(p);
      } else if r < w {
        n := Replay(p);
        err := NoError;
      } else {
        n, err := Pull(p);
      }
    }

    /** The branch of Read that serves regretted bytes from the buffer. */
    method Replay(p: array<byte>) returns (n: nat)
      requires Valid() && p != buf && !overflow && r < w
      modifies this`r, p
      ensures Valid() && n == if p.Length < w - old(r) then p.Length else w - old(r)
      ensures r == old(r) + n <= w
      ensures p[..n] == reader.data[mark + old(r)..mark + r]
    {
      n := Copy(p, 0, buf, r, w);
      ReplayIsStream(reader.data, reader.pos, mark, buf[..], r, w, n);
      r := r + n;
    }

    /** The branch of Read that asks the underlying reader and keeps what fits. */
    method Pull(p: array<byte>) returns (n: nat, err: Error)
      requires Valid() && p != buf && !overflow && r == w
      modifies this`overflow, this`r, this`w, reader, buf, p
      ensures Valid() && n <= p.Length && reader.pos == old(reader.pos) + n
      ensures p[..n] == reader.data[old(reader.pos)..reader.pos]
      ensures !overflow ==> r == w
      ensures reader.asked == old(reader.asked) + 1 && reader.room == p.Length && err == reader.reported
      ensures err == EOF ==> reader.pos == |reader.data|
    {
      ghost var was := buf[..];
      n, err := reader.Read(p);
      ghost var got := p[..n];
      var bn := Copy(buf, w, p, 0, n);
      PullKeepsConsistent(reader.data, old(reader.pos), mark, was, w, n, buf[..], bn);
      w, r := w + bn, w + n;
      if bn < n {
        overflow := true;
      }
    }

    /** Fails, where the source panics, once the buffer has overflowed. */
    method Regret() returns (ok: bool)
      requires Valid()
      modifies this`r
      ensures Valid()
      ensures ok <==> Allowed(Abs(), Op.Regret, |reader.data|, buf.Length)
      ensures Abs() == if ok then Apply(old(Abs()), Op.Regret) else old(Abs())
    {
      ok := !overflow;
      if ok {
        r := 0;
      }
    }

    /** Fails, where the source panics, once the buffer has overflowed. */
    method Forget() returns (ok: bool)
      requires Valid()
      modifies this`r, this`w, this`mark
      ensures Valid()
      ensures ok <==> Allowed(old(Abs()), Op.Forget, |reader.data|, buf.Length)
      ensures Abs() == if ok then Apply(old(Abs()), Op.Forget) else old(Abs())
    {
      ok := !overflow;
      if ok {
        r, w, mark := 0, 0, reader.pos;
      }
    }
  }
}
