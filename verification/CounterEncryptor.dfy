/**
 * The counter-mode byte generator of goproxy/counterecryptor.go.
 *
 * The block cipher is an arbitrary function on blocks. What it produces is compared with a
 * fixed keystream: block j is the encryption of the starting counter plus j, where the
 * counter is read as a little-endian number of as many bytes as a block has.
 */
module CounterEncryptor {
  import opened Bytes

  /** A keyed block cipher: the table of an arbitrary function on n-byte blocks. */
  type Cipher = map<seq<byte>, seq<byte>>

  ghost predicate BlockCipher(E: Cipher, n: nat) {
    n > 0 && forall b: seq<byte> {:trigger E[b]} {:trigger b in E} :: |b| == n ==> b in E && |E[b]| == n
  }

  ghost predicate Injective(E: Cipher, n: nat)
    requires BlockCipher(E, n)
  {
    forall a: seq<byte>, b: seq<byte> {:trigger E[a], E[b]} :: |a| == n && |b| == n && E[a] == E[b] ==> a == b
  }

  // ----- the reference keystream -----

  /** Adding one with carry, byte by byte from the least significant end. */
  function Increment(s: seq<byte>): (r: seq<byte>)
    ensures |r| == |s|
  {
    if s == [] then []
    else if s[0] == 255 then [0] + Increment(s[1..])
    else [s[0] + 1] + s[1..]
  }

  /** The counter after j increments. */
  function Plus(c: seq<byte>, j: nat): (r: seq<byte>)
    ensures |r| == |c|
    decreases j
  {
    if j == 0 then c else Plus(Increment(c), j - 1)
  }

  ghost function KeyBlock(E: Cipher, c: seq<byte>, j: nat): (b: seq<byte>)
    requires BlockCipher(E, |c|)
    ensures |b| == |c|
  {
    E[Plus(c, j)]
  }

  /** Byte i of the keystream that starts at counter c: the blocks of c, c + 1, ... one after the other. */
  ghost function KeyByte(E: Cipher, c: seq<byte>, i: nat): byte
    requires BlockCipher(E, |c|)
    decreases i
  {
    if i < |c| then E[c][i] else KeyByte(E, Plus(c, 1), i - |c|)
  }

  // ----- the generator as a value -----

  datatype Generator = Generator(counter: seq<byte>, rand: seq<byte>, ix: nat)

  ghost predicate Ok(E: Cipher, g: Generator) {
    BlockCipher(E, |g.counter|) && |g.rand| == |g.counter| && g.ix <= |g.rand|
  }

  /** The k-th byte still to come: the unread rest of the block in hand, then the keystream. */
  ghost function Upcoming(E: Cipher, g: Generator, k: nat): byte
    requires Ok(E, g)
  {
    var left := |g.rand| - g.ix;
    if k < left then g.rand[g.ix + k] else KeyByte(E, g.counter, k - left)
  }

  ghost function Refilled(E: Cipher, g: Generator): (g': Generator)
    requires Ok(E, g)
    ensures Ok(E, g')
  {
    Generator(Plus(g.counter, 1), E[g.counter], 0)
  }

  /** What one Read of a `size`-byte buffer returns, and the generator it leaves. */
  ghost function ReadOnce(E: Cipher, g: Generator, size: nat): (r: (seq<byte>, Generator))
    requires Ok(E, g)
    ensures Ok(E, r.1) && |r.0| <= size && (size > 0 ==> |r.0| > 0)
  {
    var f := if g.ix == |g.rand| then Refilled(E, g) else g;
    var n := if |f.rand| - f.ix > size then size else |f.rand| - f.ix;
    (f.rand[f.ix..f.ix + n], f.(ix := f.ix + n))
  }

  /** The concatenated output of successive Reads of the given sizes. */
  ghost function ReadAll(E: Cipher, g: Generator, sizes: seq<nat>): (r: (seq<byte>, Generator))
    requires Ok(E, g)
    ensures Ok(E, r.1)
    decreases |sizes|
  {
    if sizes == [] then ([], g)
    else
      var (out, g1) := ReadOnce(E, g, sizes[0]);
      var (rest, g2) := ReadAll(E, g1, sizes[1..]);
      (out + rest, g2)
  }

  // ----- facts about the keystream -----

  lemma {:induction false} PlusPlus(c: seq<byte>, i: nat, j: nat)
    ensures Plus(Plus(c, i), j) == Plus(c, i + j)
    decreases i
  {
    if i > 0 {
      PlusPlus(Increment(c), i - 1, j);
    }
  }

  lemma {:induction false} SplitSum(v: nat, i: nat, j: nat, m: nat)
    requires m >= 1
    ensures ((v + i) % m + j) % m == (v + (i + j)) % m
  {
    Split(j, v + i, m);
  }

  lemma {:induction false} OneThenMore(v: nat, v1: nat, j: nat, r: nat, m: nat)
    requires m >= 1 && j > 0 && v1 == (v + 1) % m && r == (v1 + (j - 1)) % m
    ensures r == (v + j) % m
  {
    SplitSum(v, 1, j - 1, m);
  }

  /** Incrementing j times adds j to the number that the counter denotes, modulo 256^n. */
  lemma {:induction false} PlusIsSum(c: seq<byte>, j: nat)
    ensures Value(Plus(c, j)) == (Value(c) + j) % Pow256(|c|)
    decreases j
  {
    var m := Pow256(|c|);
    if j == 0 {
      SmallMod(Value(c), m);
    } else {
      var c1 := Increment(c);
      assert Pow256(|c1|) == m;
      PlusIsSum(c1, j - 1);
      IncrementIsPlusOne(c);
      OneThenMore(Value(c), Value(c1), j, Value(Plus(c, j)), m);
    }
  }

  lemma {:induction false} DivNext(i: nat, n: nat)
    requires n > 0
    ensures (i + n) / n == 1 + i / n && (i + n) % n == i % n
  {
    AddMultiple(i, 1, n);
  }

  /** Byte i lies in the encryption of the counter plus i / n, at offset i % n. */
  lemma {:induction false} KeyByteIsBlockByte(E: Cipher, c: seq<byte>, i: nat)
    requires BlockCipher(E, |c|)
    ensures KeyByte(E, c, i) == KeyBlock(E, c, i / |c|)[i % |c|]
    decreases i
  {
    if i < |c| {
      ModUnique(i, |c|, 0, i);
    } else {
      KeyByteIsBlockByte(E, Plus(c, 1), i - |c|);
      PlusPlus(c, 1, (i - |c|) / |c|);
      DivNext(i - |c|, |c|);
    }
  }

  /** Refilling an exhausted generator does not change what is still to come. */
  lemma {:induction false} RefillKeepsStream(E: Cipher, g: Generator, k: nat)
    requires Ok(E, g) && g.ix == |g.rand|
    ensures Upcoming(E, Refilled(E, g), k) == Upcoming(E, g, k)
  {
  }

  /**
   * One Read returns the next bytes of the stream, as many as are asked for and left of the block or
   * of a new one, and leaves exactly the rest of it.
   */
  lemma {:induction false} ReadOnceIsNext(E: Cipher, g: Generator, size: nat, k: nat)
    requires Ok(E, g)
    ensures var left := if g.ix == |g.rand| then |g.counter| else |g.rand| - g.ix;
            |ReadOnce(E, g, size).0| == if size < left then size else left
    ensures k < |ReadOnce(E, g, size).0| ==> ReadOnce(E, g, size).0[k] == Upcoming(E, g, k)
    ensures Upcoming(E, ReadOnce(E, g, size).1, k) == Upcoming(E, g, |ReadOnce(E, g, size).0| + k)
  {
    if g.ix == |g.rand| {
      // The block in hand is used up, so this Read refills first.
      RefillKeepsStream(E, g, k);
      RefillKeepsStream(E, g, |ReadOnce(E, g, size).0| + k);
    }
  }

  ghost predicate Matches(E: Cipher, g: Generator, out: seq<byte>, k: nat)
    requires Ok(E, g) && k < |out|
  {
    out[k] == Upcoming(E, g, k)
  }

  ghost predicate Continues(E: Cipher, g: Generator, n: nat, g': Generator, k: nat)
    requires Ok(E, g) && Ok(E, g')
  {
    Upcoming(E, g', k) == Upcoming(E, g, n + k)
  }

  /** `out` is the start of g's stream, and g' stands right behind it. */
  ghost predicate Delivered(E: Cipher, g: Generator, out: seq<byte>, g': Generator)
    requires Ok(E, g) && Ok(E, g')
  {
    && (forall k :: 0 <= k < |out| ==> Matches(E, g, out, k))
    && (forall k: nat :: Continues(E, g, |out|, g', k))
  }

  lemma {:induction false} ReadExtends(E: Cipher, g: Generator, g1: Generator, before: seq<byte>, size: nat)
    requires Ok(E, g) && Ok(E, g1) && Delivered(E, g, before, g1)
    ensures var (out, g2) := ReadOnce(E, g1, size); Delivered(E, g, before + out, g2)
  {
    var (out, g2) := ReadOnce(E, g1, size);
    forall k: nat
      ensures Continues(E, g, |before + out|, g2, k)
    {
      ReadOnceIsNext(E, g1, size, k);
      assert Continues(E, g, |before|, g1, |out| + k);
    }
    forall k | 0 <= k < |before + out|
      ensures Matches(E, g, before + out, k)
    {
      if k < |before| {
        assert Matches(E, g, before, k);
      } else {
        ReadOnceIsNext(E, g1, size, k - |before|);
        assert Continues(E, g, |before|, g1, k - |before|);
      }
    }
  }

  lemma {:induction false} NothingDelivered(E: Cipher, g: Generator)
    requires Ok(E, g)
    ensures Delivered(E, g, [], g)
  {
  }

  lemma {:induction false} ReadAllExtends(E: Cipher, g: Generator, g1: Generator, before: seq<byte>, sizes: seq<nat>)
    requires Ok(E, g) && Ok(E, g1) && Delivered(E, g, before, g1)
    ensures var (out, g2) := ReadAll(E, g1, sizes); Delivered(E, g, before + out, g2)
    decreases |sizes|
  {
    if sizes == [] {
      assert before + [] == before;
    } else {
      var (first, mid) := ReadOnce(E, g1, sizes[0]);
      var (rest, g2) := ReadAll(E, mid, sizes[1..]);
      ReadExtends(E, g, g1, before, sizes[0]);
      ReadAllExtends(E, g, mid, before + first, sizes[1..]);
      assert before + first + rest == before + (first + rest);
    }
  }

  /**
   * Whatever the sizes of the Reads, their output is the stream from the current position, and the
   * generator then stands exactly as far along the stream as it has delivered.
   */
  lemma {:induction false} ReadAllIsStream(E: Cipher, g: Generator, sizes: seq<nat>, k: nat)
    requires Ok(E, g)
    ensures var (out, g') := ReadAll(E, g, sizes);
            && (k < |out| ==> out[k] == Upcoming(E, g, k))
            && Upcoming(E, g', k) == Upcoming(E, g, |out| + k)
  {
    var (out, g') := ReadAll(E, g, sizes);
    NothingDelivered(E, g);
    ReadAllExtends(E, g, g, [], sizes);
    assert [] + out == out;
    assert k < |out| ==> Matches(E, g, out, k);
    assert Continues(E, g, |out|, g', k);
  }

  /** Two histories of Reads of the same generator see one stream: the shorter output starts the longer. */
  lemma {:induction false} ReadSizesDoNotMatter(E: Cipher, g: Generator, sizes: seq<nat>, other: seq<nat>)
    requires Ok(E, g)
    requires |ReadAll(E, g, sizes).0| <= |ReadAll(E, g, other).0|
    ensures ReadAll(E, g, sizes).0 <= ReadAll(E, g, other).0
  {
    forall k | 0 <= k < |ReadAll(E, g, sizes).0|
      ensures ReadAll(E, g, sizes).0[k] == ReadAll(E, g, other).0[k]
    {
      ReadAllIsStream(E, g, sizes, k);
      ReadAllIsStream(E, g, other, k);
    }
  }

  /** A new generator delivers E(c), E(c+1), E(c+2), ... whatever sizes it is read with. */
  lemma {:induction false} NewGeneratorDeliversKeystream(
    E: Cipher, c: seq<byte>, junk: seq<byte>, sizes: seq<nat>, k: nat)
    requires BlockCipher(E, |c|) && |junk| == |c|
    requires k < |ReadAll(E, Generator(c, junk, |c|), sizes).0|
    ensures ReadAll(E, Generator(c, junk, |c|), sizes).0[k] == E[Plus(c, k / |c|)][k % |c|]
  {
    ReadAllIsStream(E, Generator(c, junk, |c|), sizes, k);
    KeyByteIsBlockByte(E, c, k);
  }

  /** With an injective cipher the keystream repeats with period 256^n blocks and no sooner. */
  lemma {:induction false} BlocksRepeatExactlyWithThePeriod(E: Cipher, c: seq<byte>, i: nat, j: nat)
    requires BlockCipher(E, |c|) && Injective(E, |c|)
    ensures KeyBlock(E, c, i) == KeyBlock(E, c, j) <==> i % Pow256(|c|) == j % Pow256(|c|)
  {
    var m := Pow256(|c|);
    ShiftedMod(Value(c), i, j, m);
    PlusIsSum(c, i);
    PlusIsSum(c, j);
    if i % m == j % m {
      ValueInjective(Plus(c, i), Plus(c, j));
    }
  }

  /**
   * Whatever Reads follow a Seed in mid-block, they deliver the unread rest of the old block first,
   * and then the encryptions of the new counter and its successors.
   */
  lemma {:induction false} SeedTakesEffectAtTheNextBlock(E: Cipher, g: Generator, c: seq<byte>, sizes: seq<nat>, k: nat)
    requires Ok(E, g) && |c| == |g.counter|
    requires k < |ReadAll(E, g.(counter := c), sizes).0|
    ensures var left := |g.rand| - g.ix;
            ReadAll(E, g.(counter := c), sizes).0[k]
            == if k < left then g.rand[g.ix + k] else E[Plus(c, (k - left) / |c|)][(k - left) % |c|]
  {
    ReadAllIsStream(E, g.(counter := c), sizes, k);
    if |g.rand| - g.ix <= k {
      KeyByteIsBlockByte(E, c, k - (|g.rand| - g.ix));
    }
  }

  // ----- the carry loop -----

  /** The carry computes the successor modulo 256^n. */
  lemma {:induction false} IncrementIsPlusOne(s: seq<byte>)
    ensures Value(Increment(s)) == (Value(s) + 1) % Pow256(|s|)
  {
    if s == [] {
    } else if s[0] == 255 {
      IncrementIsPlusOne(s[1..]);
      assert Increment(s)[1..] == Increment(s[1..]);
      CarryByParts(Value(s[1..]), Pow256(|s| - 1));
    } else {
      assert Increment(s)[1..] == s[1..];
      SmallMod(Value(s) + 1, Pow256(|s|));
    }
  }

  lemma {:induction false} CarryByParts(v: nat, p: nat)
    requires p >= 1
    ensures (256 * v + 256) % (256 * p) == 256 * ((v + 1) % p)
  {
    ModByParts(256 * (v + 1), p);
  }

  // ----- the generator as the source keeps it -----

  /** If the first non-255 byte is at i, incrementing clears the bytes below i and adds one there. */
  lemma {:induction false} IncrementShape(s: seq<byte>, i: nat)
    requires i <= |s| && (forall k :: 0 <= k < i ==> s[k] == 255) && (i < |s| ==> s[i] != 255)
    ensures forall k :: 0 <= k < |s| ==>
              Increment(s)[k] == if k < i then 0 else if k == i then s[k] + 1 else s[k]
  {
    if s == [] || i == 0 {
    } else {
      IncrementShape(s[1..], i - 1);
    }
  }

  /** The carry loop of a refill: bytes that wrap to zero pass the carry on, the first other byte ends it. */
  method CarryInto(counter: array<byte>)
    modifies counter
    ensures counter[..] == Increment(old(counter[..]))
  {
    ghost var was := counter[..];
    var i := 0;
    while i < counter.Length
      invariant 0 <= i <= counter.Length
      invariant forall k :: 0 <= k < i ==> was[k] == 255 && counter[k] == 0
      invariant forall k :: i <= k < counter.Length ==> counter[k] == was[k]
    {
      counter[i] := if counter[i] == 255 then 0 else counter[i] + 1;
      if counter[i] != 0 {
        break;
      }
      i := i + 1;
    }
    IncrementShape(was, i);
  }

  class CounterEncryptorRand {
    const cipher: Cipher
    const counter: array<byte>
    const rand: array<byte>
    var ix: nat

    ghost predicate Valid()
      reads this, counter, rand
    {
      counter != rand && Ok(cipher, Abs())
    }

    ghost function Abs(): Generator
      reads this, counter, rand
    {
      Generator(counter[..], rand[..], ix)
    }

    /** `start` is the counter block that the seed yields; the buffer starts fully consumed. */
    constructor (cipher: Cipher, start: seq<byte>)
      requires BlockCipher(cipher, |start|)
      ensures Valid() && fresh(counter) && fresh(rand)
      ensures this.cipher == cipher && counter[..] == start && ix == rand.Length
    {
      this.cipher := cipher;
      var c := new byte[|start|](i requires 0 <= i < |start| => start[i]);
      var r := new byte[|start|](i => 0);
      counter, rand, ix := c, r, |start|;
      assert c[..] == start;
    }

    /** Fails, where the source panics, unless `b` has the size of the counter. */
    method Seed(b: seq<byte>) returns (ok: bool)
      requires Valid()
      modifies counter
      ensures Valid() && ok == (|b| == counter.Length)
      ensures Abs() == if ok then old(Abs()).(counter := b) else old(Abs())
    {
      ok := |b| == counter.Length;
      if ok {
        forall i | 0 <= i < counter.Length {
          counter[i] := b[i];
        }
        assert counter[..] == b;
      }
    }

    /** Encrypts the counter into the buffer, then adds one to the counter in place. */
    method Refill()
      requires Valid()
      modifies this`ix, counter, rand
      ensures Valid()
      ensures Value(counter[..]) == (Value(old(counter[..])) + 1) % Pow256(counter.Length)
      ensures rand[..] == cipher[old(counter[..])]
      ensures Abs() == Refilled(cipher, old(Abs()))
    {
      ghost var was := counter[..];
      var block := cipher[counter[..]];
      forall i | 0 <= i < rand.Length {
        rand[i] := block[i];
      }
      assert rand[..] == block;
      assert counter[..] == was;
      CarryInto(counter);
      IncrementIsPlusOne(was);
      assert |was| == counter.Length;
      ix := 0;
    }

    /** Reads into the slice b[lo..hi]; `n` is the number of bytes delivered. */
    method Read(b: array<byte>, lo: nat, hi: nat) returns (n: nat)
      requires Valid() && b != counter && b != rand && lo <= hi <= b.Length
      modifies this`ix, counter, rand, b
      ensures Valid() && n <= hi - lo
      ensures hi > lo ==> n > 0
      ensures b[lo..lo + n] == ReadOnce(cipher, old(Abs()), hi - lo).0
      ensures b[..lo] == old(b[..lo]) && b[lo + n..] == old(b[lo + n..])
      ensures Abs() == ReadOnce(cipher, old(Abs()), hi - lo).1
    {
      if ix == rand.Length {
        Refill();
      }
      n := rand.Length - ix;
      if n > hi - lo {
        n := hi - lo;
      }
      var copied := Copy(b, lo, rand, ix, ix + n);
      ix := ix + n;
    }

    /** One more Read into a buffer whose first `done` bytes are filled. */
    method ReadMore(b: array<byte>, done: nat, ghost g: Generator) returns (n: nat)
      requires Valid() && b != counter && b != rand && done < b.Length
      requires Ok(cipher, g) && Delivered(cipher, g, b[..done], Abs())
      modifies this`ix, counter, rand, b
      ensures Valid() && 0 < n <= b.Length - done
      ensures Delivered(cipher, g, b[..done + n], Abs())
    {
      ghost var g1, before := Abs(), b[..done];
      n := Read(b, done, b.Length);
      assert b[..done + n] == before + b[done..done + n];
      ReadExtends(cipher, g, g1, before, b.Length - done);
    }

    /** The loop that a caller asking for a full buffer runs: it ends, with the next |b| bytes. */
    method ReadFull(b: array<byte>)
      requires Valid() && b != counter && b != rand
      modifies this`ix, counter, rand, b
      ensures Valid()
      ensures Delivered(cipher, old(Abs()), b[..], Abs())
    {
      ghost var g := Abs();
      var done := 0;
      while done < b.Length
        invariant Valid() && done <= b.Length
        invariant Delivered(cipher, g, b[..done], Abs())
      {
        var n := ReadMore(b, done, g);
        done := done + n;
      }
      assert b[..done] == b[..];
    }
  }
}
