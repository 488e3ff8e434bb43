/** The content hash (common/files.cpp): a 64-bit FNV-1a loop with the program's own start
    value, fed piece by piece. */
module Fnv {

  import opened Octets

  const START: nat := 1469598103934665603
  const PRIME: nat := 1099511628211
  const FILE_CHUNK_SIZE: nat := 64 * 1024

  /** Exclusive or, bit by bit. */
  function Xor(a: nat, b: nat): nat
    decreases a + b
  {
    if a == 0 && b == 0 then 0 else (a % 2 + b % 2) % 2 + 2 * Xor(a / 2, b / 2)
  }

  /** What is multiplied: all but the low byte of the hash, and that byte mixed in. */
  function Low(hash: nat, b: byte): nat {
    hash - hash % 0x100 + Xor(hash % 0x100, b)
  }

  /** One round; a byte only touches the low eight bits before the multiplication. */
  function Mixed(hash: nat, b: byte): nat {
    Low(hash, b) * PRIME % TWO_64
  }

  function Updated(hash: nat, data: Bytes): nat {
    if data == [] then hash else Mixed(Updated(hash, data[..|data| - 1]), data[|data| - 1])
  }

  function Hash(data: Bytes): nat {
    Updated(START, data)
  }

  lemma {:induction false} UpdatedAppend(hash: nat, data: Bytes, b: byte)
    ensures Updated(hash, data + [b]) == Mixed(Updated(hash, data), b)
  {
    assert (data + [b])[..|data|] == data;
  }

  /** However the data is cut into pieces, the hash is that of the whole. */
  lemma {:induction false} UpdatedSplits(hash: nat, a: Bytes, b: Bytes)
    ensures Updated(hash, a + b) == Updated(Updated(hash, a), b)
  {
    if b == [] {
      assert a + b == a;
    } else {
      UpdatedSplits(hash, a, b[..|b| - 1]);
      assert (a + b)[..|a + b| - 1] == a + b[..|b| - 1];
    }
  }

  /* ------------------------------------------------------ changed bytes are noticed */

  /** The prime has an inverse among 64-bit numbers, so multiplying by it loses nothing. */
  const INVERSE: nat := 14886173955864302971

  lemma TimesPrime(a: nat, b: nat)
    requires a < TWO_64 && b < TWO_64 && a * PRIME % TWO_64 == b * PRIME % TWO_64
    ensures a == b
  {
    var i, j := a * PRIME / TWO_64, b * PRIME / TWO_64;
    assert a * PRIME - b * PRIME == (i - j) * TWO_64;
    assert PRIME * INVERSE == 1 + 887285111055 * TWO_64;
    assert (a - b) * PRIME * INVERSE == (i - j) * TWO_64 * INVERSE;
    assert a - b == ((i - j) * INVERSE - 887285111055 * (a - b)) * TWO_64;
  }

  lemma XorHalf(a: nat, b: nat)
    ensures Xor(a, b) / 2 == Xor(a / 2, b / 2) && Xor(a, b) % 2 == (a % 2 + b % 2) % 2
  {
  }

  lemma Undone(a: nat, b: nat, x: nat, y: nat)
    requires x % 2 == (a % 2 + b % 2) % 2 && y % 2 == (x % 2 + b % 2) % 2 && y / 2 == a / 2
    ensures y == a
  {
  }

  lemma {:induction false} XorUndoes(a: nat, b: nat)
    ensures Xor(Xor(a, b), b) == a
    decreases a + b
  {
    if a != 0 || b != 0 {
      XorUndoes(a / 2, b / 2);
      XorHalf(a, b);
      XorHalf(Xor(a, b), b);
      Undone(a, b, Xor(a, b), Xor(Xor(a, b), b));
    }
  }

  lemma {:induction false} XorTells(a: nat, b: nat)
    ensures Xor(a, Xor(a, b)) == b
    decreases a + b
  {
    if a != 0 || b != 0 {
      XorTells(a / 2, b / 2);
      XorHalf(a, b);
      XorHalf(a, Xor(a, b));
      Undone(b, a, Xor(a, b), Xor(a, Xor(a, b)));
    }
  }

  function Power(bits: nat): nat {
    if bits == 0 then 1 else 2 * Power(bits - 1)
  }

  lemma {:induction false} XorFits(a: nat, b: nat, bits: nat)
    requires a < Power(bits) && b < Power(bits)
    ensures Xor(a, b) < Power(bits)
  {
    if bits > 0 { XorFits(a / 2, b / 2, bits - 1); }
  }

  lemma XorOfBytes(a: byte, b: byte)
    ensures Xor(a, b) < 0x100
  {
    assert Power(4) == 16 && Power(8) == 0x100;
    XorFits(a, b, 8);
  }

  lemma LowFits(hash: nat, b: byte)
    requires hash < TWO_64
    ensures Low(hash, b) < TWO_64 && Low(hash, b) / 0x100 == hash / 0x100 && Low(hash, b) % 0x100 == Xor(hash % 0x100, b)
  {
    XorOfBytes(hash % 0x100, b);
    LowByte(hash, hash / 0x100, hash % 0x100, Xor(hash % 0x100, b));
  }

  lemma LowByte(hash: nat, high: nat, low: nat, mixed: nat)
    requires hash == high * 0x100 + low < TWO_64 && low < 0x100 && mixed < 0x100
    ensures var n := hash - low + mixed; n < TWO_64 && n / 0x100 == high && n % 0x100 == mixed
  {
  }

  /** Different hashes stay different over the same byte, and the same hash becomes different
      over different bytes. */
  lemma MixedApart(h: nat, g: nat, x: byte, y: byte)
    requires h < TWO_64 && g < TWO_64 && Mixed(h, x) == Mixed(g, y) && (h == g || x == y)
    ensures h == g && x == y
  {
    LowFits(h, x);
    LowFits(g, y);
    TimesPrime(Low(h, x), Low(g, y));
    XorUndoes(h % 0x100, x);
    XorUndoes(g % 0x100, y);
    XorTells(h % 0x100, x);
    XorTells(g % 0x100, y);
  }

  lemma {:induction false} UpdatedApart(h: nat, g: nat, data: Bytes)
    requires h < TWO_64 && g < TWO_64 && h != g
    ensures Updated(h, data) != Updated(g, data) && Updated(h, data) < TWO_64 && Updated(g, data) < TWO_64
  {
    if data != [] {
      var front, last := data[..|data| - 1], data[|data| - 1];
      UpdatedApart(h, g, front);
      if Mixed(Updated(h, front), last) == Mixed(Updated(g, front), last) {
        MixedApart(Updated(h, front), Updated(g, front), last, last);
      }
    }
  }

  lemma UpdatedFits(hash: nat, data: Bytes)
    requires hash < TWO_64
    ensures Updated(hash, data) < TWO_64
  {
  }

  /** Two files that differ in one byte have different hashes, wherever the byte is. */
  lemma ChangedByteShows(before: Bytes, x: byte, y: byte, after: Bytes)
    requires x != y
    ensures Hash(before + [x] + after) != Hash(before + [y] + after)
  {
    var h := Hash(before);
    UpdatedFits(START, before);
    UpdatedAppend(START, before, x);
    UpdatedAppend(START, before, y);
    if Mixed(h, x) == Mixed(h, y) { MixedApart(h, h, x, y); }
    UpdatedSplits(START, before + [x], after);
    UpdatedSplits(START, before + [y], after);
    UpdatedApart(Mixed(h, x), Mixed(h, y), after);
  }

  class Fnv1a {
    var hash: nat

    constructor ()
      ensures hash == START
    {
      hash := START;
    }

    method Update(data: Bytes)
      modifies this
      ensures hash == Updated(old(hash), data)
    {
      for i := 0 to |data|
        invariant hash == Updated(old(hash), data[..i])
      {
        UpdatedAppend(old(hash), data[..i], data[i]);
        assert data[..i + 1] == data[..i] + [data[i]];
        hash := Mixed(hash, data[i]);
      }
      assert data[..|data|] == data;
    }
  }

  lemma HashGrows(file: Bytes, pos: nat, next: nat)
    requires pos <= next <= |file|
    ensures Hash(file[..next]) == Updated(Hash(file[..pos]), file[pos..next])
  {
    UpdatedSplits(START, file[..pos], file[pos..next]);
    Glue(file, pos, next);
  }

  /** hash_fd: a file of known size, read in chunks; false if it ends early. */
  method HashChunks(file: Bytes, size: nat) returns (ok: bool, hash: nat)
    ensures ok <==> size <= |file|
    ensures ok ==> hash == Hash(file[..size])
  {
    var fnv := new Fnv1a();
    var pos := 0;
    hash := 0;
    while pos < size
      invariant pos <= size && pos <= |file| && fnv.hash == Hash(file[..pos])
    {
      var chunk := if size - pos < FILE_CHUNK_SIZE then size - pos else FILE_CHUNK_SIZE;
      if pos + chunk > |file| { return false, 0; }
      fnv.Update(file[pos..pos + chunk]);
      HashGrows(file, pos, pos + chunk);
      pos := pos + chunk;
    }
    return true, fnv.hash;
  }
}
