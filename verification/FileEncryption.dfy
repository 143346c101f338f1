/** Chunked encryption of a file: the nonce counted up in place between chunks, and the layout of
  the output.  Sealing itself is a parameter. */
module FileEncryption {
  import opened Options

  type Byte = x: int | 0 <= x < 256

  type Bytes = seq<Byte>

  const SIGNATURE_LENGTH: nat := 65
  const TAG_LENGTH: nat := 16

  // ----- the counter

  function Power256(n: nat): (p: nat)
    ensures p > 0
  {
    if n == 0 then 1 else 256 * Power256(n - 1)
  }

  /** The number the bytes spell, most significant first. */
  function ValueOf(s: Bytes): (v: nat)
    ensures v < Power256(|s|)
  {
    if s == [] then 0 else 256 * ValueOf(s[..|s| - 1]) + s[|s| - 1]
  }

  /** A first byte counts as often as there are values of the bytes behind it. */
  lemma {:induction false} MostSignificantFirst(b: Byte, s: Bytes)
    ensures ValueOf([b] + s) == b * Power256(|s|) + ValueOf(s)
  {
    if s == [] {
      assert [b] + s == [b];
    } else {
      var n := |s| - 1;
      assert ([b] + s)[..n + 1] == [b] + s[..n];
      MostSignificantFirst(b, s[..n]);
      Shifted(b, Power256(n), ValueOf(s[..n]), s[n]);
    }
  }

  lemma Shifted(b: int, p: int, v: int, last: int)
    ensures 256 * (b * p + v) + last == b * (256 * p) + (256 * v + last)
  {
  }

  function Successor(s: Bytes): (r: Bytes)
    ensures |r| == |s|
  {
    if s == [] then []
    else
      var n := |s| - 1;
      if s[n] < 255 then s[..n] + [s[n] + 1] else Successor(s[..n]) + [0]
  }

  /** Adds one in place: from the last byte up, until a byte does not wrap around. */
  method IncrementNonce(counter: array<Byte>)
    modifies counter
    ensures counter[..] == Successor(old(counter[..]))
  {
    ghost var start := counter[..];
    var i := counter.Length;
    assert start[..i] == start && counter[i..] == [];
    while i > 0
      invariant 0 <= i <= counter.Length
      invariant counter[..i] == start[..i]
      invariant Successor(start) == Successor(start[..i]) + counter[i..]
    {
      i := i - 1;
      assert start[..i + 1][..i] == start[..i] && start[i] == counter[i];
      ghost var tail := counter[i + 1..];
      counter[i] := if counter[i] == 255 then 0 else counter[i] + 1;
      assert counter[i..] == [counter[i]] + tail;
      if counter[i] != 0 {
        assert counter[..] == counter[..i] + counter[i..];
        return;
      }
    }
  }

  /** One more than `v`, or zero after the last of `p` numbers. */
  function Next(v: nat, p: nat): nat {
    if v + 1 == p then 0 else v + 1
  }

  lemma {:induction false} SuccessorCounts(s: Bytes)
    ensures ValueOf(Successor(s)) == Next(ValueOf(s), Power256(|s|))
  {
    if s != [] {
      var n, r := |s| - 1, Successor(s);
      if s[n] < 255 {
        assert r[..n] == s[..n];
      } else {
        SuccessorCounts(s[..n]);
        assert r[..n] == Successor(s[..n]);
      }
    }
  }

  lemma {:induction false} ValueIsInjective(a: Bytes, b: Bytes)
    requires |a| == |b| && ValueOf(a) == ValueOf(b)
    ensures a == b
  {
    if a != [] {
      var n := |a| - 1;
      ValueIsInjective(a[..n], b[..n]);
      assert a == a[..n] + [a[n]] && b == b[..n] + [b[n]];
    }
  }

  /** The nonce of chunk number `k`. */
  function NonceAt(first: Bytes, k: nat): (r: Bytes)
    ensures |r| == |first|
  {
    if k == 0 then first else Successor(NonceAt(first, k - 1))
  }

  lemma AtLeastOnce(d: int, m: nat)
    requires d >= 1
    ensures d * m >= m
  {
    assert d * m == (d - 1) * m + m;
  }

  lemma Difference(a: int, b: int, m: nat)
    ensures (a - b) * m == a * m - b * m
  {
  }

  /** Quotient and remainder are unique. */
  lemma SameQuotient(q: int, r: int, q': int, r': int, m: nat)
    requires q * m + r == q' * m + r' && 0 <= r < m && 0 <= r' < m
    ensures q == q' && r == r'
  {
    Difference(q, q', m);
    Difference(q', q, m);
    if q > q' {
      AtLeastOnce(q - q', m);
    } else if q' > q {
      AtLeastOnce(q' - q, m);
    }
  }

  lemma Residue(x: nat, q: nat, r: nat, m: nat)
    requires x == q * m + r && r < m
    ensures x % m == r
  {
    var q', r' := x / m, x % m;
    assert x == q' * m + r' by {
      assert x == m * (x / m) + x % m;
    }
    SameQuotient(q, r, q', r', m);
  }

  lemma NextIsModular(v: nat, p: nat)
    requires v < p
    ensures Next(v, p) == (v + 1) % p
  {
    Residue(v + 1, if v + 1 == p then 1 else 0, Next(v, p), p);
  }

  /** Adding one in place adds one modulo 256 to the length of the counter. */
  lemma {:induction false} SuccessorAddsOne(s: Bytes)
    ensures ValueOf(Successor(s)) == (ValueOf(s) + 1) % Power256(|s|)
  {
    var v, p := ValueOf(s), Power256(|s|);
    SuccessorCounts(s);
    NextIsModular(v, p);
  }

  /** How often the counter has wrapped around before chunk number `k`. */
  function Wraps(first: Bytes, k: nat): nat {
    if k == 0 then 0
    else Wraps(first, k - 1) + if ValueOf(NonceAt(first, k - 1)) + 1 == Power256(|first|) then 1 else 0
  }

  lemma {:induction false} NonceCounts(first: Bytes, k: nat, p: nat)
    requires p == Power256(|first|)
    ensures ValueOf(first) + k == Wraps(first, k) * p + ValueOf(NonceAt(first, k))
  {
    if k > 0 {
      NonceCounts(first, k - 1, p);
      SuccessorCounts(NonceAt(first, k - 1));
      assert (Wraps(first, k - 1) + 1) * p == Wraps(first, k - 1) * p + p;
    }
  }

  /** The nonce of chunk `k` is the first nonce plus `k`, modulo the number of nonces. */
  lemma {:induction false} NonceValue(first: Bytes, k: nat)
    ensures ValueOf(NonceAt(first, k)) == (ValueOf(first) + k) % Power256(|first|)
  {
    var p := Power256(|first|);
    NonceCounts(first, k, p);
    Residue(ValueOf(first) + k, Wraps(first, k), ValueOf(NonceAt(first, k)), p);
  }

  lemma CloseResiduesDiffer(i: int, q: int, a: int, j: int, q': int, b: int, m: nat)
    requires i == q * m + a && j == q' * m + b && i < j < i + m
    ensures a != b
  {
    Difference(q', q, m);
    if a == b {
      SameQuotient(q' - q, 0, 0, j - i, m);
    }
  }

  lemma CloseNoncesDiffer(first: Bytes, i: nat, j: nat, p: nat)
    requires p == Power256(|first|) && i < j && j - i < p
    ensures NonceAt(first, i) != NonceAt(first, j)
  {
    NonceCounts(first, i, p);
    NonceCounts(first, j, p);
    var v := ValueOf(first);
    CloseResiduesDiffer(v + i, Wraps(first, i), ValueOf(NonceAt(first, i)),
                        v + j, Wraps(first, j), ValueOf(NonceAt(first, j)), p);
  }

  lemma NonceComesBack(first: Bytes, p: nat)
    requires p == Power256(|first|)
    ensures NonceAt(first, p) == first
  {
    var v, w := ValueOf(first), ValueOf(NonceAt(first, p));
    NonceCounts(first, p, p);
    assert v + p == 1 * p + v;
    SameQuotient(1, v, Wraps(first, p), w, p);
    ValueIsInjective(NonceAt(first, p), first);
  }

  /** The nonces of the first `n` chunks are pairwise distinct exactly when `n` is at most the number
      of nonces there are, 256 to the length of the nonce. */
  lemma NoncesAreDistinct(first: Bytes, n: nat)
    ensures (forall i, j :: 0 <= i < j < n ==> NonceAt(first, i) != NonceAt(first, j)) <==> n <= Power256(|first|)
  {
    var p := Power256(|first|);
    if n <= p {
      forall i, j | 0 <= i < j < n
        ensures NonceAt(first, i) != NonceAt(first, j)
      {
        CloseNoncesDiffer(first, i, j, p);
      }
    } else {
      NonceComesBack(first, p);
      assert NonceAt(first, 0) == first;
    }
  }

  // ----- the file

  /** What a read of the input returns before its end. */
  datatype Read = Data(bytes: Bytes) | Failure

  function Sealed(seal: (Bytes, Bytes) -> Bytes, first: Bytes, chunks: seq<Read>): Bytes {
    if chunks == [] then []
    else
      var k := |chunks| - 1;
      Sealed(seal, first, chunks[..k]) + if chunks[k].Data? then seal(NonceAt(first, k), chunks[k].bytes) else []
  }

  function Tag(sealed: Bytes): Bytes {
    if |sealed| >= TAG_LENGTH then sealed[|sealed| - TAG_LENGTH..] else sealed
  }

  function Tags(seal: (Bytes, Bytes) -> Bytes, first: Bytes, chunks: seq<Read>): Bytes {
    if chunks == [] then []
    else
      var k := |chunks| - 1;
      Tags(seal, first, chunks[..k]) + if chunks[k].Data? then Tag(seal(NonceAt(first, k), chunks[k].bytes)) else []
  }

  function Zeros(n: nat): (r: Bytes)
    ensures |r| == n && forall i :: 0 <= i < n ==> r[i] == 0
  {
    seq(n, i => 0)
  }

  lemma OneMoreChunk(seal: (Bytes, Bytes) -> Bytes, first: Bytes, chunks: seq<Read>, k: nat)
    requires k < |chunks| && chunks[k].Data?
    ensures Sealed(seal, first, chunks[..k + 1])
         == Sealed(seal, first, chunks[..k]) + seal(NonceAt(first, k), chunks[k].bytes)
    ensures Tags(seal, first, chunks[..k + 1])
         == Tags(seal, first, chunks[..k]) + Tag(seal(NonceAt(first, k), chunks[k].bytes))
  {
    assert chunks[..k + 1][..k] == chunks[..k];
  }

  /** What stands in the file and in the list of tags after the first `k` chunks. */
  ghost predicate Written(seal: (Bytes, Bytes) -> Bytes, first: Bytes, chunks: seq<Read>, k: nat, file: Bytes,
                          tags: Bytes)
    requires k <= |chunks|
  {
    && file == Zeros(SIGNATURE_LENGTH) + first + Sealed(seal, first, chunks[..k])
    && tags == Tags(seal, first, chunks[..k])
  }

  /** No read of the first `k` fails, and no write up to number `k`. */
  ghost predicate NoneFails(chunks: seq<Read>, full: nat -> bool, k: nat)
    requires k <= |chunks|
  {
    Failure !in chunks[..k] && forall i :: 0 <= i <= k ==> !full(i)
  }

  lemma OneMoreSucceeds(chunks: seq<Read>, full: nat -> bool, k: nat)
    requires k < |chunks| && NoneFails(chunks, full, k)
    ensures NoneFails(chunks, full, k + 1) <==> chunks[k].Data? && !full(k + 1)
  {
    assert chunks[..k + 1] == chunks[..k] + [chunks[k]];
  }

  lemma FailureStays(chunks: seq<Read>, full: nat -> bool, k: nat, n: nat)
    requires k <= n <= |chunks| && !NoneFails(chunks, full, k)
    ensures !NoneFails(chunks, full, n)
  {
    if Failure in chunks[..k] {
      var i :| 0 <= i < k && chunks[i] == Failure;
      assert chunks[..n][i] == Failure;
    }
  }

  lemma WriteOneMore(seal: (Bytes, Bytes) -> Bytes, first: Bytes, chunks: seq<Read>, k: nat, file: Bytes, tags: Bytes,
                     ciphertext: Bytes)
    requires k < |chunks| && chunks[k].Data? && ciphertext == seal(NonceAt(first, k), chunks[k].bytes)
    requires Written(seal, first, chunks, k, file, tags)
    ensures Written(seal, first, chunks, k + 1, file + ciphertext, tags + Tag(ciphertext))
  {
    OneMoreChunk(seal, first, chunks, k);
    var header, sealed := Zeros(SIGNATURE_LENGTH) + first, Sealed(seal, first, chunks[..k]);
    assert header + sealed + ciphertext == header + (sealed + ciphertext);
  }

  /** Seals one chunk with the counter as the nonce, and counts up. */
  method SealChunk(seal: (Bytes, Bytes) -> Bytes, counter: array<Byte>, plain: Bytes)
      returns (ciphertext: Bytes, tag: Bytes)
    requires forall nonce, p :: |seal(nonce, p)| == |p| + TAG_LENGTH
    modifies counter
    ensures ciphertext == seal(old(counter[..]), plain) && tag == Tag(ciphertext)
    ensures counter[..] == Successor(old(counter[..]))
  {
    ciphertext := seal(counter[..], plain);
    tag := ciphertext[|ciphertext| - TAG_LENGTH..];
    IncrementNonce(counter);
  }

  /** `opens`: the files, the cipher and the first nonce could be had; `full` says which writes to the
      output fail, the header's being number 0. */
  method AesEncryptLargeFile(seal: (Bytes, Bytes) -> Bytes, first: Bytes, opens: bool, chunks: seq<Read>,
        full: nat -> bool)
      returns (ok: bool, file: Bytes, tags: Bytes)
    requires forall nonce, plain :: |seal(nonce, plain)| == |plain| + 16
    ensures ok <==> opens && NoneFails(chunks, full, |chunks|)
    ensures ok ==> file == Zeros(65) + first + Sealed(seal, first, chunks)
    ensures ok ==> tags == Tags(seal, first, chunks)
  {
    if !opens {
      return false, [], [];
    }
    var nonce := new Byte[|first|](i requires 0 <= i < |first| => first[i]);
    assert nonce[..] == first;
    if full(0) {
      return false, [], [];
    }
    file, tags := Zeros(SIGNATURE_LENGTH) + nonce[..], [];
    for k := 0 to |chunks|
      invariant NoneFails(chunks, full, k)
      invariant nonce[..] == NonceAt(first, k)
      invariant Written(seal, first, chunks, k, file, tags)
    {
      OneMoreSucceeds(chunks, full, k);
      if chunks[k].Failure? {
        FailureStays(chunks, full, k + 1, |chunks|);
        return false, file, tags;
      }
      var ciphertext, tag := SealChunk(seal, nonce, chunks[k].bytes);
      WriteOneMore(seal, first, chunks, k, file, tags, ciphertext);
      tags := tags + tag;
      if full(k + 1) {
        FailureStays(chunks, full, k + 1, |chunks|);
        return false, file, tags;
      }
      file := file + ciphertext;
    }
    assert chunks[..|chunks|] == chunks;
    ok := true;
  }

  lemma {:induction false} TagsLength(seal: (Bytes, Bytes) -> Bytes, first: Bytes, chunks: seq<Read>)
    requires Failure !in chunks
    requires forall nonce, plain :: |seal(nonce, plain)| == |plain| + 16
    ensures |Tags(seal, first, chunks)| == 16 * |chunks|
  {
    if chunks != [] {
      var n := |chunks| - 1;
      assert chunks[n] in chunks;
      TagsLength(seal, first, chunks[..n]);
    }
  }

  /** The sealed chunk `k` stands after the sealed chunks before it. */
  lemma {:induction false} ChunkAt(seal: (Bytes, Bytes) -> Bytes, first: Bytes, chunks: seq<Read>, k: nat)
    requires k < |chunks| && chunks[k].Data?
    ensures Sealed(seal, first, chunks[..k]) + seal(NonceAt(first, k), chunks[k].bytes) <= Sealed(seal, first, chunks)
  {
    OneMoreChunk(seal, first, chunks, k);
    SealedGrows(seal, first, chunks, k + 1);
  }

  lemma {:induction false} SealedGrows(seal: (Bytes, Bytes) -> Bytes, first: Bytes, chunks: seq<Read>, k: nat)
    requires k <= |chunks|
    ensures Sealed(seal, first, chunks[..k]) <= Sealed(seal, first, chunks)
  {
    var n := |chunks| - 1;
    if k == |chunks| {
      assert chunks[..k] == chunks;
    } else {
      SealedGrows(seal, first, chunks[..n], k);
      assert chunks[..n][..k] == chunks[..k];
    }
  }

  /** The tag of chunk `k`, the last sixteen bytes of the sealed chunk, stands after the tags of the chunks
      before it. */
  lemma {:induction false} TagAt(seal: (Bytes, Bytes) -> Bytes, first: Bytes, chunks: seq<Read>, k: nat)
    requires k < |chunks| && chunks[k].Data?
    ensures var sealed := seal(NonceAt(first, k), chunks[k].bytes);
            |sealed| >= 16 ==> Tags(seal, first, chunks[..k]) + sealed[|sealed| - 16..] <= Tags(seal, first, chunks)
  {
    OneMoreChunk(seal, first, chunks, k);
    TagsGrow(seal, first, chunks, k + 1);
  }

  lemma {:induction false} TagsGrow(seal: (Bytes, Bytes) -> Bytes, first: Bytes, chunks: seq<Read>, k: nat)
    requires k <= |chunks|
    ensures Tags(seal, first, chunks[..k]) <= Tags(seal, first, chunks)
  {
    var n := |chunks| - 1;
    if k == |chunks| {
      assert chunks[..k] == chunks;
    } else {
      TagsGrow(seal, first, chunks[..n], k);
      assert chunks[..n][..k] == chunks[..k];
    }
  }
}
