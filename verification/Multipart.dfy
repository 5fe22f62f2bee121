/**
 Digests of local files, computed the way object stores compute theirs. The MD5 function is a parameter:
 updating a digest block by block is hashing the concatenation.
 */
module Multipart {
  import opened Text

  type Byte = bv8
  type Bytes = seq<Byte>

  const BLOCK: nat := 65536
  const BLOCKS_PER_PART: nat := 8 * 16
  const PART: nat := 8388608

  /** An open file. */
  class File {
    const data: Bytes
    var pos: nat

    constructor (data: Bytes)
      ensures this.data == data && pos == 0
    {
      this.data, pos := data, 0;
    }

    ghost predicate Valid() reads this { pos <= |data| }

    ghost function Rest(): Bytes
      requires Valid()
      reads this
    {
      data[pos..]
    }

    method Read(n: nat) returns (chunk: Bytes)
      requires Valid()
      modifies this
      ensures Valid() && chunk == Take(old(Rest()), n) && old(Rest()) == chunk + Rest() && pos == old(pos) + |chunk|
    {
      var end := if pos + n <= |data| then pos + n else |data|;
      chunk := data[pos..end];
      pos := end;
    }
  }

  function Take(s: Bytes, n: nat): Bytes { if n <= |s| then s[..n] else s }

  function Drop(s: Bytes, n: nat): Bytes { if n <= |s| then s[n..] else [] }

  /** The number of blocks in n bytes. */
  function Blocks(n: nat): nat { (n + 65535) / 65536 }

  /** How many parts of 8 MiB n bytes fill, the last one perhaps not entirely. */
  function PartsNeeded(n: nat): nat { (n + 8388607) / 8388608 }

  method GenerateMd5(f: File, hash: Bytes -> Bytes, block: nat) returns (digest: Bytes)
    requires f.Valid() && f.pos == 0
    modifies f
    ensures digest == hash(if block == 0 then [] else f.data)
  {
    var fed: Bytes := [];
    while true
      invariant f.Valid() && fed + f.Rest() == f.data && (block == 0 ==> fed == [])
      decreases |f.Rest()|
    {
      ghost var rest := f.Rest();
      var chunk := f.Read(block);
      if chunk == [] {
        assert block > 0 ==> rest == [] && fed + rest == fed;
        break;
      }
      assert fed + rest == (fed + chunk) + f.Rest();
      fed := fed + chunk;
    }
    digest := hash(fed);
  }

  // ---------------------------------------------------------------- md5_multipart

  /** The end of the file is noticed in a part exactly when fewer than 128 blocks are left for it. */
  predicate Ends(rest: nat) { Blocks(rest) < BLOCKS_PER_PART }

  /** What md5_part hashes, call after call. */
  function Parts(rest: Bytes): seq<Bytes>
    decreases |rest|
  {
    if Ends(|rest|) then [rest] else [Take(rest, PART)] + Parts(Drop(rest, PART))
  }

  function Digests(parts: seq<Bytes>, hash: Bytes -> Bytes): (r: seq<Bytes>)
    ensures |r| == |parts|
  {
    seq(|parts|, i requires 0 <= i < |parts| => hash(parts[i]))
  }

  function Concat(parts: seq<Bytes>): Bytes {
    if parts == [] then [] else parts[0] + Concat(parts[1..])
  }

  /** One part: up to 128 blocks. eof is only noticed by reading nothing. */
  method Md5Part(f: File, hash: Bytes -> Bytes) returns (digest: Bytes, eof: bool)
    requires f.Valid()
    modifies f
    ensures f.Valid()
    ensures eof == Ends(|old(f.Rest())|)
    ensures digest == hash(Take(old(f.Rest()), PART)) && f.Rest() == Drop(old(f.Rest()), PART)
  {
    ghost var start := f.Rest();
    var fed: Bytes := [];
    eof := false;
    for i := 0 to BLOCKS_PER_PART
      invariant f.Valid() && !eof && fed == Take(start, i * 65536) && f.Rest() == Drop(start, i * 65536)
      invariant i > 0 ==> |start| > (i - 1) * 65536
    {
      TakeMore(start, i * 65536);
      DropMore(start, i * 65536);
      var chunk := f.Read(BLOCK);
      if chunk == [] {
        AllTaken(start, i * 65536);
        eof := true;
        break;
      }
      fed := fed + chunk;
    }
    digest := hash(fed);
  }

  lemma TakeMore(s: Bytes, n: nat)
    ensures Take(s, n) + Take(Drop(s, n), BLOCK) == Take(s, n + BLOCK)
  {
    if n + BLOCK <= |s| {
      assert s[..n] + s[n..n + BLOCK] == s[..n + BLOCK];
    } else if n <= |s| {
      assert s[..n] + s[n..] == s;
    }
  }

  lemma DropMore(s: Bytes, n: nat)
    ensures Take(Drop(s, n), BLOCK) + Drop(s, n + BLOCK) == Drop(s, n)
    ensures forall rest :: Take(Drop(s, n), BLOCK) + rest == Drop(s, n) ==> rest == Drop(s, n + BLOCK)
  {
    var a, b := Take(Drop(s, n), BLOCK), Drop(s, n + BLOCK);
    if n + BLOCK <= |s| {
      assert s[n..n + BLOCK] + s[n + BLOCK..] == s[n..];
      assert s[n..][..BLOCK] == s[n..n + BLOCK];
    }
    assert a + b == Drop(s, n);
    forall rest | a + rest == Drop(s, n) ensures rest == b {
      assert rest == (a + rest)[|a|..] == (a + b)[|a|..] == b;
    }
  }

  lemma AllTaken(s: Bytes, n: nat)
    requires n <= PART
    ensures Drop(s, n) == [] ==> Take(s, n) == Take(s, PART) && Drop(s, PART) == []
  {
  }

  /** md5_multipart: the text is the digest of the part digests and their number. */
  method Md5Multipart(f: File, hash: Bytes -> Bytes, hex: Bytes -> string) returns (r: string)
    requires f.Valid() && f.pos == 0
    modifies f
    ensures r == hex(hash(Concat(Digests(Parts(f.data), hash)))) + "-" + Decimal(|Parts(f.data)|)
  {
    hide Decimal, Concat, Parts, Take, Drop, Ends, Digests;
    var eof := false;
    var list: seq<Bytes> := [];
    ghost var parts: seq<Bytes> := [];
    NoDigests(hash);
    assert f.Rest() == f.data;
    while !eof
      invariant f.Valid() && list == Digests(parts, hash)
      invariant parts + (if eof then [] else Parts(f.Rest())) == Parts(f.data)
      decreases !eof, |f.Rest()|
    {
      var digest;
      ghost var rest := f.Rest();
      digest, eof := Md5Part(f, hash);
      PartStep(rest);
      DigestsAppend(parts, Take(rest, PART), hash);
      Regrouped(parts, [Take(rest, PART)], if eof then [] else Parts(f.Rest()));
      list := list + [digest];
      parts := parts + [Take(rest, PART)];
    }
    assert parts + [] == parts;
    r := hex(hash(Concat(list))) + "-" + Decimal(|list|);
  }

  lemma Regrouped(a: seq<Bytes>, b: seq<Bytes>, c: seq<Bytes>)
    ensures (a + b) + c == a + (b + c)
  {
  }

  lemma NoDigests(hash: Bytes -> Bytes)
    ensures Digests([], hash) == []
  {
  }

  lemma DigestsAppend(parts: seq<Bytes>, part: Bytes, hash: Bytes -> Bytes)
    ensures Digests(parts + [part], hash) == Digests(parts, hash) + [hash(part)]
  {
  }

  lemma PartStep(rest: Bytes)
    ensures Parts(rest) == [Take(rest, PART)] + if Ends(|rest|) then [] else Parts(Drop(rest, PART))
    ensures !Ends(|rest|) ==> |Drop(rest, PART)| < |rest|
  {
    if Ends(|rest|) { assert Take(rest, PART) == rest; }
  }

  // ---------------------------------------------------------------- the parts

  /** The plain division into parts of 8 MiB. */
  function PlainParts(data: Bytes): seq<Bytes>
    decreases |data|
  {
    if data == [] then [] else [Take(data, PART)] + PlainParts(Drop(data, PART))
  }

  lemma {:induction false} PlainCount(data: Bytes)
    ensures |PlainParts(data)| == PartsNeeded(|data|)
    decreases |data|
  {
    if data != [] { PlainCount(Drop(data, PART)); }
  }

  lemma {:induction false} PlainConcat(data: Bytes)
    ensures Concat(PlainParts(data)) == data
    decreases |data|
  {
    if data != [] {
      PlainConcat(Drop(data, PART));
      var parts := PlainParts(data);
      assert parts[0] == Take(data, PART) && parts[1..] == PlainParts(Drop(data, PART));
    }
  }

  /**
   The parts hashed are the plain ones, and one empty part more exactly when the number of blocks is a
   multiple of 128.
   */
  lemma {:induction false} PartsExact(data: Bytes)
    ensures Parts(data) == PlainParts(data) + if Blocks(|data|) % 128 == 0 then [[]] else []
    decreases |data|
  {
    var rest := Drop(data, PART);
    if Ends(|data|) {
      if data != [] {
        assert Take(data, PART) == data && rest == [];
      }
    } else {
      PartsExact(rest);
      BlocksDrop(|data|);
      assert [Take(data, PART)] + (PlainParts(rest) + if Blocks(|rest|) % 128 == 0 then [[]] else [])
          == ([Take(data, PART)] + PlainParts(rest)) + if Blocks(|rest|) % 128 == 0 then [[]] else [];
    }
  }

  lemma BlocksDrop(n: nat)
    requires !Ends(n)
    ensures Blocks(if PART <= n then n - PART else 0) == Blocks(n) - 128
  {
  }

  lemma {:induction false} ConcatAppend(parts: seq<Bytes>, more: seq<Bytes>)
    ensures Concat(parts + more) == Concat(parts) + Concat(more)
  {
    if parts == [] {
      assert parts + more == more;
    } else {
      assert (parts + more)[1..] == parts[1..] + more;
      ConcatAppend(parts[1..], more);
    }
  }

  lemma CountOfBlocks(n: nat)
    ensures PartsNeeded(n) == Blocks(n) / 128 + if Blocks(n) % 128 == 0 then 0 else 1
  {
  }

  /**
   For a file of n bytes: the parts concatenate to the file, their number is floor(ceil(n / 65536) / 128) + 1,
   and it differs from ceil(n / 8 MiB) exactly when the last part is empty, which is when the number of
   blocks is a multiple of 128.
   */
  lemma MultipartArithmetic(data: Bytes)
    ensures Concat(Parts(data)) == data
    ensures |Parts(data)| == Blocks(|data|) / 128 + 1
    ensures Parts(data)[|Parts(data)| - 1] == [] <==> Blocks(|data|) % 128 == 0
    ensures |Parts(data)| == PartsNeeded(|data|) <==> Blocks(|data|) % 128 != 0
  {
    hide Parts, PlainParts, Concat, Blocks, PartsNeeded;
    PartsExact(data);
    PlainCount(data);
    PlainConcat(data);
    CountOfBlocks(|data|);
    var tail: seq<Bytes> := if Blocks(|data|) % 128 == 0 then [[]] else [];
    ConcatAppend(PlainParts(data), tail);
    ConcatEmpty();
    assert |Parts(data)| == |PlainParts(data)| + |tail|;
    if tail == [] {
      LastPlain(data);
    }
  }

  lemma ConcatEmpty()
    ensures Concat([]) == [] && Concat([[]]) == []
  {
    assert Concat([[]]) == [] + Concat([[]][1..]);
  }

  lemma {:induction false} LastPlain(data: Bytes)
    ensures data != [] ==> PlainParts(data) != [] && PlainParts(data)[|PlainParts(data)| - 1] != []
    ensures data == [] ==> Blocks(|data|) % 128 == 0
    decreases |data|
  {
    if data != [] && Drop(data, PART) != [] {
      LastPlain(Drop(data, PART));
    }
  }
}
