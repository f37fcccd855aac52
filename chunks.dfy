/**
 * The data-channel audio framing shared by the three `on_message` handlers
 * and the outbound sender: a sparse buffer of optional byte chunks filled by
 * index, its echo, and the fixed-size re-split of a byte string.
 */
module Chunks {
  import opened Wrappers
  import opened Bytes

  /** One buffer slot: `None` until a chunk with that index arrives. */
  type Slot = Option<seq<Byte>>

  /** `buf` extended with `None` until it has at least `n` slots. */
  function Padded(buf: seq<Slot>, n: nat): (r: seq<Slot>)
    ensures |r| == if n <= |buf| then |buf| else n
    ensures r[..|buf|] == buf
    ensures forall k :: |buf| <= k < |r| ==> r[k] == None
  {
    if n <= |buf| then buf else buf + seq(n - |buf|, _ => None)
  }

  /** `while len(buf) < n: buf.append(None)`: one empty slot at a time. */
  method PadSlots(buf: seq<Slot>, n: nat) returns (c: seq<Slot>)
    ensures c == Padded(buf, n)
  {
    c := buf;
    while |c| < n
      invariant |buf| <= |c| <= if n <= |buf| then |buf| else n
      invariant c == buf + seq(|c| - |buf|, _ => None)
      decreases n - |c|
    {
      c := c + [None];
    }
  }

  /**
   * `while len(chunks) <= i: chunks.append(None)` followed by
   * `chunks[i] = b`: the buffer grows to cover index `i` with empty slots,
   * slot `i` holds `b`, and every other slot keeps its content.
   */
  function StoreAt(buf: seq<Slot>, i: nat, b: seq<Byte>): (r: seq<Slot>)
    ensures |r| == if i < |buf| then |buf| else i + 1
    ensures r[i] == Some(b)
    ensures forall k :: 0 <= k < |buf| && k != i ==> r[k] == buf[k]
    ensures forall k :: |buf| <= k < |r| && k != i ==> r[k] == None
  {
    var p := Padded(buf, i + 1);
    assert forall k :: 0 <= k < |buf| ==> p[k] == p[..|buf|][k];
    p[i := Some(b)]
  }

  /** A later chunk with the same index overwrites the earlier one. */
  lemma StoreOverwrite(buf: seq<Slot>, i: nat, b: seq<Byte>, c: seq<Byte>)
    ensures StoreAt(StoreAt(buf, i, b), i, c) == StoreAt(buf, i, c)
  {
  }

  /** Chunks with different indices can arrive in either order. */
  lemma StoreCommute(buf: seq<Slot>, i: nat, j: nat, b: seq<Byte>, c: seq<Byte>)
    requires i != j
    ensures StoreAt(StoreAt(buf, i, b), j, c) == StoreAt(StoreAt(buf, j, c), i, b)
  {
    var x := StoreAt(StoreAt(buf, i, b), j, c);
    var y := StoreAt(StoreAt(buf, j, c), i, b);
    assert |x| == |y|;
    forall k | 0 <= k < |x| ensures x[k] == y[k] {
    }
  }

  function SlotLen(s: Slot): nat {
    if s.Some? then |s.value| else 0
  }

  /** `sum(len(c) for c in chunks[:n] if c is not None)`. */
  function FileSizeUpTo(buf: seq<Slot>, n: nat): nat
    requires n <= |buf|
  {
    if n == 0 then 0 else FileSizeUpTo(buf, n - 1) + SlotLen(buf[n - 1])
  }

  /** The `fileSize` the echo announces. */
  function FileSize(buf: seq<Slot>): nat {
    FileSizeUpTo(buf, |buf|)
  }

  /** The received octets: the filled slots of `buf[..n]` concatenated in index order. */
  function PayloadUpTo(buf: seq<Slot>, n: nat): seq<Byte>
    requires n <= |buf|
  {
    if n == 0 then [] else PayloadUpTo(buf, n - 1) + (if buf[n - 1].Some? then buf[n - 1].value else [])
  }

  function Payload(buf: seq<Slot>): seq<Byte> {
    PayloadUpTo(buf, |buf|)
  }

  /** The announced `fileSize` is the number of octets actually held. */
  lemma {:induction false} FileSizeIsPayloadLength(buf: seq<Slot>, n: nat)
    requires n <= |buf|
    ensures FileSizeUpTo(buf, n) == |PayloadUpTo(buf, n)|
  {
    if n > 0 {
      FileSizeIsPayloadLength(buf, n - 1);
    }
  }

  /** The chunks the echo sends back for `buf[..n]`, as (index, octets). */
  function Pieces(buf: seq<Slot>, n: nat): seq<(nat, seq<Byte>)>
    requires n <= |buf|
  {
    if n == 0 then []
    else if buf[n - 1].Some? then Pieces(buf, n - 1) + [(n - 1, buf[n - 1].value)]
    else Pieces(buf, n - 1)
  }

  /**
   * The echo sends only filled slots, in strictly increasing index order,
   * each under its own index with its own octets, and leaves no filled slot out.
   */
  lemma {:induction false} PiecesSpec(buf: seq<Slot>, n: nat)
    requires n <= |buf|
    ensures var p := Pieces(buf, n);
      && (forall k :: 0 <= k < |p| ==> p[k].0 < n && buf[p[k].0] == Some(p[k].1))
      && (forall k, l :: 0 <= k < l < |p| ==> p[k].0 < p[l].0)
      && (forall i :: 0 <= i < n && buf[i].Some? ==> exists k :: 0 <= k < |p| && p[k].0 == i)
  {
    if n > 0 {
      PiecesSpec(buf, n - 1);
      var q := Pieces(buf, n - 1);
      if buf[n - 1].Some? {
        var p := q + [(n - 1, buf[n - 1].value)];
        assert p[|q|].0 == n - 1;
        forall i | 0 <= i < n && buf[i].Some? ensures exists k :: 0 <= k < |p| && p[k].0 == i {
          if i == n - 1 {
            assert p[|q|].0 == i;
          } else {
            var k :| 0 <= k < |q| && q[k].0 == i;
            assert p[k].0 == i;
          }
        }
      }
    }
  }

  /** The octets of a list of pieces, concatenated. */
  function Flatten(p: seq<(nat, seq<Byte>)>): seq<Byte> {
    if p == [] then [] else Flatten(p[..|p| - 1]) + p[|p| - 1].1
  }

  /** The echoed chunks carry exactly the received octets, in order. */
  lemma {:induction false} EchoCarriesPayload(buf: seq<Slot>, n: nat)
    requires n <= |buf|
    ensures Flatten(Pieces(buf, n)) == PayloadUpTo(buf, n)
  {
    if n > 0 {
      EchoCarriesPayload(buf, n - 1);
      var q := Pieces(buf, n - 1);
      if buf[n - 1].Some? {
        var p := q + [(n - 1, buf[n - 1].value)];
        assert p[..|p| - 1] == q;
        assert Flatten(p) == Flatten(q) + buf[n - 1].value;
      }
    }
  }

  /** The outbound chunk size. */
  const ChunkSize: nat := 1024

  /** `(len + chunk_size - 1) // chunk_size`. */
  function ChunkCount(len: nat): nat {
    (len + ChunkSize - 1) / ChunkSize
  }

  /** The count is the ceiling of `len / 1024`: enough chunks, and no empty one. */
  lemma ChunkCountIsCeiling(len: nat)
    ensures ChunkCount(len) * ChunkSize >= len
    ensures ChunkCount(len) == 0 || (ChunkCount(len) - 1) * ChunkSize < len
    ensures len == 0 <==> ChunkCount(len) == 0
  {
  }

  function Min(a: nat, b: nat): nat {
    if a <= b then a else b
  }

  /** Chunk `i`: octets `[i*1024, min((i+1)*1024, len))`. */
  function ChunkAt(full: seq<Byte>, i: nat): (c: seq<Byte>)
    requires i < ChunkCount(|full|)
    ensures 0 < |c| <= ChunkSize
  {
    ChunkCountIsCeiling(|full|);
    full[i * ChunkSize .. Min(i * ChunkSize + ChunkSize, |full|)]
  }

  /** The first `n` chunks, concatenated. */
  function Joined(full: seq<Byte>, n: nat): seq<Byte>
    requires n <= ChunkCount(|full|)
  {
    if n == 0 then [] else Joined(full, n - 1) + ChunkAt(full, n - 1)
  }

  lemma {:induction false} JoinedIsPrefix(full: seq<Byte>, n: nat)
    requires n <= ChunkCount(|full|)
    ensures Joined(full, n) == full[..Min(n * ChunkSize, |full|)]
  {
    ChunkCountIsCeiling(|full|);
    if n > 0 {
      JoinedIsPrefix(full, n - 1);
      var a := (n - 1) * ChunkSize;
      assert Min(a, |full|) == a;
      assert full[..a] + full[a..Min(a + ChunkSize, |full|)] == full[..Min(n * ChunkSize, |full|)];
    }
  }

  /** Concatenating the chunks of `full` gives back `full`. */
  lemma SplitJoin(full: seq<Byte>)
    ensures Joined(full, ChunkCount(|full|)) == full
  {
    JoinedIsPrefix(full, ChunkCount(|full|));
    ChunkCountIsCeiling(|full|);
  }

  /** All chunks of `full`, in order. */
  function Split(full: seq<Byte>): (cs: seq<seq<Byte>>)
    ensures |cs| == ChunkCount(|full|)
    ensures forall i :: 0 <= i < |cs| ==> cs[i] == ChunkAt(full, i)
  {
    seq(ChunkCount(|full|), i requires 0 <= i < ChunkCount(|full|) => ChunkAt(full, i))
  }

  /** The receiver's buffer after chunks `0 .. n-1` of `cs` arrived in order. */
  function StoreAll(cs: seq<seq<Byte>>, n: nat): seq<Slot>
    requires n <= |cs|
  {
    if n == 0 then [] else StoreAt(StoreAll(cs, n - 1), n - 1, cs[n - 1])
  }

  lemma {:induction false} StoreAllFilled(cs: seq<seq<Byte>>, n: nat)
    requires n <= |cs|
    ensures |StoreAll(cs, n)| == n
    ensures forall k :: 0 <= k < n ==> StoreAll(cs, n)[k] == Some(cs[k])
  {
    if n > 0 {
      StoreAllFilled(cs, n - 1);
    }
  }

  lemma {:induction false} PayloadOfFilled(buf: seq<Slot>, full: seq<Byte>, n: nat)
    requires n <= ChunkCount(|full|) && n <= |buf|
    requires forall k :: 0 <= k < n ==> buf[k] == Some(ChunkAt(full, k))
    ensures PayloadUpTo(buf, n) == Joined(full, n)
  {
    if n > 0 {
      PayloadOfFilled(buf, full, n - 1);
    }
  }

  /**
   * The byte round-trip: a receiver that stores the chunks of `full` by
   * their index ends up holding exactly `full`.
   */
  lemma ReassembleSplit(full: seq<Byte>)
    ensures Payload(StoreAll(Split(full), ChunkCount(|full|))) == full
  {
    var cs := Split(full);
    var n := ChunkCount(|full|);
    StoreAllFilled(cs, n);
    PayloadOfFilled(StoreAll(cs, n), full, n);
    SplitJoin(full);
  }

  /** Echoing a buffer that received the chunks of `full` sends back exactly `full`. */
  lemma EchoOfSplit(full: seq<Byte>)
    ensures var buf := StoreAll(Split(full), ChunkCount(|full|));
      Flatten(Pieces(buf, |buf|)) == full && FileSize(buf) == |full|
  {
    var buf := StoreAll(Split(full), ChunkCount(|full|));
    StoreAllFilled(Split(full), ChunkCount(|full|));
    ReassembleSplit(full);
    EchoCarriesPayload(buf, |buf|);
    FileSizeIsPayloadLength(buf, |buf|);
  }
}
