/** Memory in chunks: blocks are only ever cut from the last chunk of a ring, which is freed at once. */
module Arena {
  import opened Rings

  const MEMORY_CHUNK_SIZE := 1024 * 1024

  type Byte = x: int | 0 <= x < 256

  class Chunk {
    const value: array<Byte>
    var offset: nat

    constructor (size: nat)
      ensures fresh(value) && value.Length == size && offset == 0
      ensures forall k :: 0 <= k < size ==> value[k] == 0
    {
      value := new Byte[size](_ => 0);
      offset := 0;
    }
  }

  type ChunkLink = Link<Chunk>

  /** A block that was handed out: the position of its chunk in the ring, and where it is in there. */
  datatype Block = Block(chunk: nat, start: nat, size: nat)

  predicate Disjoint(a: Block, b: Block) {
    a.chunk == b.chunk ==> a.start + a.size <= b.start || b.start + b.size <= a.start
  }

  ghost function Chunks(ring: seq<ChunkLink>): set<Chunk> {
    set i | 0 <= i < |ring| :: ring[i].item
  }

  ghost function Values(ring: seq<ChunkLink>): set<array<Byte>> {
    set i | 0 <= i < |ring| :: ring[i].item.value
  }

  /** Different links have different memory. */
  ghost predicate Separate(ring: seq<ChunkLink>) {
    forall i, j :: 0 <= i < j < |ring| ==> ring[i].item != ring[j].item && ring[i].item.value != ring[j].item.value
  }

  /** What was not handed out yet is still zero. */
  ghost predicate Unused(c: Chunk)
    reads c, c.value
  {
    c.offset <= c.value.Length && forall k :: c.offset <= k < c.value.Length ==> c.value[k] == 0
  }

  ghost predicate AllUnused(ring: seq<ChunkLink>)
    reads Chunks(ring), Values(ring)
  {
    forall i :: 0 <= i < |ring| ==> Unused(ring[i].item)
  }

  /** Every block is in a chunk, below its offset, and apart from all others. */
  ghost predicate Handed(ring: seq<ChunkLink>, blocks: seq<Block>)
    reads Chunks(ring)
  {
    && (forall b <- blocks :: b.chunk < |ring| && b.start + b.size <= ring[b.chunk].item.offset)
    && (forall i, j :: 0 <= i < j < |blocks| ==> Disjoint(blocks[i], blocks[j]))
  }

  lemma Grown(ring: seq<ChunkLink>, last: ChunkLink, blocks: seq<Block>)
    requires Separate(ring) && AllUnused(ring) && Handed(ring, blocks) && Unused(last.item)
    requires last.item !in Chunks(ring) && last.item.value !in Values(ring)
    ensures Separate(ring + [last]) && AllUnused(ring + [last]) && Handed(ring + [last], blocks)
  {
  }

  /** Links a chunk at the end of a ring. */
  method LinkLast(root: ChunkLink, c: Chunk, ghost ring: seq<ChunkLink>) returns (last: ChunkLink)
    requires Ring(ring) && root == ring[0]
    modifies ring
    ensures Ring(ring + [last]) && fresh(last) && last.item == c && root.prev == last
  {
    last := new Link(c);
    Append(root, last, ring, [last]);
    assert Linked(ring + [last], |ring|);
  }

  class Memory {
    var root: ChunkLink
    ghost var ring: seq<ChunkLink>
    ghost var blocks: seq<Block>

    ghost predicate Valid()
      reads this, ring, Chunks(ring), Values(ring)
    {
      ring != [] && root == ring[0] && Ring(ring) && Separate(ring) && AllUnused(ring) && Handed(ring, blocks)
    }

    /** The first chunk. */
    constructor (size: nat)
      ensures Valid() && blocks == [] && fresh(ring) && |ring| == 1 && root.item.value.Length == size
    {
      var c := new Chunk(size);
      root := new Link(c);
      ring, blocks := [root], [];
    }

    /** A new block: zero, within a chunk, and apart from all blocks handed out before, which stay where
        they are with what is in them. */
    method Alloc(size: nat) returns (value: array<Byte>, start: nat)
      requires Valid()
      modifies this, ring, Chunks(ring)
      ensures Valid() && root == old(root) && old(ring) <= ring
      ensures |ring| == |old(ring)|
              + if old(root.prev.item.offset) + size <= old(root.prev.item.value.Length) then 0 else 1
      ensures blocks == old(blocks) + [Block(|ring| - 1, start, size)] && value == ring[|ring| - 1].item.value
      ensures start + size <= value.Length && forall k :: start <= k < start + size ==> value[k] == 0
      ensures root.prev.item.offset == start + size && root.prev.item.value == value
      ensures if |ring| == |old(ring)| then start == old(root.prev.item.offset)
              else start == 0 && value.Length == if MEMORY_CHUNK_SIZE < size then size else MEMORY_CHUNK_SIZE
    {
      assert Linked(ring, |ring| - 1);
      var current := root.prev;
      if current.item.offset + size > current.item.value.Length {
        current := AddChunk(if MEMORY_CHUNK_SIZE < size then size else MEMORY_CHUNK_SIZE);
      }
      value, start := Cut(current, size);
    }

    method Cut(current: ChunkLink, size: nat) returns (value: array<Byte>, start: nat)
      requires Valid() && current == ring[|ring| - 1] && current.item.offset + size <= current.item.value.Length
      modifies this`blocks, current.item
      ensures Valid() && blocks == old(blocks) + [Block(|ring| - 1, start, size)]
      ensures value == current.item.value && start == old(current.item.offset)
      ensures current.item.offset == start + size
    {
      var c := current.item;
      ghost var block := Block(|ring| - 1, c.offset, size);
      value, start := c.value, c.offset;
      c.offset := c.offset + size;
      blocks := blocks + [block];
    }

    method AddChunk(size: nat) returns (last: ChunkLink)
      requires Valid()
      modifies this, ring
      ensures Valid() && root == old(root) && blocks == old(blocks)
      ensures ring == old(ring) + [last] && fresh(last) && fresh(last.item)
      ensures last.item.offset == 0 && last.item.value.Length == size && root.prev == last
    {
      hide Ring, Separate;
      ghost var before := ring;
      var c := new Chunk(size);
      assert c !in Chunks(before) && c.value !in Values(before);
      last := LinkLast(root, c, before);
      Grown(before, last, blocks);
      ring := before + [last];
    }

    /** The owner of a block writes into it. */
    method Write(value: array<Byte>, start: nat, k: nat, x: Byte, ghost block: Block)
      requires Valid() && block in blocks && value == ring[block.chunk].item.value && start == block.start
          && k < block.size
      modifies value
      ensures Valid() && value[..] == old(value[..])[start + k := x]
    {
      value[start + k] := x;
    }

    /** Frees the chunks, in the order of the ring and each once. */
    method Free() returns (freed: seq<ChunkLink>)
      requires Valid()
      ensures freed == ring && Distinct(freed)
    {
      freed := [];
      var current := root;
      while true
        invariant |freed| < |ring| && freed == ring[..|freed|] && current == ring[|freed|]
        decreases |ring| - |freed|
      {
        assert Linked(ring, |freed|);
        var next := current.next;
        if next == root {
          break;
        }
        freed := freed + [current];
        current := next;
      }
      freed := freed + [current];
    }
  }
}
