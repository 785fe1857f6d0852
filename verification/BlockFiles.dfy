/** A log file as the blocks that tile it, and the same file as bytes. */
module BlockFiles {
  import opened Bytes
  import opened ControlBlocks

  type Tile = seq<Byte>

  function Flatten(tiles: seq<Tile>): seq<Byte> {
    if tiles == [] then [] else Flatten(tiles[..|tiles| - 1]) + tiles[|tiles| - 1]
  }

  /** Where block k starts in the file. */
  function Off(tiles: seq<Tile>, k: nat): nat
    requires k <= |tiles|
  {
    |Flatten(tiles[..k])|
  }

  function StreamOf(t: Tile): nat
    requires |t| >= HEADER
  {
    Decode(t).stream
  }

  ghost predicate Headed(tiles: seq<Tile>) {
    forall k | 0 <= k < |tiles| :: |tiles[k]| >= HEADER
  }

  datatype Block = Block(off: nat, tile: Tile)

  /** The blocks of one stream, in file order, each with its place in the file. */
  function Chain(tiles: seq<Tile>, s: nat): (c: seq<Block>)
    requires Headed(tiles)
  {
    if tiles == [] then []
    else
      var k := |tiles| - 1;
      Chain(tiles[..k], s) + if StreamOf(tiles[k]) == s then [Block(|Flatten(tiles[..k])|, tiles[k])] else []
  }

  lemma ChainAppend(tiles: seq<Tile>, t: Tile, s: nat)
    requires Headed(tiles) && |t| >= HEADER
    ensures Headed(tiles + [t])
    ensures Chain(tiles + [t], s)
         == Chain(tiles, s) + if StreamOf(t) == s then [Block(|Flatten(tiles)|, t)] else []
  {
    assert (tiles + [t])[..|tiles|] == tiles;
  }

  /** Which block of the file is block j of the stream. */
  function TileIndex(tiles: seq<Tile>, s: nat, j: nat): (k: nat)
    requires Headed(tiles) && j < |Chain(tiles, s)|
    ensures k < |tiles| && Chain(tiles, s)[j] == Block(Off(tiles, k), tiles[k])
    ensures StreamOf(tiles[k]) == s
  {
    var last := |tiles| - 1;
    if j < |Chain(tiles[..last], s)| then
      var k := TileIndex(tiles[..last], s, j);
      assert tiles[..last][..k] == tiles[..k];
      k
    else last
  }

  /** Putting another block of the same size in the place of block j changes nothing else. */
  lemma {:induction false} ChainUpdate(tiles: seq<Tile>, s: nat, j: nat, t: Tile)
    requires Headed(tiles) && j < |Chain(tiles, s)|
    requires |t| == |Chain(tiles, s)[j].tile| && |t| >= HEADER && StreamOf(t) == s
    ensures var tiles' := tiles[TileIndex(tiles, s, j) := t];
            && Headed(tiles') && Chain(tiles', s) == Chain(tiles, s)[j := Chain(tiles, s)[j].(tile := t)]
            && forall other: nat | other != s :: Chain(tiles', other) == Chain(tiles, other)
  {
    hide Decode, Flatten;
    var last, k := |tiles| - 1, TileIndex(tiles, s, j);
    var tiles' := tiles[k := t];
    if j < |Chain(tiles[..last], s)| {
      ChainUpdate(tiles[..last], s, j, t);
      assert tiles'[..last] == tiles[..last][k := t];
      OffUpdate(tiles, k, t, last);
    } else {
      assert tiles'[..last] == tiles[..last];
    }
  }

  /** Blocks of stream s, one behind the other, below `size`. */
  ghost predicate Ordered(c: seq<Block>, size: nat, s: nat) {
    && (forall i, j | 0 <= i < j < |c| :: c[i].off + |c[i].tile| <= c[j].off)
    && (forall j | 0 <= j < |c| :: c[j].off + |c[j].tile| <= size)
    && (forall j | 0 <= j < |c| :: |c[j].tile| >= HEADER && StreamOf(c[j].tile) == s)
  }

  lemma {:induction false} ChainIncreases(tiles: seq<Tile>, s: nat)
    requires Headed(tiles)
    ensures Ordered(Chain(tiles, s), |Flatten(tiles)|, s)
  {
    hide Decode;
    if tiles != [] {
      ChainIncreases(tiles[..|tiles| - 1], s);
    }
  }

  lemma ChainBytes(tiles: seq<Tile>, s: nat, j: nat)
    requires Headed(tiles) && j < |Chain(tiles, s)|
    ensures var b := Chain(tiles, s)[j];
            && b.off + |b.tile| <= |Flatten(tiles)|
            && Flatten(tiles)[b.off..b.off + |b.tile|] == b.tile
  {
    hide Flatten, Chain, StreamOf;
    TileBytes(tiles, TileIndex(tiles, s, j));
  }

  lemma {:induction false} FlattenAppend(a: seq<Tile>, b: seq<Tile>)
    ensures Flatten(a + b) == Flatten(a) + Flatten(b)
  {
    if b == [] {
      assert a + b == a;
    } else {
      var last := |b| - 1;
      FlattenAppend(a, b[..last]);
      assert (a + b)[..|a + b| - 1] == a + b[..last];
      var x, y, z := Flatten(a), Flatten(b[..last]), b[last];
      assert x + y + z == x + (y + z);
    }
  }

  /** The file is what lies before a block, the block, and what lies behind it. */
  lemma FlattenSplit(tiles: seq<Tile>, k: nat)
    requires k < |tiles|
    ensures Flatten(tiles) == Flatten(tiles[..k]) + tiles[k] + Flatten(tiles[k + 1..])
  {
    hide Flatten;
    AroundOne(tiles, k);
    FlattenAround(tiles[..k], tiles[k], tiles[k + 1..]);
  }

  lemma AroundOne(tiles: seq<Tile>, k: nat)
    requires k < |tiles|
    ensures tiles == tiles[..k] + [tiles[k]] + tiles[k + 1..]
  {}

  lemma FlattenAround(a: seq<Tile>, t: Tile, b: seq<Tile>)
    ensures Flatten(a + [t] + b) == Flatten(a) + t + Flatten(b)
  {
    hide Flatten;
    FlattenAppend(a + [t], b);
    FlattenAppend(a, [t]);
    FlattenOne(t);
  }

  lemma FlattenOne(t: Tile)
    ensures Flatten([t]) == t
  {
    assert [t][..0] == [];
  }

  lemma OffStep(tiles: seq<Tile>, k: nat)
    requires k < |tiles|
    ensures Off(tiles, k + 1) == Off(tiles, k) + |tiles[k]|
  {
    assert tiles[..k + 1][..k] == tiles[..k];
  }

  lemma {:induction false} OffMonotone(tiles: seq<Tile>, j: nat, k: nat)
    requires Headed(tiles) && j <= k <= |tiles|
    ensures Off(tiles, j) + HEADER * (k - j) <= Off(tiles, k)
    decreases k - j
  {
    hide Flatten;
    if j < k {
      OffMonotone(tiles, j + 1, k);
      OffStep(tiles, j);
    }
  }

  /** Block k as bytes of the file. */
  lemma TileBytes(tiles: seq<Tile>, k: nat)
    requires k < |tiles|
    ensures Off(tiles, k) + |tiles[k]| <= |Flatten(tiles)|
    ensures Flatten(tiles)[Off(tiles, k)..Off(tiles, k) + |tiles[k]|] == tiles[k]
  {
    FlattenSplit(tiles, k);
  }

  lemma {:induction false} OffUpdate(tiles: seq<Tile>, k: nat, t: Tile, j: nat)
    requires k < |tiles| && |t| == |tiles[k]| && j <= |tiles|
    ensures Off(tiles[k := t], j) == Off(tiles, j)
  {
    if j == 0 {
    } else {
      OffUpdate(tiles, k, t, j - 1);
      OffStep(tiles, j - 1);
      OffStep(tiles[k := t], j - 1);
    }
  }

  lemma OffAppend(tiles: seq<Tile>, t: Tile, j: nat)
    requires j <= |tiles|
    ensures Off(tiles + [t], j) == Off(tiles, j)
  {
    assert (tiles + [t])[..j] == tiles[..j];
  }

  // ---------- What the file operations do to the bytes

  /** fstream::write at a position inside or at the end of the file. */
  function WriteAt(file: seq<Byte>, at: nat, bytes: seq<Byte>): (r: seq<Byte>)
    requires at <= |file|
    ensures |r| == if at + |bytes| <= |file| then |file| else at + |bytes|
  {
    if at + |bytes| <= |file| then file[..at] + bytes + file[at + |bytes|..] else file[..at] + bytes
  }

  lemma AppendTile(tiles: seq<Tile>, t: Tile)
    ensures WriteAt(Flatten(tiles), |Flatten(tiles)|, t) == Flatten(tiles + [t])
  {
    hide Flatten;
    FlattenAppend(tiles, [t]);
    FlattenOne(t);
    var f := Flatten(tiles);
    assert f[..|f|] == f && f + t == Flatten(tiles + [t]);
    if |t| == 0 {
      assert f[..|f|] + t + f[|f|..] == f + t;
    }
  }

  lemma RewriteTile(tiles: seq<Tile>, k: nat, t: Tile)
    requires k < |tiles| && |t| == |tiles[k]|
    ensures Off(tiles, k) + |t| <= |Flatten(tiles)|
    ensures WriteAt(Flatten(tiles), Off(tiles, k), t) == Flatten(tiles[k := t])
  {
    hide Flatten;
    FlattenSplit(tiles, k);
    FlattenSplit(tiles[k := t], k);
    assert tiles[k := t][..k] == tiles[..k] && tiles[k := t][k + 1..] == tiles[k + 1..];
  }

  lemma PatchTile(tiles: seq<Tile>, k: nat, next: nat)
    requires k < |tiles| && |tiles[k]| >= HEADER
    ensures Off(tiles, k) + 8 <= |Flatten(tiles)|
    ensures WriteAt(Flatten(tiles), Off(tiles, k), BigEndian(next, 8)) == Flatten(tiles[k := PatchNext(tiles[k], next)])
  {
    hide Flatten, BigEndian;
    var t := PatchNext(tiles[k], next);
    FlattenSplit(tiles, k);
    FlattenSplit(tiles[k := t], k);
    assert tiles[k := t][..k] == tiles[..k] && tiles[k := t][k + 1..] == tiles[k + 1..];
  }
}
