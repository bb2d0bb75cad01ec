/** Where things are: offsets of items and Blocks, and how writing more leaves them in place. */
module MuxerLayout {
  import opened Wrappers
  import opened Ebml
  import opened Ids
  import opened Elements
  import opened Lacing
  import opened Muxer

  /** The position of item `k`. */
  function ItemAt(c: Config, items: seq<Item>, k: nat): nat
    requires k <= |items|
  {
    c.head + |ItemBytes(items[..k])|
  }

  /** The position of Block `j` inside the Cluster's body. */
  function BlockAt(item: Item, j: nat): nat
    requires item.Cluster? && j <= |item.blocks|
  {
    |SerAll(item.lead + BlockElems(item.blocks[..j]))|
  }

  function BlockBytes(rs: seq<BlockRec>): nat {
    |SerAll(BlockElems(rs))|
  }

  lemma {:induction false} BlockElemsAppend(a: seq<BlockRec>, b: seq<BlockRec>)
    ensures BlockElems(a + b) == BlockElems(a) + BlockElems(b)
  {
  }

  lemma {:induction false} ItemElemsAppend(a: seq<Item>, b: seq<Item>)
    ensures ItemElems(a + b) == ItemElems(a) + ItemElems(b)
  {
  }

  lemma BlockBytesSnoc(rs: seq<BlockRec>, r: BlockRec)
    ensures BlockBytes(rs + [r]) == BlockBytes(rs) + |Ser(BlockElem(r))|
  {
    hide BlockElem, Ser;
    BlockElemsAppend(rs, [r]);
    assert BlockElems([r]) == [BlockElem(r)];
    SerSnoc(BlockElems(rs), BlockElem(r));
  }

  lemma ItemBytesSnoc(items: seq<Item>, item: Item)
    ensures ItemBytes(items + [item]) == ItemBytes(items) + Ser(ItemElem(item))
  {
    hide ItemElem, Ser;
    ItemElemsAppend(items, [item]);
    assert ItemElems([item]) == [ItemElem(item)];
    SerSnoc(ItemElems(items), ItemElem(item));
  }

  /** Items are back to back. */
  lemma ItemAtNext(c: Config, items: seq<Item>, k: nat)
    requires k < |items|
    ensures ItemAt(c, items, k + 1) == ItemAt(c, items, k) + |Ser(ItemElem(items[k]))|
  {
    hide ItemElem, Ser, ItemBytes;
    assert items[..k + 1] == items[..k] + [items[k]];
    ItemBytesSnoc(items[..k], items[k]);
  }

  lemma ClusterBytes(item: Item)
    requires item.Cluster?
    ensures |Ser(ItemElem(item))| == 5 + |SerAll(item.lead + BlockElems(item.blocks))|
  {
    assert |IdBytes(CLUSTER)| == 4;
  }

  // ----- nothing that is written moves -----

  /** A Cluster may gain Blocks at its end; everything else stays. */
  predicate SameItem(a: Item, b: Item) {
    a == b || (a.Cluster? && b.Cluster? && a.time == b.time && a.lead == b.lead && a.blocks <= b.blocks)
  }

  predicate Extends(c: Config, a: seq<Item>, b: seq<Item>) {
    |a| <= |b| && forall k :: 0 <= k < |a| ==> SameItem(a[k], b[k]) && ItemAt(c, a, k) == ItemAt(c, b, k)
  }

  lemma PutExtends(c: Config, items: seq<Item>, r: BlockRec)
    requires Last(items)
    ensures Extends(c, items, Put(items, r)) && Last(Put(items, r)) && |Put(items, r)| == |items|
  {
    hide ItemBytes;
    var more := Put(items, r);
    forall k | 0 <= k < |items|
      ensures ItemAt(c, items, k) == ItemAt(c, more, k)
    {
      assert more[..k] == items[..k];
    }
  }

  lemma SnocExtends(c: Config, items: seq<Item>, item: Item)
    ensures Extends(c, items, items + [item])
    ensures ItemAt(c, items + [item], |items|) == c.head + |ItemBytes(items)|
  {
    hide ItemBytes;
    var more := items + [item];
    forall k | 0 <= k <= |items|
      ensures more[..k] == items[..k]
    {
    }
    assert items[..|items|] == items;
  }

  // ----- the fields that describe the open Cluster -----

  predicate OpenIsLast(c: Config, s: State) {
    Last(s.items) &&
    var n := |s.items| - 1;
    var cl := s.items[n];
    && s.tc == cl.time
    && s.count == |cl.blocks|
    && s.bytes == BlockBytes(cl.blocks)
    && s.clusterAt == ItemAt(c, s.items, n)
    && s.bodyAt == s.clusterAt + 5
  }

  predicate Tracked(c: Config, s: State) {
    s.open ==> OpenIsLast(c, s)
  }

  /** The next byte to write is the end of the open Cluster's last Block. */
  lemma CursorIsBlockAt(c: Config, s: State)
    requires OpenIsLast(c, s)
    ensures var cl := s.items[|s.items| - 1]; Cursor(c, s) == s.bodyAt + BlockAt(cl, |cl.blocks|)
  {
    hide Ser, ItemElem, BlockElems, ItemBytes;
    var n := |s.items| - 1;
    ItemAtNext(c, s.items, n);
    ClusterBytes(s.items[n]);
    assert s.items[..n + 1] == s.items;
    assert s.items[n].blocks[..|s.items[n].blocks|] == s.items[n].blocks;
  }

  lemma WriteBlockTracks(c: Config, s: State, r: BlockRec)
    requires OpenIsLast(c, s)
    ensures OpenIsLast(c, WriteBlock(s, r))
    ensures Extends(c, s.items, WriteBlock(s, r).items)
  {
    hide Ser, ItemBytes, BlockElem, BlockBytes;
    var n := |s.items| - 1;
    PutExtends(c, s.items, r);
    BlockBytesSnoc(s.items[n].blocks, r);
  }

  lemma FlushLaceTracks(c: Config, s: State, i: nat)
    requires Ready(c, s) && i < |c.tracks| && Tracked(c, s)
    ensures Tracked(c, FlushLace(c, s, i)) && Extends(c, s.items, FlushLace(c, s, i).items)
  {
    hide WriteBlock, BlockBytes, ItemBytes, LaceBlock, Extends, Cursor;
    ExtendsSelf(c, s.items);
    var l := s.laces[i];
    if l.frames != [] {
      var taken := s.(laces := s.laces[i := l.(frames := [])]);
      var cued := if !s.seen[i] && Indexable(c.tracks[i].media, l.key) then AddCue(c, taken, i, s.tc + l.offset, None)
                  else taken;
      WriteBlockTracks(c, cued, LaceBlock(c, i, l));
    }
  }

  lemma ExtendsSelf(c: Config, items: seq<Item>)
    ensures Extends(c, items, items)
  {
  }

  lemma StartClusterTracks(c: Config, s: State, ms: int)
    requires Ready(c, s) && NothingPending(s)
    ensures Tracked(c, StartCluster(c, s, ms)) && Extends(c, s.items, StartCluster(c, s, ms).items)
  {
    hide FullLead, ItemBytes, Extends;
    SnocExtends(c, s.items, Cluster(NonNegative(ms), FullLead(c, s, ms), []));
    assert BlockElems([]) == [] && SerAll([]) == [];
  }

  lemma AppendToLaceTracks(c: Config, s: State, i: nat, offset: int, f: Frame)
    requires Ready(c, s) && s.open && i < |c.tracks| && Tracked(c, s)
    ensures Tracked(c, AppendToLace(c, s, i, offset, f)) && Extends(c, s.items, AppendToLace(c, s, i, offset, f).items)
  {
    hide FlushLace, BlockBytes, ItemBytes, Extends;
    ExtendsSelf(c, s.items);
    if MustFlush(c, s.laces[i], f) {
      FlushLaceTracks(c, s, i);
    }
  }

  lemma PlaceTracks(c: Config, s: State, f: Frame)
    requires Ready(c, s) && s.open && f.stream < |c.tracks| && Tracked(c, s)
    ensures Tracked(c, Place(c, s, f)) && Extends(c, s.items, Place(c, s, f).items)
  {
    hide WriteBlock, BlockBytes, ItemBytes, UnlacedBlock, AppendToLace, Extends, Cursor;
    if f.group.None? && c.mode != NoLacing {
      AppendToLaceTracks(c, s, f.stream, f.ms - s.tc, f);
    } else {
      var cued := CueFor(c, s, f);
      WriteBlockTracks(c, cued, UnlacedBlock(c, s, f));
    }
  }
}
