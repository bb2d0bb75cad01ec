/** The byte budget of a Cluster, and by how much it can be passed. */
module MuxerBudget {
  import opened Elements
  import opened Lacing
  import opened Muxer
  import opened MuxerLayout

  /** Without its last `slack` Blocks, the Cluster is below the budget. */
  predicate Within(c: Config, blocks: seq<BlockRec>, slack: nat) {
    |blocks| > slack ==> BlockBytes(blocks[..|blocks| - slack]) < c.maxBytes
  }

  /** One Block over without lacing, two with it. */
  function Slack(c: Config): nat {
    if c.mode == NoLacing then 1 else 2
  }

  predicate ClustersWithin(c: Config, items: seq<Item>) {
    forall k :: 0 <= k < |items| && items[k].Cluster? ==> Within(c, items[k].blocks, Slack(c))
  }

  /** While a lace is pending, the open Cluster has used at most one Block of its slack. */
  predicate Budgeted(c: Config, s: State) {
    && ClustersWithin(c, s.items)
    && (s.open && !NothingPending(s) ==> Last(s.items) && Within(c, s.items[|s.items| - 1].blocks, 1))
  }

  lemma PutWithin(c: Config, items: seq<Item>, r: BlockRec, slack: nat)
    requires Last(items) && Within(c, items[|items| - 1].blocks, slack)
    ensures Last(Put(items, r)) && |Put(items, r)| == |items|
    ensures Within(c, Put(items, r)[|items| - 1].blocks, slack + 1)
  {
    hide BlockBytes;
    var a := items[|items| - 1].blocks;
    assert |a| > slack ==> (a + [r])[..|a| - slack] == a[..|a| - slack];
  }

  /** Below the budget as a whole is within it without slack. */
  lemma FreshWithin(c: Config, blocks: seq<BlockRec>, slack: nat)
    requires BlockBytes(blocks) < c.maxBytes
    ensures Within(c, blocks, slack)
  {
    hide BlockElem;
    if |blocks| > slack {
      var n := |blocks| - slack;
      assert blocks == blocks[..n] + blocks[n..];
      BlockElemsAppend(blocks[..n], blocks[n..]);
      SerAppend(BlockElems(blocks[..n]), BlockElems(blocks[n..]));
    }
  }

  lemma WithinMore(c: Config, blocks: seq<BlockRec>, slack: nat)
    requires Within(c, blocks, slack)
    ensures Within(c, blocks, slack + 1)
  {
    if |blocks| > slack + 1 {
      FreshWithin(c, blocks[..|blocks| - slack], 1);
      assert blocks[..|blocks| - slack][..|blocks| - slack - 1] == blocks[..|blocks| - slack - 1];
    }
  }

  lemma PutKeepsAll(c: Config, items: seq<Item>, r: BlockRec)
    requires Last(items) && ClustersWithin(c, items)
    requires Within(c, Put(items, r)[|items| - 1].blocks, Slack(c))
    ensures ClustersWithin(c, Put(items, r))
  {
    hide Within;
  }

  lemma FlushLaceItems(c: Config, s: State, i: nat)
    requires Ready(c, s) && i < |c.tracks| && s.laces[i].frames != []
    ensures FlushLace(c, s, i).items == Put(s.items, LaceBlock(c, i, s.laces[i]))
  {
    hide LaceBlock, Put, Cursor, BlockElem;
  }

  lemma FlushLaceBudget(c: Config, s: State, i: nat)
    requires Ready(c, s) && i < |c.tracks| && Budgeted(c, s) && OnlyOnePending(c, s)
    ensures Budgeted(c, FlushLace(c, s, i))
    ensures s.laces[i].frames == [] ==> FlushLace(c, s, i) == s
    ensures s.laces[i].frames != [] ==> NothingPending(FlushLace(c, s, i))
  {
    hide FlushLace, LaceBlock, Within, ClustersWithin, Put;
    if s.laces[i].frames == [] {
      NothingToFlush(c, s, i);
    } else {
      var r := LaceBlock(c, i, s.laces[i]);
      FlushLaceItems(c, s, i);
      PutWithin(c, s.items, r, 1);
      PutKeepsAll(c, s.items, r);
    }
  }

  lemma NothingToFlush(c: Config, s: State, i: nat)
    requires Ready(c, s) && i < |c.tracks| && s.laces[i].frames == []
    ensures FlushLace(c, s, i) == s
  {
  }

  lemma StartClusterBudget(c: Config, s: State, ms: int)
    requires Ready(c, s) && NothingPending(s) && Budgeted(c, s)
    ensures Budgeted(c, StartCluster(c, s, ms))
  {
    hide FullLead, BlockBytes, Cursor;
  }

  /** A packet that found room in the Cluster leaves it within the budget and its slack. */
  lemma PlaceBudget(c: Config, s: State, f: Frame)
    requires Ready(c, s) && s.open && f.stream < |c.tracks| && OpenIsLast(c, s) && Budgeted(c, s)
             && OnlyOnePending(c, s)
    requires s.bytes < c.maxBytes
    requires f.group.Some? ==> NothingPending(s)
    ensures Budgeted(c, Place(c, s, f))
  {
    hide AppendToLace, UnlacedBlock, Within, BlockBytes, ItemAt, ClustersWithin, Place, Put;
    var cl := s.items[|s.items| - 1];
    FreshWithin(c, cl.blocks, 0);
    if f.group.None? && c.mode != NoLacing {
      WithinMore(c, cl.blocks, 0);
      AppendBudget(c, s, f.stream, f.ms - s.tc, f);
      PlaceItems(c, s, f);
    } else {
      var r := UnlacedBlock(c, s, f);
      PlaceItems(c, s, f);
      PutWithin(c, s.items, r, 0);
      WithinMore(c, Put(s.items, r)[|s.items| - 1].blocks, 1);
      PutKeepsAll(c, s.items, r);
    }
  }

  lemma PlaceItems(c: Config, s: State, f: Frame)
    requires Ready(c, s) && s.open && f.stream < |c.tracks|
    ensures var t := Place(c, s, f);
            if f.group.None? && c.mode != NoLacing then
              var a := AppendToLace(c, s, f.stream, f.ms - s.tc, f);
              t.items == a.items && t.laces == a.laces && t.open == a.open
            else t.items == Put(s.items, UnlacedBlock(c, s, f)) && t.laces == s.laces && t.open
  {
    hide UnlacedBlock, Put, Cursor, BlockElem, AppendToLace, DurationMs, Indexable;
  }

  lemma AppendBudget(c: Config, s: State, i: nat, offset: int, f: Frame)
    requires Ready(c, s) && s.open && i < |c.tracks| && Budgeted(c, s) && OnlyOnePending(c, s) && c.mode != NoLacing
    requires Within(c, s.items[|s.items| - 1].blocks, 0) && Within(c, s.items[|s.items| - 1].blocks, 1)
    ensures Budgeted(c, AppendToLace(c, s, i, offset, f))
  {
    hide FlushLace, Within, ClustersWithin, Put, LaceBlock;
    if MustFlush(c, s.laces[i], f) {
      FlushLaceBudget(c, s, i);
      FlushLaceItems(c, s, i);
      PutWithin(c, s.items, LaceBlock(c, i, s.laces[i]), 0);
    }
  }
}
