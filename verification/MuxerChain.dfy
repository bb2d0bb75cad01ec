/** The Clusters' position hints, and walking backwards along them. */
module MuxerChain {
  import opened Wrappers
  import opened Ids
  import opened Elements
  import opened Splitter
  import opened Muxer
  import opened MuxerLayout

  /** The position of the last Cluster before item `k`. */
  function PrevAt(c: Config, items: seq<Item>, k: nat): Option<nat>
    requires k <= |items|
  {
    if k == 0 then None
    else if items[k - 1].Cluster? then Some(ItemAt(c, items, k - 1))
    else PrevAt(c, items, k - 1)
  }

  /** A Cluster's first children: these, and SilentTracks at most behind them. */
  predicate LedBy(hints: seq<Elem>, lead: seq<Elem>) {
    hints <= lead && forall i :: |hints| <= i < |lead| ==> lead[i].id == SILENT_TRACKS
  }

  /** Every Cluster begins with its Timestamp and its hints, computed from where it and its predecessor are. */
  predicate Chained(c: Config, items: seq<Item>) {
    forall k :: 0 <= k < |items| && items[k].Cluster? ==>
      LedBy(Lead(c, items[k].time, ItemAt(c, items, k), PrevAt(c, items, k)), items[k].lead)
  }

  predicate Linked(c: Config, s: State) {
    Chained(c, s.items) && s.prevAt == PrevAt(c, s.items, |s.items|)
  }

  lemma {:induction false} PrevAtStays(c: Config, a: seq<Item>, b: seq<Item>, k: nat)
    requires Extends(c, a, b) && k <= |a|
    ensures PrevAt(c, a, k) == PrevAt(c, b, k)
  {
    hide ItemAt;
    if k > 0 {
      assert SameItem(a[k - 1], b[k - 1]);
      PrevAtStays(c, a, b, k - 1);
    }
  }

  /** Blocks added to a Cluster leave the hints as they are. */
  lemma ChainStays(c: Config, a: seq<Item>, b: seq<Item>)
    requires Extends(c, a, b) && Chained(c, a) && |a| == |b|
    ensures Chained(c, b) && PrevAt(c, b, |b|) == PrevAt(c, a, |a|)
  {
    hide ItemAt, Lead, PrevAt, LedBy;
    PrevAtStays(c, a, b, |a|);
    forall k | 0 <= k < |b| && b[k].Cluster?
      ensures LedBy(Lead(c, b[k].time, ItemAt(c, b, k), PrevAt(c, b, k)), b[k].lead)
    {
      assert SameItem(a[k], b[k]);
      PrevAtStays(c, a, b, k);
    }
  }

  lemma ChainGrows(c: Config, items: seq<Item>, item: Item)
    requires Chained(c, items)
    requires item.Cluster? ==>
      LedBy(Lead(c, item.time, c.head + |ItemBytes(items)|, PrevAt(c, items, |items|)), item.lead)
    ensures Chained(c, items + [item])
    ensures PrevAt(c, items + [item], |items| + 1)
         == if item.Cluster? then Some(c.head + |ItemBytes(items)|) else PrevAt(c, items, |items|)
  {
    hide ItemAt, Lead, ItemBytes, LedBy;
    var more := items + [item];
    SnocExtends(c, items, item);
    PrevAtStays(c, items, more, |items|);
    forall k | 0 <= k < |more| && more[k].Cluster?
      ensures LedBy(Lead(c, more[k].time, ItemAt(c, more, k), PrevAt(c, more, k)), more[k].lead)
    {
      if k < |items| {
        assert SameItem(items[k], more[k]);
        PrevAtStays(c, items, more, k);
      }
    }
  }

  lemma SameCountKeepsLinks(c: Config, s: State, t: State)
    requires Linked(c, s) && Extends(c, s.items, t.items) && |t.items| == |s.items| && t.prevAt == s.prevAt
    ensures Linked(c, t)
  {
    hide Extends, Chained;
    ChainStays(c, s.items, t.items);
  }

  lemma FlushLaceLinks(c: Config, s: State, i: nat)
    requires Ready(c, s) && i < |c.tracks| && Tracked(c, s) && Linked(c, s)
    ensures Linked(c, FlushLace(c, s, i))
  {
    hide Extends, Chained, Linked, OpenIsLast;
    FlushLaceTracks(c, s, i);
    FlushLaceCount(c, s, i);
    SameCountKeepsLinks(c, s, FlushLace(c, s, i));
  }

  lemma FlushLaceCount(c: Config, s: State, i: nat)
    requires Ready(c, s) && i < |c.tracks|
    ensures |FlushLace(c, s, i).items| == |s.items| && FlushLace(c, s, i).prevAt == s.prevAt
  {
    hide LaceBlock, Cursor;
  }

  lemma PlaceLinks(c: Config, s: State, f: Frame)
    requires Ready(c, s) && s.open && f.stream < |c.tracks| && Tracked(c, s) && Linked(c, s)
    ensures Linked(c, Place(c, s, f))
  {
    hide Extends, Chained, Linked, OpenIsLast;
    PlaceTracks(c, s, f);
    PlaceCount(c, s, f);
    SameCountKeepsLinks(c, s, Place(c, s, f));
  }

  lemma PlaceCount(c: Config, s: State, f: Frame)
    requires Ready(c, s) && s.open && f.stream < |c.tracks|
    ensures |Place(c, s, f).items| == |s.items| && Place(c, s, f).prevAt == s.prevAt
  {
    hide FlushLace, UnlacedBlock, Cursor, DurationMs;
    if MustFlush(c, s.laces[f.stream], f) {
      FlushLaceCount(c, s, f.stream);
    }
  }

  lemma StartClusterLinks(c: Config, s: State, ms: int)
    requires Ready(c, s) && NothingPending(s) && Linked(c, s)
    ensures Linked(c, StartCluster(c, s, ms))
  {
    hide Chained, ItemBytes, PrevAt, LedBy, FullLead, Lead;
    LeadTime(c, ms, Cursor(c, s), s.prevAt);
    FullLeadLed(c, s, ms);
    ChainGrows(c, s.items, Cluster(NonNegative(ms), FullLead(c, s, ms), []));
  }

  lemma FullLeadLed(c: Config, s: State, ms: int)
    ensures LedBy(Lead(c, ms, Cursor(c, s), s.prevAt), FullLead(c, s, ms))
  {
    hide Lead, Cursor;
  }

  lemma LeadTime(c: Config, ms: int, at: nat, prev: Option<nat>)
    ensures Lead(c, NonNegative(ms), at, prev) == Lead(c, ms, at, prev)
  {
  }

  // ----- the backward walk -----

  /** The PrevSize among a Cluster's first children. */
  function PrevSizeOf(item: Item): Option<nat>
    requires item.Cluster?
  {
    var body :- Find(RawsOf(item.lead), PREV_SIZE);
    UintBody(body)
  }

  /** The item that starts at a position. */
  predicate StartsAt(c: Config, items: seq<Item>, k: nat, at: int) {
    k < |items| && items[k].Cluster? && ItemAt(c, items, k) == at
  }
}
