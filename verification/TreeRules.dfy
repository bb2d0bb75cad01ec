/** What an element tree contains: elements off the WebM profile, elements of version 5. */
module TreeRules {
  import opened Ids
  import opened Elements
  import opened WebmProfile

  predicate InProfile(e: Elem)
    decreases e, 1
  {
    !OffProfile(e.id) && (e.Leaf? || AllInProfile(e.kids))
  }

  predicate AllInProfile(es: seq<Elem>)
    decreases es, 0
  {
    es == [] || (InProfile(es[0]) && AllInProfile(es[1..]))
  }

  /** The elements that oblige the EBML header to declare version 5. */
  predicate IsV5(id: nat) {
    || id == EDITION_DISPLAY || id == EDITION_STRING || id == EDITION_LANGUAGE_IETF
    || id == CHAPTER_SKIP_TYPE || id == EMPHASIS || id == TAG_BLOCK_ADD_ID_VALUE
  }

  predicate HasV5(e: Elem)
    decreases e, 1
  {
    IsV5(e.id) || (!e.Leaf? && AnyV5(e.kids))
  }

  predicate AnyV5(es: seq<Elem>)
    decreases es, 0
  {
    es != [] && (HasV5(es[0]) || AnyV5(es[1..]))
  }

  lemma {:induction false} V5Append(a: seq<Elem>, b: seq<Elem>)
    ensures AnyV5(a + b) <==> AnyV5(a) || AnyV5(b)
  {
    hide HasV5;
    if a == [] {
      assert a + b == b;
    } else {
      assert (a + b)[1..] == a[1..] + b;
      V5Append(a[1..], b);
    }
  }

  lemma V5One(e: Elem)
    ensures AnyV5([e]) <==> HasV5(e)
  {
    hide HasV5;
    assert [e][1..] == [];
  }

  lemma V5Snoc(es: seq<Elem>, e: Elem)
    ensures AnyV5(es + [e]) <==> AnyV5(es) || HasV5(e)
  {
    V5Append(es, [e]);
    V5One(e);
  }

  lemma V5None()
    ensures !AnyV5([])
  {
  }

  lemma V5Node(e: Elem)
    requires !e.Leaf? && !IsV5(e.id)
    ensures HasV5(e) <==> AnyV5(e.kids)
  {
    hide AnyV5;
  }

  lemma {:induction false} ProfileAppend(a: seq<Elem>, b: seq<Elem>)
    ensures AllInProfile(a + b) <==> AllInProfile(a) && AllInProfile(b)
  {
    hide InProfile;
    if a == [] {
      assert a + b == b;
    } else {
      assert (a + b)[1..] == a[1..] + b;
      ProfileAppend(a[1..], b);
    }
  }

  lemma ProfileOne(e: Elem)
    ensures AllInProfile([e]) <==> InProfile(e)
  {
    hide InProfile;
    assert [e][1..] == [];
  }

  lemma ProfileNode(e: Elem)
    requires !e.Leaf? && !OffProfile(e.id)
    ensures InProfile(e) <==> AllInProfile(e.kids)
  {
    hide AllInProfile, OffProfile;
  }
}
