/** Link navigation on the recording object: the links of each comparison. */
module Navigation {
  import opened Conditions
  import opened QueryBuilder

  /** What user code does to the recording object, in order. */
  datatype Event = Link(col: Column) | Compared(leaf: Leaf)

  /** Comparisons that use up the pending links: all but the dictionary ones. */
  predicate Consumes(e: Event) {
    e.Compared? && !OnDictionary(e.leaf)
  }

  function Links(events: seq<Event>): seq<Column> {
    if events == [] then []
    else Links(events[..|events| - 1]) + (var e := events[|events| - 1]; if e.Link? then [e.col] else [])
  }

  /** The index just behind the last consuming comparison. */
  function SinceLast(events: seq<Event>): (k: nat)
    ensures k <= |events|
    ensures k > 0 ==> Consumes(events[k - 1])
    ensures forall i :: k <= i < |events| ==> !Consumes(events[i])
  {
    if events == [] then 0
    else if Consumes(events[|events| - 1]) then |events|
    else SinceLast(events[..|events| - 1])
  }

  /** The links navigated and not used up, after the given events. */
  function Pending(events: seq<Event>): seq<Column> {
    Links(events[SinceLast(events)..])
  }

  lemma PendingAfter(events: seq<Event>, e: Event)
    ensures Pending(events + [e]) ==
            if Consumes(e) then [] else Pending(events) + (if e.Link? then [e.col] else [])
  {
    var all := events + [e];
    assert all[..|all| - 1] == events;
    if !Consumes(e) {
      var k := SinceLast(events);
      assert all[k..][..|all[k..]| - 1] == events[k..];
    }
  }

  method OneEvent(builder: RBool, e: Event) returns (a: Atom)
    modifies builder, builder.q
    ensures builder.q == old(builder.q) || fresh(builder.q)
    ensures builder.chain == if Consumes(e) then [] else old(builder.chain) + (if e.Link? then [e.col] else [])
    ensures e.Compared? ==> a == RecordedVia(old(builder.chain), e.leaf) && builder.q.cond.Conj? && builder.q.cond.c2 == Test(a)
  {
    match e
    case Link(col) =>
      builder.AddLinkChain(col);
      a := CompareEntry(0, "", Eq, Null);
    case Compared(l) =>
      var r := builder.Comparison(l);
      a := LastTest(r.q.cond);
  }

  /** The comparison at position `i` is recorded with exactly the links pending there, in order. */
  predicate RecordedAt(events: seq<Event>, i: nat, a: Atom)
    requires i < |events|
  {
    events[i].Compared? ==> a == RecordedVia(Pending(events[..i]), events[i].leaf) && OnItsColumn(Pending(events[..i]), events[i].leaf, a)
  }

  /** On the end of the pending links, or on the object's own dictionary. */
  predicate OnItsColumn(chain: seq<Column>, l: Leaf, a: Atom) {
    if OnDictionary(l) then a.CompareEntry? && a.col == l.col && a.entry == l.entry
    else a.Compare? && a.path == chain && a.col == l.col
  }

  predicate AllRecorded(events: seq<Event>, recorded: seq<Atom>) {
    |recorded| <= |events| && forall i :: 0 <= i < |recorded| ==> RecordedAt(events, i, recorded[i])
  }

  lemma OneMoreRecorded(events: seq<Event>, recorded: seq<Atom>, a: Atom)
    requires |recorded| < |events| && AllRecorded(events, recorded) && RecordedAt(events, |recorded|, a)
    ensures AllRecorded(events, recorded + [a])
  {
  }

  /** Holds over any sequence of navigations and comparisons. */
  method Session(builder: RBool, events: seq<Event>) returns (recorded: seq<Atom>)
    requires builder.chain == []
    modifies builder, builder.q
    ensures builder.chain == Pending(events)
    ensures |recorded| == |events| && AllRecorded(events, recorded)
    ensures forall i :: 0 <= i < |events| && Consumes(events[i]) ==>
              recorded[i].Compare? && recorded[i].path == Pending(events[..i]) && recorded[i].col == events[i].leaf.col
  {
    recorded := [];
    for i := 0 to |events|
      invariant builder.q == old(builder.q) || fresh(builder.q)
      invariant |recorded| == i && AllRecorded(events, recorded)
      invariant builder.chain == Pending(events[..i])
    {
      NextPending(events, i);
      var a := OneEvent(builder, events[i]);
      if events[i].Compared? { RecordedOn(Pending(events[..i]), events[i].leaf); }
      OneMoreRecorded(events, recorded, a);
      recorded := recorded + [a];
    }
    assert events[..|events|] == events;
    forall i | 0 <= i < |events| && Consumes(events[i])
      ensures recorded[i].Compare? && recorded[i].path == Pending(events[..i]) && recorded[i].col == events[i].leaf.col
    {
      assert RecordedAt(events, i, recorded[i]);
    }
  }

  lemma NextPending(events: seq<Event>, i: nat)
    requires i < |events|
    ensures Pending(events[..i + 1]) ==
            if Consumes(events[i]) then [] else Pending(events[..i]) + (if events[i].Link? then [events[i].col] else [])
  {
    PendingAfter(events[..i], events[i]);
    assert events[..i] + [events[i]] == events[..i + 1];
  }

  /** The comparison a query was extended with last. */
  function LastTest(c: Condition): Atom
    requires c.Conj? && c.c2.Test?
  {
    c.c2.atom
  }

  function Navigated(links: seq<Column>): (events: seq<Event>)
    ensures |events| == |links| && forall i :: 0 <= i < |links| ==> events[i] == Link(links[i])
  {
    seq(|links|, i requires 0 <= i < |links| => Link(links[i]))
  }

  lemma {:induction false} NavigatingAdds(events: seq<Event>, links: seq<Column>)
    ensures Pending(events + Navigated(links)) == Pending(events) + links
    decreases |links|
  {
    if links == [] {
      assert events + Navigated(links) == events;
    } else {
      var init, last := links[..|links| - 1], links[|links| - 1];
      NavigatingAdds(events, init);
      var before := events + Navigated(init);
      assert events + Navigated(links) == before + [Link(last)];
      assert Pending(before + [Link(last)]) == Pending(before) + [last] by { PendingAfter(before, Link(last)); }
    }
  }

  /** Right behind a consuming comparison nothing is pending, whatever was navigated before. */
  lemma NothingLeaks(before: seq<Event>, l: Leaf, links: seq<Column>)
    requires !OnDictionary(l)
    ensures Pending(before + [Compared(l)] + Navigated(links)) == links
  {
    PendingAfter(before, Compared(l));
    NavigatingAdds(before + [Compared(l)], links);
  }

  /** A dictionary comparison neither sees the links before it nor clears them: they reach the next
      comparison. */
  lemma DictionaryLeaks(col: Column, d: Leaf)
    requires OnDictionary(d)
    ensures Pending([Link(col), Compared(d)]) == [col]
    ensures forall chain, chain' :: RecordedVia(chain, d) == RecordedVia(chain', d)
  {
    PendingAfter([], Link(col));
    assert [] + [Link(col)] == [Link(col)];
    PendingAfter([Link(col)], Compared(d));
    assert [Link(col)] + [Compared(d)] == [Link(col), Compared(d)];
  }
}
