/** List facts about the pending queue: LREM 0 on a prefix, and what it moves under an index. */
module QueueLists {
  import opened TaskStore

  /** The entries before an index, or all there are. */
  function Below(q: seq<string>, i: nat): seq<string> {
    if i <= |q| then q[..i] else q
  }

  /** The entries that removing a trace moves from the index or beyond to before it. */
  function Slides(q: seq<string>, i: nat, t: string): multiset<string> {
    multiset(Below(RemoveAll(q, t), i)) - multiset(Below(q, i))
  }

  lemma {:induction false} RemoveAllConcat(a: seq<string>, b: seq<string>, t: string)
    ensures RemoveAll(a + b, t) == RemoveAll(a, t) + RemoveAll(b, t)
  {
    if a == [] {
      EmptyConcat(b, t);
    } else {
      var u, rest := a[0], a[1..];
      assert a == [u] + rest;
      RemoveAllConcat(rest, b, t);
      ConcatWithHead(u, rest, b, t);
      Associative([u], rest, b);
    }
  }

  lemma ConcatWithHead(u: string, a: seq<string>, b: seq<string>, t: string)
    requires RemoveAll(a + b, t) == RemoveAll(a, t) + RemoveAll(b, t)
    ensures RemoveAll([u] + (a + b), t) == RemoveAll([u] + a, t) + RemoveAll(b, t)
  {
    RemoveAllHead(u, a + b, t);
    RemoveAllHead(u, a, t);
    Associative(if u == t then [] else [u], RemoveAll(a, t), RemoveAll(b, t));
  }

  lemma Associative(x: seq<string>, y: seq<string>, z: seq<string>)
    ensures x + (y + z) == x + y + z
  {
  }

  lemma EmptyConcat(b: seq<string>, t: string)
    ensures RemoveAll([] + b, t) == RemoveAll([], t) + RemoveAll(b, t)
  {
    assert [] + b == b && [] + RemoveAll(b, t) == RemoveAll(b, t);
  }

  lemma RemoveAllHead(u: string, tail: seq<string>, t: string)
    ensures RemoveAll([u] + tail, t) == (if u == t then [] else [u]) + RemoveAll(tail, t)
  {
    assert ([u] + tail)[1..] == tail;
  }

  lemma RemoveAllSplits(q: seq<string>, p: seq<string>, t: string)
    requires p <= q
    ensures RemoveAll(q, t) == RemoveAll(p, t) + RemoveAll(q[|p|..], t)
  {
    assert q == p + q[|p|..];
    RemoveAllConcat(p, q[|p|..], t);
  }

  lemma RemoveAllKeepsPrefix(q: seq<string>, p: seq<string>, t: string)
    requires p <= q
    ensures RemoveAll(p, t) <= RemoveAll(q, t) && |RemoveAll(p, t)| <= |p|
  {
    RemoveAllSplits(q, p, t);
    RemoveAllShort(p, t);
  }

  lemma {:induction false} RemoveAllShort(q: seq<string>, t: string)
    ensures |RemoveAll(q, t)| <= |q|
  {
    if q != [] { RemoveAllShort(q[1..], t); }
  }

  lemma {:induction false} RemoveAllAbsent(q: seq<string>, t: string)
    requires t !in q
    ensures RemoveAll(q, t) == q
  {
    if q != [] { RemoveAllAbsent(q[1..], t); }
  }

  lemma RemoveAllMembers(q: seq<string>, t: string)
    ensures forall x :: x in RemoveAll(q, t) <==> x in q && x != t
  {
    forall x ensures x in RemoveAll(q, t) <==> x in q && x != t {
      assert x in RemoveAll(q, t) <==> x in multiset(RemoveAll(q, t));
      assert x in q <==> x in multiset(q);
    }
  }

  lemma {:induction false} RemoveAllShrinks(q: seq<string>, t: string)
    requires t in q
    ensures |RemoveAll(q, t)| < |q|
  {
    if q[0] == t {
      RemoveAllShort(q[1..], t);
    } else {
      assert t in q[1..];
      RemoveAllShrinks(q[1..], t);
    }
  }

  /** What slides under the index is what is there afterwards and was not before. */
  lemma SlidesCount(q: seq<string>, i: nat, t: string, x: string)
    requires x != t
    ensures multiset(Below(RemoveAll(q, t), i))[x] == multiset(Below(q, i))[x] + Slides(q, i, t)[x]
  {
    KeptIsBelow(q, i, t);
    MoreCounts(RemoveAll(Below(q, i), t), Below(RemoveAll(q, t), i), x);
  }

  lemma KeptIsBelow(q: seq<string>, i: nat, t: string)
    ensures RemoveAll(Below(q, i), t) <= Below(RemoveAll(q, t), i)
  {
    RemoveAllKeepsPrefix(q, Below(q, i), t);
    PrefixBelow(RemoveAll(Below(q, i), t), RemoveAll(q, t), i);
  }

  lemma PrefixBelow(p: seq<string>, q: seq<string>, i: nat)
    requires p <= q && |p| <= i
    ensures p <= Below(q, i)
  {
  }

  lemma MoreCounts(p: seq<string>, q: seq<string>, x: string)
    requires p <= q
    ensures multiset(p)[x] <= multiset(q)[x]
  {
    assert q == p + q[|p|..];
  }

  lemma BelowAppend(q: seq<string>, i: nat, t: string)
    ensures Below(q + [t], i) == Below(q, i) || Below(q + [t], i) == Below(q, i) + [t]
  {
  }
}
