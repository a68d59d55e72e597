/**
  The intrusive circular lists of headers/listx.h.

  A list_head is a static cell with a next and a prev field: either the sentinel of a list
  (Head) or the cell embedded in entry number id of a table (Node), so that container_of is
  reading id. The two fields of all cells are the maps next and prev, from cell to cell. The
  ghost field rings says which sequence of nodes each sentinel's ring holds.
*/
module Listx {
  import opened Seqs

  datatype Link<H> = Head(head: H) | Node(id: nat)

  /** The cell at position i of the ring h, s[0], ..., s[|s| - 1], h. */
  ghost function At<H>(h: H, s: seq<nat>, i: int): Link<H> {
    if 0 <= i < |s| then Node(s[i]) else Head(h)
  }

  /** The next and prev fields link h and the nodes s into one circle. */
  ghost predicate Linked<H>(next: map<Link<H>, Link<H>>, prev: map<Link<H>, Link<H>>, h: H, s: seq<nat>) {
    && (forall i {:trigger next[At(h, s, i)]} {:trigger At(h, s, i) in next} ::
          -1 <= i < |s| ==> At(h, s, i) in next && next[At(h, s, i)] == At(h, s, i + 1))
    && (forall i {:trigger prev[At(h, s, i)]} {:trigger At(h, s, i) in prev} ::
          0 <= i <= |s| ==> At(h, s, i) in prev && prev[At(h, s, i)] == At(h, s, i - 1))
  }

  /** Every ring is linked, without repetition, and no node is in two rings. */
  ghost predicate AllLinked<H(!new)>(next: map<Link<H>, Link<H>>, prev: map<Link<H>, Link<H>>,
                                     rings: map<H, seq<nat>>)
  {
    && (forall h :: h in rings ==> NoDup(rings[h]) && Linked(next, prev, h, rings[h]))
    && (forall g, h, n :: g in rings && h in rings && n in rings[g] && n in rings[h] ==> g == h)
  }

  /** Is node n outside every ring? */
  ghost predicate Loose<H(!new)>(rings: map<H, seq<nat>>, n: nat) {
    forall h :: h in rings ==> n !in rings[h]
  }

  lemma LinkedFrame<H>(next: map<Link<H>, Link<H>>, prev: map<Link<H>, Link<H>>,
                       next': map<Link<H>, Link<H>>, prev': map<Link<H>, Link<H>>, h: H, s: seq<nat>)
    requires Linked(next, prev, h, s)
    requires forall i :: -1 <= i <= |s| ==>
      var x := At(h, s, i);
      && (x in next ==> x in next' && next'[x] == next[x])
      && (x in prev ==> x in prev' && prev'[x] == prev[x])
    ensures Linked(next', prev', h, s)
  {
    forall i | -1 <= i < |s|
      ensures At(h, s, i) in next' && next'[At(h, s, i)] == At(h, s, i + 1)
    {
      assert next[At(h, s, i)] == At(h, s, i + 1);
    }
    forall i | 0 <= i <= |s|
      ensures At(h, s, i) in prev' && prev'[At(h, s, i)] == At(h, s, i - 1)
    {
      assert prev[At(h, s, i)] == At(h, s, i - 1);
    }
  }

  /** __list_add between the last cell of ring h and its sentinel. */
  lemma LinkedAdd<H>(next: map<Link<H>, Link<H>>, prev: map<Link<H>, Link<H>>, h: H, s: seq<nat>, n: nat,
                     next': map<Link<H>, Link<H>>, prev': map<Link<H>, Link<H>>)
    requires Linked(next, prev, h, s) && NoDup(s) && n !in s
    requires next' == next[Node(n) := Head(h)][At(h, s, |s| - 1) := Node(n)]
    requires prev' == prev[Head(h) := Node(n)][Node(n) := At(h, s, |s| - 1)]
    ensures Linked(next', prev', h, s + [n])
  {
    var t := s + [n];
    forall i | -1 <= i < |t|
      ensures At(h, t, i) in next' && next'[At(h, t, i)] == At(h, t, i + 1)
    {
      if i < |s| - 1 {
        assert At(h, t, i) == At(h, s, i) != At(h, s, |s| - 1);
        assert At(h, s, i) in next;
      }
    }
    forall i | 0 <= i <= |t|
      ensures At(h, t, i) in prev' && prev'[At(h, t, i)] == At(h, t, i - 1)
    {
      if i < |s| {
        assert At(h, t, i) == At(h, s, i) != Head(h);
        assert At(h, s, i) in prev;
      }
    }
  }

  /** __list_del around position k of ring h. */
  lemma LinkedDel<H>(next: map<Link<H>, Link<H>>, prev: map<Link<H>, Link<H>>, h: H, s: seq<nat>, k: nat,
                     next': map<Link<H>, Link<H>>, prev': map<Link<H>, Link<H>>)
    requires Linked(next, prev, h, s) && NoDup(s) && k < |s|
    requires next' == next[At(h, s, k - 1) := At(h, s, k + 1)][Node(s[k]) := Node(s[k])]
    requires prev' == prev[At(h, s, k + 1) := At(h, s, k - 1)][Node(s[k]) := Node(s[k])]
    ensures Linked(next', prev', h, s[..k] + s[k + 1..])
  {
    var t := s[..k] + s[k + 1..];
    assert forall j :: 0 <= j < |t| ==> t[j] == (if j < k then s[j] else s[j + 1]);
    forall i | -1 <= i < |t|
      ensures At(h, t, i) in next' && next'[At(h, t, i)] == At(h, t, i + 1)
    {
      var j := if i < k then i else i + 1;
      assert At(h, t, i) == At(h, s, j) != Node(s[k]);
      assert At(h, s, j) in next;
    }
    forall i | 0 <= i <= |t|
      ensures At(h, t, i) in prev' && prev'[At(h, t, i)] == At(h, t, i - 1)
    {
      var j := if i < k then i else i + 1;
      assert At(h, t, i) == At(h, s, j) != Node(s[k]);
      assert At(h, s, j) in prev;
    }
  }

  class Rings<H(==,!new)> {
    var next: map<Link<H>, Link<H>>
    var prev: map<Link<H>, Link<H>>
    ghost var rings: map<H, seq<nat>>

    ghost predicate Valid()
      reads this
    {
      AllLinked(next, prev, rings)
    }

    constructor ()
      ensures Valid() && rings == map[]
    {
      next, prev, rings := map[], map[], map[];
    }

    /** INIT_LIST_HEAD on a sentinel: an empty ring. */
    method InitHead(h: H)
      requires Valid()
      requires h in rings ==> rings[h] == []
      modifies this
      ensures Valid() && rings == old(rings)[h := []]
    {
      ghost var s := rings;
      next, prev := next[Head(h) := Head(h)], prev[Head(h) := Head(h)];
      rings := rings[h := []];
      forall g | g in rings && g != h
        ensures Linked(next, prev, g, rings[g])
      {
        LinkedFrame(old(next), old(prev), next, prev, g, s[g]);
      }
    }

    /** INIT_LIST_HEAD on the cell of an entry that is in no ring. */
    method InitNode(n: nat)
      requires Valid() && Loose(rings, n)
      modifies this
      ensures Valid() && rings == old(rings)
      ensures Node(n) in next && next[Node(n)] == Node(n) && Node(n) in prev && prev[Node(n)] == Node(n)
    {
      next, prev := next[Node(n) := Node(n)], prev[Node(n) := Node(n)];
      forall g | g in rings
        ensures Linked(next, prev, g, rings[g])
      {
        LinkedFrame(old(next), old(prev), next, prev, g, rings[g]);
      }
    }

    /** __list_add */
    method AddBetween(n: nat, p: Link<H>, q: Link<H>)
      modifies this`next, this`prev
      ensures prev == old(prev)[q := Node(n)][Node(n) := p]
      ensures next == old(next)[Node(n) := q][p := Node(n)]
    {
      prev := prev[q := Node(n)];
      next := next[Node(n) := q];
      prev := prev[Node(n) := p];
      next := next[p := Node(n)];
    }

    /** list_add_tail: n becomes the last node of ring h, and every other ring stays as it was. */
    method AddTail(n: nat, h: H)
      requires Valid() && h in rings && Loose(rings, n)
      modifies this
      ensures Valid() && rings == old(rings)[h := old(rings)[h] + [n]]
    {
      ghost var s := rings;
      assert At(h, s[h], |s[h]|) in prev;
      AddBetween(n, prev[Head(h)], Head(h));
      rings := rings[h := rings[h] + [n]];
      LinkedAdd(old(next), old(prev), h, s[h], n, next, prev);
      forall g | g in rings && g != h
        ensures Linked(next, prev, g, rings[g])
      {
        LinkedFrame(old(next), old(prev), next, prev, g, s[g]);
      }
    }

    /** list_del: n leaves the ring it is in and is linked to itself; nothing else moves. */
    method Del(n: nat, ghost h: H)
      requires Valid() && h in rings && n in rings[h]
      modifies this
      ensures Valid() && rings == old(rings)[h := Minus(old(rings)[h], {n})]
      ensures Loose(rings, n)
      ensures Node(n) in next && next[Node(n)] == Node(n)
      ensures Node(n) in prev && prev[Node(n)] == Node(n)
    {
      ghost var s := rings;
      ghost var k :| 0 <= k < |s[h]| && s[h][k] == n;
      assert At(h, s[h], k) in next && At(h, s[h], k) in prev;
      var p, q := prev[Node(n)], next[Node(n)];
      assert p == At(h, s[h], k - 1) && q == At(h, s[h], k + 1);
      // __list_del(p, q)
      prev := prev[q := p];
      next := next[p := q];
      next := next[Node(n) := Node(n)];
      prev := prev[Node(n) := Node(n)];
      MinusAt(s[h], k);
      LinkedDel(old(next), old(prev), h, s[h], k, next, prev);
      rings := rings[h := Minus(s[h], {n})];
      forall g | g in rings && g != h
        ensures Linked(next, prev, g, rings[g])
      {
        LinkedFrame(old(next), old(prev), next, prev, g, s[g]);
      }
    }

    /** list_empty */
    method Empty(h: H) returns (b: bool)
      requires Valid() && h in rings
      ensures b <==> rings[h] == []
    {
      assert At(h, rings[h], -1) in next;
      b := next[Head(h)] == Head(h);
    }

    /** head->next: the first node, or the sentinel itself when the ring is empty. */
    method First(h: H) returns (r: Link<H>)
      requires Valid() && h in rings
      ensures r == At(h, rings[h], 0)
    {
      assert At(h, rings[h], -1) in next;
      r := next[Head(h)];
    }

    /** pos->next while a loop walks along ring h. */
    method Advance(pos: Link<H>, ghost h: H, ghost i: nat) returns (r: Link<H>)
      requires Valid() && h in rings && i < |rings[h]|
      requires pos == At(h, rings[h], i)
      ensures r == At(h, rings[h], i + 1)
    {
      assert At(h, rings[h], i) in next;
      r := next[pos];
    }
  }
}
