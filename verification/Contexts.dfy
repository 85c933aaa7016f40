/** Contexts as dicts that share nothing: how they are read, built and extended by one key. */
module Contexts {
  import opened Common
  import opened Tree
  import opened Graph
  import opened TransformGraph

  /** A closed part of the heap in which `v` is a tree that spells `j` out. */
  ghost predicate Spells<L>(h: Heap<L>, v: Val<L>, j: Json) {
    ClosedHeap(h) && Closed(h, v) && Represents(h, v, j) && TreeShaped(h, v)
  }

  /** `d` gets the field `key`: two parts of the heap become one. */
  ghost predicate FieldSet<L>(h: Heap<L>, d: L, key: string, v: Val<L>, part: Heap<L>, after: Heap<L>) {
    && d in h && h.Keys !! part.Keys && after.Keys == h.Keys + part.Keys
    && after[d] == h[d][key := v]
    && (forall l :: l in h && l != d ==> after[l] == h[l]) && (forall l :: l in part ==> after[l] == part[l])
  }

  /** The same as a write of one key. */
  ghost function FieldWrite<L>(h: Heap<L>, d: L, key: string, v: Val<L>, part: Heap<L>, after: Heap<L>): Write<L> {
    Write(h + part, after, Node(d), [key], v, 0, d, [])
  }

  lemma PartsClosed<L>(h: Heap<L>, part: Heap<L>)
    requires ClosedHeap(h) && ClosedHeap(part) && h.Keys !! part.Keys
    ensures ClosedHeap(h + part)
  {
    forall l, k | l in h + part && k in (h + part)[l] ensures Closed(h + part, (h + part)[l][k]) {
      assert Closed(if l in h then h else part, (h + part)[l][k]);
    }
  }

  lemma PartsTree<L>(h: Heap<L>, d: L, part: Heap<L>)
    requires ClosedHeap(h) && d in h && h.Keys !! part.Keys && TreeShaped(h, Node(d))
    ensures forall p :: Look(h + part, Node(d), p) == Look(h, Node(d), p)
    ensures OncePerNode(h + part, Node(d), h.Keys)
  {
    forall p ensures Look(h + part, Node(d), p) == Look(h, Node(d), p) {
      RegionKept(h, h + part, Node(d), p);
    }
    forall p, q, l | l in h && FoundAt(h + part, Node(d), p, l) && FoundAt(h + part, Node(d), q, l) ensures p == q {
      assert FoundAt(h, Node(d), p, l) && FoundAt(h, Node(d), q, l);
    }
  }

  lemma FieldIsWrite<L>(h: Heap<L>, d: L, key: string, v: Val<L>, part: Heap<L>, after: Heap<L>)
    requires FieldSet(h, d, key, v, part, after) && ClosedHeap(h) && ClosedHeap(part) && Closed(part, v)
    requires TreeShaped(h, Node(d))
    ensures OwnWrite(FieldWrite(h, d, key, v, part, after), h.Keys) && ClosedHeap(after)
  {
    assert [key][..0] == [];
    PartsClosed(h, part);
    PartsTree(h, d, part);
    GraftClosed(FieldWrite(h, d, key, v, part, after));
  }

  lemma FieldLooks<L>(h: Heap<L>, d: L, key: string, v: Val<L>, part: Heap<L>, after: Heap<L>, p: Path)
    requires FieldSet(h, d, key, v, part, after) && ClosedHeap(h) && ClosedHeap(part) && Closed(part, v)
    requires TreeShaped(h, Node(d))
    ensures [key] <= p ==> Look(after, Node(d), p) == Look(part, v, p[1..])
    ensures !([key] <= p) ==> Look(after, Node(d), p) == Look(h, Node(d), p)
  {
    var w := FieldWrite(h, d, key, v, part, after);
    FieldIsWrite(h, d, key, v, part, after);
    PartsTree(h, d, part);
    GraftMeaning(w, h.Keys, p);
    if [key] <= p {
      RegionKept(part, after, v, p[1..]);
    } else if p < [key] {
      assert p == [];
    }
  }

  lemma FieldRepresents<L>(h: Heap<L>, d: L, fields: map<string, Json>, key: string, v: Val<L>, j: Json, part: Heap<L>,
      after: Heap<L>)
    requires FieldSet(h, d, key, v, part, after) && Spells(h, Node(d), Obj(fields)) && Spells(part, v, j)
    ensures Represents(after, Node(d), Obj(fields[key := j]))
  {
    forall p ensures SameKind(Look(after, Node(d), p), Get(Obj(fields[key := j]), p)) {
      FieldLooks(h, d, key, v, part, after, p);
      if [key] <= p {
        assert SameKind(Look(part, v, p[1..]), Get(j, p[1..]));
      } else {
        assert p == [] || p[0] != key;
        assert SameKind(Look(h, Node(d), p), Get(Obj(fields), p));
      }
    }
  }

  lemma FieldTree<L>(h: Heap<L>, d: L, key: string, v: Val<L>, part: Heap<L>, after: Heap<L>, p: Path, q: Path, l: L)
    requires FieldSet(h, d, key, v, part, after) && ClosedHeap(h) && ClosedHeap(part) && Closed(part, v)
    requires TreeShaped(h, Node(d)) && TreeShaped(part, v)
    requires FoundAt(after, Node(d), p, l) && FoundAt(after, Node(d), q, l)
    ensures p == q
  {
    FieldLooks(h, d, key, v, part, after, p);
    FieldLooks(h, d, key, v, part, after, q);
    LooksStayIn(h, Node(d), p);
    LooksStayIn(h, Node(d), q);
    if [key] <= p {
      LooksStayIn(part, v, p[1..]);
    }
    if [key] <= q {
      LooksStayIn(part, v, q[1..]);
    }
    if [key] <= p && [key] <= q {
      assert p == [key] + p[1..] && q == [key] + q[1..];
      assert FoundAt(part, v, p[1..], l) && FoundAt(part, v, q[1..], l);
    } else {
      assert !([key] <= p) && !([key] <= q);
      assert FoundAt(h, Node(d), p, l) && FoundAt(h, Node(d), q, l);
    }
  }

  /** A tree gets a tree of other dicts under a key, and is a tree of the extended value. */
  lemma FieldSpells<L>(h: Heap<L>, d: L, fields: map<string, Json>, key: string, v: Val<L>, j: Json, part: Heap<L>,
      after: Heap<L>)
    requires FieldSet(h, d, key, v, part, after) && Spells(h, Node(d), Obj(fields)) && Spells(part, v, j)
    ensures Spells(after, Node(d), Obj(fields[key := j]))
  {
    FieldIsWrite(h, d, key, v, part, after);
    FieldRepresents(h, d, fields, key, v, j, part, after);
    forall p, q, l | l in after && FoundAt(after, Node(d), p, l) && FoundAt(after, Node(d), q, l) ensures p == q {
      FieldTree(h, d, key, v, part, after, p, q, l);
    }
  }

  /** `d` is a new dict with the fields of `c`. */
  ghost predicate CopiedShallowly<L>(h: Heap<L>, c: L, d: L, after: Heap<L>) {
    c in h && d !in h && after == h[d := h[c]]
  }

  lemma ShallowLooks<L>(h: Heap<L>, c: L, d: L, after: Heap<L>, p: Path)
    requires CopiedShallowly(h, c, d, after) && ClosedHeap(h)
    ensures Look(after, Node(d), p) == if p == [] then Some(Node(d)) else Look(h, Node(c), p)
    decreases |p|
  {
    if p != [] {
      var front := p[..|p| - 1];
      ShallowLooks(h, c, d, after, front);
      LooksStayIn(h, Node(c), front);
    }
  }

  /** `{**context}` is a tree of the same value; the old dict is not part of it. */
  lemma ShallowSpells<L>(h: Heap<L>, c: L, d: L, after: Heap<L>, fields: map<string, Json>)
    requires CopiedShallowly(h, c, d, after) && Spells(h, Node(c), Obj(fields))
    ensures Spells(after, Node(d), Obj(fields))
  {
    forall l, k | l in after && k in after[l] ensures Closed(after, after[l][k]) {
      assert Closed(h, h[if l == d then c else l][k]);
    }
    forall p ensures SameKind(Look(after, Node(d), p), Get(Obj(fields), p)) {
      ShallowLooks(h, c, d, after, p);
      assert SameKind(Look(h, Node(c), p), Get(Obj(fields), p));
    }
    forall p, q, l | l in after && FoundAt(after, Node(d), p, l) && FoundAt(after, Node(d), q, l) ensures p == q {
      ShallowLooks(h, c, d, after, p);
      ShallowLooks(h, c, d, after, q);
      LooksStayIn(h, Node(c), p);
      LooksStayIn(h, Node(c), q);
      assert p != [] ==> FoundAt(h, Node(c), p, l);
      assert q != [] ==> FoundAt(h, Node(c), q, l);
    }
  }

  /** A single dict without fields, and a value that is no dict. */
  lemma EmptySpells<L>(h: Heap<L>, d: L)
    requires h == map[d := map[]]
    ensures Spells(h, Node(d), Obj(map[]))
  {
    forall p ensures Look(h, Node(d), p) == if p == [] then Some(Node(d)) else None {
      EmptyLooks(h, d, p);
    }
  }

  lemma {:induction false} EmptyLooks<L>(h: Heap<L>, d: L, p: Path)
    requires h == map[d := map[]]
    ensures Look(h, Node(d), p) == if p == [] then Some(Node(d)) else None
    decreases |p|
  {
    if p != [] {
      EmptyLooks(h, d, p[..|p| - 1]);
    }
  }

  lemma AtomSpells<L>(h: Heap<L>, j: Json)
    requires h == map[] && !j.Obj?
    ensures Spells(h, if j.Null? then Nil else Text(j.text), j)
  {
    var v: Val<L> := if j.Null? then Nil else Text(j.text);
    forall p ensures Look(h, v, p) == if p == [] then Some(v) else None {
      AtomLooks(h, v, p);
    }
  }

  lemma {:induction false} AtomLooks<L>(h: Heap<L>, v: Val<L>, p: Path)
    requires h == map[] && !v.Node?
    ensures Look(h, v, p) == if p == [] then Some(v) else None
    decreases |p|
  {
    if p != [] {
      AtomLooks(h, v, p[..|p| - 1]);
    }
  }

  /** A field of a tree is a tree of the field's value. */
  lemma FieldOfTree<L>(h: Heap<L>, d: L, fields: map<string, Json>, key: string)
    requires Spells(h, Node(d), Obj(fields))
    ensures d in h && (key in h[d] <==> key in fields)
    ensures key in fields ==> Spells(h, h[d][key], fields[key])
  {
    LookKey(h, d, key);
    assert SameKind(Look(h, Node(d), [key]), Get(Obj(fields), [key]));
    if key in fields {
      assert Get(Obj(fields), [key]) == Get(fields[key], []);
      var v := h[d][key];
      assert Closed(h, v);
      forall p ensures SameKind(Look(h, v, p), Get(fields[key], p)) {
        LookConcat(h, Node(d), [key], p);
        GetConcat(Obj(fields), [key], p);
        assert SameKind(Look(h, Node(d), [key] + p), Get(Obj(fields), [key] + p));
      }
      forall p, q, l | l in h && FoundAt(h, v, p, l) && FoundAt(h, v, q, l) ensures p == q {
        LookConcat(h, Node(d), [key], p);
        LookConcat(h, Node(d), [key], q);
        assert FoundAt(h, Node(d), [key] + p, l) && FoundAt(h, Node(d), [key] + q, l);
        assert ([key] + p)[1..] == p && ([key] + q)[1..] == q;
      }
    }
  }

  lemma LookKey<L>(h: Heap<L>, d: L, key: string)
    requires d in h
    ensures Look(h, Node(d), [key]) == if key in h[d] then Some(h[d][key]) else None
  {
    assert [key][..0] == [];
  }
}
