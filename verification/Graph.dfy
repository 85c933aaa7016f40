/** Dicts that can be shared: lookups in a heap of dict nodes, and what one grafted write changes. */
module Graph {
  import opened Common
  import opened Tree

  datatype Val<L> = Nil | Text(text: string) | Node(loc: L)

  type Heap<!L> = map<L, map<string, Val<L>>>

  function Look<L>(h: Heap<L>, v: Val<L>, p: Path): Option<Val<L>>
    decreases |p|
  {
    if p == [] then Some(v)
    else Field(h, Look(h, v, p[..|p| - 1]), p[|p| - 1])
  }

  function Field<L>(h: Heap<L>, v: Option<Val<L>>, key: string): Option<Val<L>> {
    if v.Some? && v.value.Node? && v.value.loc in h && key in h[v.value.loc] then Some(h[v.value.loc][key]) else None
  }

  ghost predicate Closed<L>(h: Heap<L>, v: Val<L>) {
    v.Node? ==> v.loc in h
  }

  ghost predicate ClosedHeap<L>(h: Heap<L>) {
    forall l, key :: l in h && key in h[l] ==> Closed(h, h[l][key])
  }

  ghost predicate FoundAt<L>(h: Heap<L>, v: Val<L>, p: Path, l: L) {
    Look(h, v, p) == Some(Node(l))
  }

  /** No node of `own` is found at two places. */
  ghost predicate OncePerNode<L>(h: Heap<L>, v: Val<L>, own: set<L>) {
    forall p, q, l :: l in own && FoundAt(h, v, p, l) && FoundAt(h, v, q, l) ==> p == q
  }

  ghost predicate TreeShaped<L>(h: Heap<L>, v: Val<L>) {
    OncePerNode(h, v, h.Keys)
  }

  lemma {:induction false} LookConcat<L>(h: Heap<L>, v: Val<L>, p: Path, q: Path)
    requires Look(h, v, p).Some?
    ensures Look(h, v, p + q) == Look(h, Look(h, v, p).value, q)
    decreases |q|
  {
    if q == [] {
      assert p + q == p;
    } else {
      var q' := q[..|q| - 1];
      assert (p + q)[..|p + q| - 1] == p + q';
      LookConcat(h, v, p, q');
    }
  }

  lemma {:induction false} PrefixFound<L>(h: Heap<L>, v: Val<L>, p: Path, n: nat)
    requires Look(h, v, p).Some? && n <= |p|
    ensures Look(h, v, p[..n]).Some? && (n < |p| ==> Look(h, v, p[..n]).value.Node?)
    decreases |p|
  {
    if n < |p| {
      var p' := p[..|p| - 1];
      PrefixFound(h, v, p', n);
      assert p'[..n] == p[..n];
      assert n == |p'| ==> p[..n] == p';
    } else {
      assert p[..n] == p;
    }
  }

  lemma MissingStaysMissing<L>(h: Heap<L>, v: Val<L>, p: Path, n: nat)
    requires n <= |p| && Look(h, v, p[..n]).None?
    ensures Look(h, v, p).None?
  {
    if Look(h, v, p).Some? {
      PrefixFound(h, v, p, n);
    }
  }

  lemma {:induction false} LooksStayIn<L>(h: Heap<L>, v: Val<L>, p: Path)
    requires ClosedHeap(h) && Closed(h, v)
    ensures Look(h, v, p).Some? ==> Closed(h, Look(h, v, p).value)
    decreases |p|
  {
    if p != [] {
      LooksStayIn(h, v, p[..|p| - 1]);
    }
  }

  /** A part of the heap that nothing changed and that points only into itself reads as before. */
  lemma {:induction false} RegionKept<L>(h: Heap<L>, h': Heap<L>, v: Val<L>, p: Path)
    requires ClosedHeap(h) && Closed(h, v)
    requires forall l :: l in h ==> l in h' && h'[l] == h[l]
    ensures Look(h', v, p) == Look(h, v, p)
    decreases |p|
  {
    if p != [] {
      RegionKept(h, h', v, p[..|p| - 1]);
      LooksStayIn(h, v, p[..|p| - 1]);
    }
  }

  function Elements<L(==)>(chain: seq<L>): set<L> {
    set l | l in chain
  }

  // ---- A write, as one changed field and a chain of new nodes ----

  /** The new node that `Look` meets at depth `d + 1 + m`, or the value at the end of the chain. */
  function Link<L>(chain: seq<L>, value: Val<L>, m: nat): Val<L> {
    if m < |chain| then Node(chain[m]) else value
  }

  /** The heap before and after `keys` was written below `root`: the first `depth` keys were followed to
      `target`, the next one was set there, and each further key was set in a new node of `chain`. */
  datatype Write<!L> = Write(before: Heap<L>, after: Heap<L>, root: Val<L>, keys: Path, value: Val<L>,
                             depth: nat, target: L, chain: seq<L>)

  ghost predicate LinkMade<L>(w: Write<L>, m: nat)
    requires m < |w.chain| && w.depth + 1 + m < |w.keys|
  {
    && w.chain[m] !in w.before && w.chain[m] in w.after
    && w.after[w.chain[m]] == map[w.keys[w.depth + 1 + m] := Link(w.chain, w.value, m + 1)]
  }

  ghost predicate ChainMade<L>(w: Write<L>) {
    && w.depth < |w.keys| && |w.chain| == |w.keys| - 1 - w.depth
    && (forall m :: 0 <= m < |w.chain| ==> LinkMade(w, m))
    && (forall m, m' :: 0 <= m < m' < |w.chain| ==> w.chain[m] != w.chain[m'])
  }

  ghost predicate Grafted<L>(w: Write<L>) {
    && ChainMade(w)
    && Look(w.before, w.root, w.keys[..w.depth]) == Some(Node(w.target)) && w.target in w.before
    && (w.chain != [] ==> w.keys[w.depth] !in w.before[w.target])
    && w.after.Keys == w.before.Keys + Elements(w.chain)
    && w.after[w.target] == w.before[w.target][w.keys[w.depth] := Link(w.chain, w.value, 0)]
    && (forall l :: l in w.before && l != w.target ==> w.after[l] == w.before[l])
  }

  // ---- A write under way ----

  ghost predicate PartLink<L>(w: Write<L>, m: nat)
    requires m + 1 < |w.chain| && w.depth + 1 + m < |w.keys|
  {
    w.chain[m] in w.after && w.after[w.chain[m]] == map[w.keys[w.depth + 1 + m] := Node(w.chain[m + 1])]
  }

  /** The first `i` keys have been followed or set, and `current` is the dict they lead to. */
  ghost predicate Partway<L>(w: Write<L>, i: nat, current: L) {
    && i < |w.keys| && w.depth <= i && |w.chain| == i - w.depth
    && Look(w.before, w.root, w.keys[..w.depth]) == Some(Node(w.target)) && w.target in w.before
    && w.after.Keys == w.before.Keys + Elements(w.chain)
    && (forall m :: 0 <= m < |w.chain| ==> w.chain[m] !in w.before)
    && (forall m, m' :: 0 <= m < m' < |w.chain| ==> w.chain[m] != w.chain[m'])
    && (forall m :: 0 <= m < |w.chain| - 1 ==> PartLink(w, m))
    && (forall l :: l in w.before && l != w.target ==> w.after[l] == w.before[l])
    && (w.chain == [] ==> current == w.target && w.after == w.before)
    && (w.chain != [] ==> w.keys[w.depth] !in w.before[w.target])
    && (w.chain != [] ==> w.after[w.target] == w.before[w.target][w.keys[w.depth] := Node(w.chain[0])])
    && (w.chain != [] ==> current == w.chain[|w.chain| - 1] && current in w.after && w.after[current] == map[])
  }

  lemma PartwayFollow<L>(w: Write<L>, i: nat, current: L, next: L)
    requires Partway(w, i, current) && i + 1 < |w.keys|
    requires current in w.after && w.keys[i] in w.after[current] && w.after[current][w.keys[i]] == Node(next) &&
              next in w.before
    ensures Partway(w.(depth := i + 1, target := next), i + 1, next)
  {
    assert w.keys[..i + 1][..i] == w.keys[..i];
  }

  lemma PartwayStuck<L>(w: Write<L>, i: nat, current: L)
    requires Partway(w, i, current) && current in w.after && w.keys[i] in w.after[current]
    ensures w.chain == [] && Look(w.before, w.root, w.keys[..i + 1]) == Some(w.after[current][w.keys[i]])
  {
    assert w.keys[..i + 1][..i] == w.keys[..i];
  }

  lemma PartwayCreate<L>(w: Write<L>, i: nat, current: L, next: L, after: Heap<L>)
    requires Partway(w, i, current) && i + 1 < |w.keys|
    requires current in w.after && w.keys[i] !in w.after[current] && next !in w.after
    requires after == w.after[current := w.after[current][w.keys[i] := Node(next)]][next := map[]]
    ensures Partway(w.(after := after, chain := w.chain + [next]), i + 1, next)
  {
    forall m | 0 <= m < |w.chain| ensures PartLink(w.(after := after, chain := w.chain + [next]), m) {
      LinkExtends(w, i, current, next, after, m);
    }
  }

  lemma LinkExtends<L>(w: Write<L>, i: nat, current: L, next: L, after: Heap<L>, m: nat)
    requires Partway(w, i, current) && i + 1 < |w.keys| && m < |w.chain|
    requires current in w.after && w.keys[i] !in w.after[current] && next !in w.after
    requires after == w.after[current := w.after[current][w.keys[i] := Node(next)]][next := map[]]
    ensures PartLink(w.(after := after, chain := w.chain + [next]), m)
  {
    if m < |w.chain| - 1 {
      assert PartLink(w, m);
    }
  }

  lemma PartwayFinish<L>(w: Write<L>, i: nat, current: L, after: Heap<L>)
    requires Partway(w, i, current) && i + 1 == |w.keys| && current in w.after
    requires after == w.after[current := w.after[current][w.keys[i] := w.value]]
    ensures Grafted(w.(after := after))
  {
    forall m | 0 <= m < |w.chain| ensures LinkMade(w.(after := after), m) {
      LinkFinishes(w, i, current, after, m);
    }
  }

  lemma LinkFinishes<L>(w: Write<L>, i: nat, current: L, after: Heap<L>, m: nat)
    requires Partway(w, i, current) && i + 1 == |w.keys| && current in w.after && m < |w.chain|
    requires after == w.after[current := w.after[current][w.keys[i] := w.value]]
    ensures LinkMade(w.(after := after), m)
  {
    if m < |w.chain| - 1 {
      assert PartLink(w, m);
    }
  }

  // ---- What a finished write means ----

  /** The written node belongs to `own`, whose nodes are found at one place each. */
  ghost predicate OwnWrite<L>(w: Write<L>, own: set<L>) {
    Grafted(w) && OncePerNode(w.before, w.root, own) && w.target in own && ClosedHeap(w.before) &&
        Closed(w.before, w.root)
  }

  /** Some way along `p` goes through the written field. */
  ghost predicate PassesField<L>(w: Write<L>, v: Val<L>, p: Path)
    requires w.depth < |w.keys|
  {
    exists n :: 0 <= n < |p| && FoundAt(w.before, v, p[..n], w.target) && p[n] == w.keys[w.depth]
  }

  /** Whatever is shared: from any value, a way that does not pass the written field leads where it led. */
  lemma {:induction false} OffTheField<L>(w: Write<L>, v: Val<L>, p: Path)
    requires Grafted(w) && ClosedHeap(w.before) && Closed(w.before, v) && !PassesField(w, v, p)
    ensures Look(w.after, v, p) == Look(w.before, v, p)
    decreases |p|
  {
    if p != [] {
      var front, last := p[..|p| - 1], |p| - 1;
      forall n | 0 <= n < |front| ensures !(FoundAt(w.before, v, front[..n], w.target) && front[n] == w.keys[w.depth]) {
        assert front[..n] == p[..n];
      }
      OffTheField(w, v, front);
      LooksStayIn(w.before, v, front);
      assert !(FoundAt(w.before, v, p[..last], w.target) && p[last] == w.keys[w.depth]);
    }
  }

  /** And at every place where the written dict is met without passing that field, what was grafted is met now. */
  lemma OnTheField<L>(w: Write<L>, v: Val<L>, p: Path)
    requires Grafted(w) && ClosedHeap(w.before) && Closed(w.before, v)
    requires FoundAt(w.before, v, p, w.target) && !PassesField(w, v, p)
    ensures Look(w.after, v, p + [w.keys[w.depth]]) == Some(Link(w.chain, w.value, 0))
  {
    OffTheField(w, v, p);
    assert (p + [w.keys[w.depth]])[..|p|] == p;
  }

  /** Away from the written field everything is found where it was. */
  lemma {:induction false} GraftElsewhere<L>(w: Write<L>, own: set<L>, p: Path)
    requires OwnWrite(w, own) && !(w.keys[..w.depth + 1] <= p)
    ensures Look(w.after, w.root, p) == Look(w.before, w.root, p)
    decreases |p|
  {
    if p != [] {
      var p', key := p[..|p| - 1], p[|p| - 1];
      GraftElsewhere(w, own, p');
      LooksStayIn(w.before, w.root, p');
      if FoundAt(w.before, w.root, p', w.target) {
        assert FoundAt(w.before, w.root, w.keys[..w.depth], w.target);
        assert p' == w.keys[..w.depth];
        assert p == p' + [key] && w.keys[..w.depth + 1] == w.keys[..w.depth] + [w.keys[w.depth]];
      }
    }
  }

  lemma FieldsMade<L>(w: Write<L>, n: nat)
    requires Grafted(w) && w.depth <= n < |w.keys|
    ensures Field(w.after, Some(if n == w.depth then Node(w.target) else Link(w.chain, w.value, n - 1 - w.depth)),
              w.keys[n])
         == Some(Link(w.chain, w.value, n - w.depth))
  {
    if n > w.depth {
      assert LinkMade(w, n - 1 - w.depth);
    }
  }

  /** Along the written path the new nodes are found, one per key, and then the value. */
  lemma {:induction false} GraftAlong<L>(w: Write<L>, n: nat)
    requires Grafted(w) && Look(w.after, w.root, w.keys[..w.depth]) == Some(Node(w.target))
    requires w.depth < n <= |w.keys|
    ensures Look(w.after, w.root, w.keys[..n]) == Some(Link(w.chain, w.value, n - 1 - w.depth))
    decreases n
  {
    var p := w.keys[..n];
    assert p[..|p| - 1] == w.keys[..n - 1] && p[|p| - 1] == w.keys[n - 1];
    if n > w.depth + 1 {
      GraftAlong(w, n - 1);
    }
    FieldsMade(w, n - 1);
  }

  lemma NoOtherField<L>(w: Write<L>, n: nat, key: string)
    requires Grafted(w) && w.depth < n < |w.keys| && key != w.keys[n]
    ensures Field(w.after, Some(Link(w.chain, w.value, n - 1 - w.depth)), key) == None
  {
    assert LinkMade(w, n - 1 - w.depth);
  }

  /** Inside the chain nothing but the written path is found. */
  lemma {:induction false} GraftBeside<L>(w: Write<L>, p: Path)
    requires Grafted(w) && Look(w.after, w.root, w.keys[..w.depth]) == Some(Node(w.target))
    requires w.keys[..w.depth + 1] <= p && !Comparable(w.keys, p)
    ensures Look(w.after, w.root, p).None?
    decreases |p|
  {
    var p', key := p[..|p| - 1], p[|p| - 1];
    if Comparable(w.keys, p') {
      LastKeyDiffers(w.keys, p);
      GraftAlong(w, |p'|);
      NoOtherField(w, |p'|, key);
    } else {
      GraftBeside(w, p');
    }
  }

  lemma LastKeyDiffers(keys: Path, p: Path)
    requires p != [] && !Comparable(keys, p) && Comparable(keys, p[..|p| - 1])
    ensures |p| <= |keys| && p[..|p| - 1] == keys[..|p| - 1] && p[|p| - 1] != keys[|p| - 1]
  {
  }

  /** The whole effect of one write: below its destination, on the way there, and elsewhere. */
  lemma GraftMeaning<L>(w: Write<L>, own: set<L>, p: Path)
    requires OwnWrite(w, own)
    ensures w.keys <= p ==> Look(w.after, w.root, p) == Look(w.after, w.value, p[|w.keys|..])
    ensures p < w.keys ==> Look(w.after, w.root, p) ==
                             if |p| <= w.depth then Look(w.before, w.root, p)
                                 else Some(Node(w.chain[|p| - 1 - w.depth]))
    ensures !Comparable(w.keys, p) ==> Look(w.after, w.root, p) == Look(w.before, w.root, p)
  {
    GraftElsewhere(w, own, w.keys[..w.depth]);
    if Comparable(w.keys, p) {
      GraftOnTheWay(w, own, p);
    } else if w.keys[..w.depth + 1] <= p {
      GraftBeside(w, p);
      if Look(w.before, w.root, p).Some? {
        FieldWasThere(w, p);
      }
    } else {
      GraftElsewhere(w, own, p);
    }
  }

  lemma GraftOnTheWay<L>(w: Write<L>, own: set<L>, p: Path)
    requires OwnWrite(w, own) && Look(w.after, w.root, w.keys[..w.depth]) == Some(Node(w.target))
    ensures w.keys <= p ==> Look(w.after, w.root, p) == Look(w.after, w.value, p[|w.keys|..])
    ensures p < w.keys ==> Look(w.after, w.root, p) ==
                             if |p| <= w.depth then Look(w.before, w.root, p)
                                 else Some(Node(w.chain[|p| - 1 - w.depth]))
  {
    if w.keys <= p {
      GraftAlong(w, |w.keys|);
      assert w.keys[..|w.keys|] == w.keys && p == w.keys + p[|w.keys|..];
      LookConcat(w.after, w.root, w.keys, p[|w.keys|..]);
    } else if p < w.keys {
      assert p == w.keys[..|p|];
      if |p| <= w.depth {
        GraftElsewhere(w, own, p);
      } else {
        GraftAlong(w, |p|);
      }
    }
  }

  /** Under a field that the write created nothing was found before. */
  lemma FieldWasThere<L>(w: Write<L>, p: Path)
    requires Grafted(w) && w.keys[..w.depth + 1] <= p && Look(w.before, w.root, p).Some?
    ensures w.keys[w.depth] in w.before[w.target]
  {
    PrefixFound(w.before, w.root, p, w.depth + 1);
    assert p[..w.depth + 1] == w.keys[..w.depth + 1];
    assert w.keys[..w.depth + 1][..w.depth] == w.keys[..w.depth];
  }
}
