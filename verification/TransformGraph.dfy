/** The steps of one transform over a heap of dicts: what holds after the copy and after each write. */
module TransformGraph {
  import opened Common
  import opened Tree
  import opened Graph

  /** The context as it was passed in, and the configuration. */
  datatype Job<!L> = Job(input: Heap<L>, context: L, entries: seq<Entry>)

  ghost predicate ValidJob<L>(t: Job<L>) {
    ClosedHeap(t.input) && t.context in t.input && TreeShaped(t.input, Node(t.context))
  }

  function SearchHeap<L>(h: Heap<L>, context: L, src: Path): Val<L> {
    var found := Look(h, Node(context), src);
    if found.Some? then found.value else Nil
  }

  /** The value that entry `k` finds in the context as it was passed in. */
  function Source<L>(t: Job<L>, k: nat): Val<L>
    requires k < |t.entries|
  {
    SearchHeap(t.input, t.context, Split(t.entries[k].src))
  }

  ghost predicate StuckAt<L>(h: Heap<L>, v: Val<L>, p: Path) {
    Look(h, v, p).Some? && !Look(h, v, p).value.Node?
  }

  /** A proper non-empty prefix of `keys` leads to something that is not a dict. */
  ghost predicate Stuck<L>(h: Heap<L>, v: Val<L>, keys: Path) {
    exists n :: 0 < n < |keys| && StuckAt(h, v, keys[..n])
  }

  // ---- Destinations that extend one another ----

  /** Among the first `n` destinations none is a proper extension of an earlier one. */
  ghost predicate Unextended(entries: seq<Entry>, n: nat) {
    forall k, i :: 0 <= k < i < n && i < |entries| ==> !(Dest(entries, k) < Dest(entries, i))
  }

  lemma IndependentIsUnextended(entries: seq<Entry>)
    requires Independent(entries)
    ensures Unextended(entries, |entries|)
  {
    forall k, i | 0 <= k < i < |entries| ensures !(Dest(entries, k) < Dest(entries, i)) {
      assert !Comparable(Dest(entries, k), Dest(entries, i));
    }
  }

  /** No write up to the `i`-th has replaced what entry `k` wrote. */
  ghost predicate Survives(entries: seq<Entry>, k: nat, i: nat) {
    k < i <= |entries| && forall m :: k < m < i ==> !(Dest(entries, m) <= Dest(entries, k))
  }

  lemma SurvivorsApart(entries: seq<Entry>, k: nat, m: nat, n: nat, p: Path)
    requires Unextended(entries, n) && Survives(entries, k, n) && Survives(entries, m, n)
    requires Dest(entries, k) <= p && Dest(entries, m) <= p
    ensures k == m
  {
    PrefixesCompare(Dest(entries, k), Dest(entries, m), p);
  }

  // ---- The state after the first `i` writes ----

  /** The dicts that the call made. */
  ghost function Own<L>(t: Job<L>, h: Heap<L>): set<L> {
    h.Keys - t.input.Keys
  }

  ghost predicate InputKept<L>(t: Job<L>, h: Heap<L>) {
    forall l :: l in t.input ==> l in h && h[l] == t.input[l]
  }

  ghost predicate BelowSurvivor(entries: seq<Entry>, i: nat, p: Path) {
    exists k :: Survives(entries, k, i) && Dest(entries, k) <= p
  }

  /** The result is made of own dicts, each found at one place, and of the sources' values where the surviving
      entries put them. */
  ghost predicate Progress<L>(t: Job<L>, i: nat, h: Heap<L>, root: L) {
    && i <= |t.entries| && InputKept(t, h) && ClosedHeap(h) && root in Own(t, h)
    && OncePerNode(h, Node(root), Own(t, h))
    && (forall p, l :: l in t.input && FoundAt(h, Node(root), p, l) ==> BelowSurvivor(t.entries, i, p))
    && (forall k :: Survives(t.entries, k, i) ==> Look(h, Node(root), Dest(t.entries, k)) == Some(Source(t, k)))
  }

  // ---- The copy ----

  function Rename<L>(copy: map<L, L>, v: Val<L>): Val<L> {
    if v.Node? && v.loc in copy then Node(copy[v.loc]) else v
  }

  function RenameFound<L>(copy: map<L, L>, v: Option<Val<L>>): Option<Val<L>> {
    if v.Some? then Some(Rename(copy, v.value)) else None
  }

  function RenameFields<L>(copy: map<L, L>, fields: map<string, Val<L>>): map<string, Val<L>> {
    map key | key in fields :: Rename(copy, fields[key])
  }

  /** `reached` holds the context and every dict that a field of it leads to. */
  ghost predicate Reaches<L>(t: Job<L>, reached: set<L>) {
    && t.context in reached && reached <= t.input.Keys
    && forall l, key :: l in reached && key in t.input[l] && t.input[l][key].Node? ==> t.input[l][key].loc in reached
  }

  /** `h` holds the input and, for each of the nodes reached from the context, a copy with the fields renamed. */
  ghost predicate Copied<L>(t: Job<L>, copy: map<L, L>, h: Heap<L>) {
    && Reaches(t, copy.Keys)
    && (forall l, l' :: l in copy && l' in copy && copy[l] == copy[l'] ==> l == l')
    && h.Keys == t.input.Keys + copy.Values && t.input.Keys !! copy.Values && InputKept(t, h)
    && (forall l :: l in copy && l in t.input ==> copy[l] in h && h[copy[l]] == RenameFields(copy, t.input[l]))
  }

  lemma {:induction false} ReachedLooks<L>(t: Job<L>, reached: set<L>, p: Path)
    requires Reaches(t, reached)
    ensures var found := Look(t.input, Node(t.context), p);
            found.Some? && found.value.Node? ==> found.value.loc in reached
    decreases |p|
  {
    if p != [] {
      ReachedLooks(t, reached, p[..|p| - 1]);
    }
  }

  lemma {:induction false} CopyLooks<L>(t: Job<L>, copy: map<L, L>, h: Heap<L>, p: Path)
    requires Copied(t, copy, h)
    ensures Look(h, Node(copy[t.context]), p) == RenameFound(copy, Look(t.input, Node(t.context), p))
    decreases |p|
  {
    if p != [] {
      CopyLooks(t, copy, h, p[..|p| - 1]);
      ReachedLooks(t, copy.Keys, p[..|p| - 1]);
    }
  }

  lemma CopyClosed<L>(t: Job<L>, copy: map<L, L>, h: Heap<L>)
    requires ClosedHeap(t.input) && Copied(t, copy, h)
    ensures ClosedHeap(h)
  {
    forall l, key | l in h && key in h[l] ensures Closed(h, h[l][key]) {
      if l in t.input {
        assert Closed(t.input, t.input[l][key]);
      } else {
        var l0 :| l0 in copy && copy[l0] == l;
        assert Closed(t.input, t.input[l0][key]);
      }
    }
  }

  lemma CopyHasNoInput<L>(t: Job<L>, copy: map<L, L>, h: Heap<L>, p: Path, l: L)
    requires Copied(t, copy, h) && FoundAt(h, Node(copy[t.context]), p, l)
    ensures l !in t.input
    ensures exists l0 :: l0 in t.input && l0 in copy && copy[l0] == l && FoundAt(t.input, Node(t.context), p, l0)
  {
    CopyLooks(t, copy, h, p);
    ReachedLooks(t, copy.Keys, p);
    var l0 := Look(t.input, Node(t.context), p).value.loc;
    assert FoundAt(t.input, Node(t.context), p, l0) && l0 in copy && copy[l0] in copy.Values;
  }

  lemma CopyIsProgress<L>(t: Job<L>, copy: map<L, L>, h: Heap<L>)
    requires ValidJob(t) && Copied(t, copy, h)
    ensures Progress(t, 0, h, copy[t.context])
  {
    var root := copy[t.context];
    assert root in copy.Values;
    CopyClosed(t, copy, h);
    forall p, q, l | l in Own(t, h) && FoundAt(h, Node(root), p, l) && FoundAt(h, Node(root), q, l) ensures p == q {
      CopyHasNoInput(t, copy, h, p, l);
      CopyHasNoInput(t, copy, h, q, l);
    }
    forall p, l | FoundAt(h, Node(root), p, l) ensures l !in t.input {
      CopyHasNoInput(t, copy, h, p, l);
    }
  }

  // ---- One more write ----

  lemma GraftClosed<L>(w: Write<L>)
    requires Grafted(w) && ClosedHeap(w.before) && Closed(w.before, w.value)
    ensures ClosedHeap(w.after)
  {
    forall l, key | l in w.after && key in w.after[l] ensures Closed(w.after, w.after[l][key]) {
      if l in w.before {
        if l != w.target || key != w.keys[w.depth] {
          assert Closed(w.before, w.before[l][key]);
        }
      } else {
        var m :| 0 <= m < |w.chain| && w.chain[m] == l;
        assert LinkMade(w, m);
        assert m + 1 < |w.chain| ==> w.chain[m + 1] in w.after;
      }
    }
  }

  lemma GraftedIsNotStuck<L>(w: Write<L>)
    requires Grafted(w)
    ensures !Stuck(w.before, w.root, w.keys)
  {
    forall n | 0 < n < |w.keys| ensures !StuckAt(w.before, w.root, w.keys[..n]) {
      if n < w.depth {
        assert w.keys[..w.depth][..n] == w.keys[..n];
        PrefixFound(w.before, w.root, w.keys[..w.depth], n);
      } else if n > w.depth {
        assert w.keys[..n][..w.depth + 1] == w.keys[..w.depth + 1];
        assert w.keys[..w.depth + 1][..w.depth] == w.keys[..w.depth];
        MissingStaysMissing(w.before, w.root, w.keys[..n], w.depth + 1);
      }
    }
  }

  lemma ChainIsNew<L>(w: Write<L>)
    requires Grafted(w)
    ensures forall l :: l in w.chain ==> l !in w.before
  {
    forall l | l in w.chain ensures l !in w.before {
      var m :| 0 <= m < |w.chain| && w.chain[m] == l;
      assert LinkMade(w, m);
    }
  }

  /** Entry `i`, written to the result as the code does it. */
  ghost predicate Writes<L>(t: Job<L>, i: nat, root: L, w: Write<L>) {
    && i < |t.entries| && Parses(t.entries[i].src) && Grafted(w) && w.root == Node(root) && w.keys == Dest(t.entries, i)
    && w.value == SearchHeap(w.before, t.context, Split(t.entries[i].src))
  }

  lemma SourceInInput<L>(t: Job<L>, k: nat)
    requires ValidJob(t) && k < |t.entries|
    ensures Closed(t.input, Source(t, k))
  {
    LooksStayIn(t.input, Node(t.context), Split(t.entries[k].src));
  }

  /** As long as the input is as it was, so is what is found there. */
  lemma SourceKept<L>(t: Job<L>, h: Heap<L>, k: nat)
    requires ValidJob(t) && InputKept(t, h) && k < |t.entries|
    ensures SearchHeap(h, t.context, Split(t.entries[k].src)) == Source(t, k)
  {
    RegionKept(t.input, h, Node(t.context), Split(t.entries[k].src));
  }

  /** Below a surviving destination there is what its source holds, all of it in the input. */
  lemma BelowSource<L>(t: Job<L>, i: nat, h: Heap<L>, root: L, k: nat, q: Path)
    requires ValidJob(t) && Progress(t, i, h, root) && Survives(t.entries, k, i)
    ensures Look(h, Node(root), Dest(t.entries, k) + q) == Look(t.input, Source(t, k), q)
    ensures Look(t.input, Source(t, k), q).Some? ==> Closed(t.input, Look(t.input, Source(t, k), q).value)
  {
    SourceInInput(t, k);
    LookConcat(h, Node(root), Dest(t.entries, k), q);
    RegionKept(t.input, h, Source(t, k), q);
    LooksStayIn(t.input, Source(t, k), q);
  }

  /** Of the earlier destinations that a path extends, the last one survives. */
  lemma {:induction false} LastExtended(entries: seq<Entry>, i: nat, keys: Path) returns (k: nat)
    requires i <= |entries| && exists m :: 0 <= m < i && Dest(entries, m) < keys
    ensures Survives(entries, k, i) && Dest(entries, k) < keys
  {
    if Dest(entries, i - 1) < keys {
      k := i - 1;
    } else {
      k := LastExtended(entries, i - 1, keys);
      assert !(Dest(entries, i - 1) <= Dest(entries, k));
    }
  }

  lemma FoundIsAbove<L>(w: Write<L>, d: Path)
    requires Grafted(w) && d < w.keys && Look(w.before, w.root, d).Some?
    ensures d <= w.keys[..w.depth]
  {
    if w.depth < |d| {
      FieldWasThere(w, d);
    }
  }

  /** A write whose destination properly extends an earlier one lands in a dict of the input. */
  lemma ExtensionHitsInput<L>(t: Job<L>, i: nat, root: L, w: Write<L>)
    requires ValidJob(t) && Progress(t, i, w.before, root) && Writes(t, i, root, w)
    requires exists k :: 0 <= k < i && Dest(t.entries, k) < w.keys
    ensures w.target in t.input
  {
    var k := LastExtended(t.entries, i, w.keys);
    var p, d := w.keys[..w.depth], Dest(t.entries, k);
    FoundIsAbove(w, d);
    assert p == d + p[|d|..];
    BelowSource(t, i, w.before, root, k, p[|d|..]);
  }

  /** Only such a write does, as long as none came before. */
  lemma OnlyExtensionHitsInput<L>(t: Job<L>, i: nat, root: L, w: Write<L>)
    requires ValidJob(t) && Progress(t, i, w.before, root) && Writes(t, i, root, w) && w.target in t.input
    ensures exists k :: 0 <= k < i && Dest(t.entries, k) < w.keys
  {
    var p := w.keys[..w.depth];
    assert FoundAt(w.before, Node(root), p, w.target);
    var k :| Survives(t.entries, k, i) && Dest(t.entries, k) <= p;
    assert Dest(t.entries, k) < w.keys;
  }

  /** What a write needs for `GraftMeaning`, and the state before it. */
  ghost predicate WritesOwn<L>(t: Job<L>, i: nat, root: L, w: Write<L>) {
    && ValidJob(t) && Progress(t, i, w.before, root) && Writes(t, i, root, w) && Unextended(t.entries, i + 1)
    && OwnWrite(w, Own(t, w.before)) && w.value == Source(t, i)
    && InputKept(t, w.after) && Own(t, w.after) == Own(t, w.before) + Elements(w.chain)
  }

  lemma WriteIsOwn<L>(t: Job<L>, i: nat, root: L, w: Write<L>)
    requires ValidJob(t) && Progress(t, i, w.before, root) && Writes(t, i, root, w) && Unextended(t.entries, i + 1)
    ensures WritesOwn(t, i, root, w)
  {
    if w.target in t.input {
      OnlyExtensionHitsInput(t, i, root, w);
    }
    SourceKept(t, w.before, i);
    ChainIsNew(w);
  }

  /** Nodes of the copy and of the chain are still found at one place each. */
  lemma WriteKeepsPlaces<L>(t: Job<L>, i: nat, root: L, w: Write<L>)
    requires WritesOwn(t, i, root, w)
    ensures OncePerNode(w.after, Node(root), Own(t, w.after))
  {
    forall p, q, l | l in Own(t, w.after) && FoundAt(w.after, Node(root), p, l) && FoundAt(w.after, Node(root), q, l)
      ensures p == q
    {
      PlaceOfOwn(t, i, root, w, p, l);
      PlaceOfOwn(t, i, root, w, q, l);
      if l !in w.before {
        assert p == w.keys[..|p|] && q == w.keys[..|q|];
      }
    }
  }

  lemma PlaceOfOwn<L>(t: Job<L>, i: nat, root: L, w: Write<L>, p: Path, l: L)
    requires WritesOwn(t, i, root, w) && FoundAt(w.after, Node(root), p, l) && l in Own(t, w.after)
    ensures l in w.before ==> FoundAt(w.before, Node(root), p, l)
    ensures l !in w.before ==> p < w.keys && |p| > w.depth && w.chain[|p| - 1 - w.depth] == l
  {
    GraftMeaning(w, Own(t, w.before), p);
    SourceInInput(t, i);
    LooksStayIn(w.before, Node(root), p);
    if w.keys <= p {
      RegionKept(t.input, w.after, w.value, p[|w.keys|..]);
      LooksStayIn(t.input, w.value, p[|w.keys|..]);
      assert false;
    } else if p < w.keys && |p| > w.depth {
      assert LinkMade(w, |p| - 1 - w.depth);
    }
  }

  /** Away from what was written, a dict of the input is where it was. */
  lemma InputWasThere<L>(t: Job<L>, i: nat, root: L, w: Write<L>, p: Path, l: L)
    requires WritesOwn(t, i, root, w) && l in t.input && FoundAt(w.after, Node(root), p, l) && !(w.keys <= p)
    ensures FoundAt(w.before, Node(root), p, l)
  {
    GraftMeaning(w, Own(t, w.before), p);
    ChainIsNew(w);
  }

  /** What the write leaves of the input in the result is below a surviving destination. */
  lemma WriteKeepsBelow<L>(t: Job<L>, i: nat, root: L, w: Write<L>, p: Path, l: L)
    requires WritesOwn(t, i, root, w) && l in t.input && FoundAt(w.after, Node(root), p, l)
    ensures BelowSurvivor(t.entries, i + 1, p)
  {
    if w.keys <= p {
      assert Survives(t.entries, i, i + 1);
    } else {
      InputWasThere(t, i, root, w, p, l);
      StillBelow(t.entries, i, p);
    }
  }

  lemma StillBelow(entries: seq<Entry>, i: nat, p: Path)
    requires i < |entries| && BelowSurvivor(entries, i, p) && !(Dest(entries, i) <= p)
    ensures BelowSurvivor(entries, i + 1, p)
  {
    var k :| Survives(entries, k, i) && Dest(entries, k) <= p;
    assert Survives(entries, k, i + 1);
  }

  lemma WriteKeepsSurvivors<L>(t: Job<L>, i: nat, root: L, w: Write<L>, k: nat)
    requires WritesOwn(t, i, root, w) && Survives(t.entries, k, i + 1)
    ensures Look(w.after, Node(root), Dest(t.entries, k)) == Some(Source(t, k))
  {
    GraftMeaning(w, Own(t, w.before), Dest(t.entries, k));
    if k < i {
      assert Survives(t.entries, k, i);
    }
  }

  /** A write whose destination extends no earlier one takes the result one entry further. */
  lemma WriteIsProgress<L>(t: Job<L>, i: nat, root: L, w: Write<L>)
    requires ValidJob(t) && Progress(t, i, w.before, root) && Writes(t, i, root, w) && Unextended(t.entries, i + 1)
    ensures Progress(t, i + 1, w.after, root)
  {
    WriteIsOwn(t, i, root, w);
    SourceInInput(t, i);
    GraftClosed(w);
    WriteKeepsPlaces(t, i, root, w);
    forall p, l | l in t.input && FoundAt(w.after, Node(root), p, l) ensures BelowSurvivor(t.entries, i + 1, p) {
      WriteKeepsBelow(t, i, root, w, p, l);
    }
    forall k | Survives(t.entries, k, i + 1)
        ensures Look(w.after, Node(root), Dest(t.entries, k)) == Some(Source(t, k)) {
      WriteKeepsSurvivors(t, i, root, w, k);
    }
  }

  // ---- All writes that a call completes ----

  ghost function HeapAfter<L>(h: Heap<L>, ws: seq<Write<L>>): Heap<L> {
    if ws == [] then h else ws[|ws| - 1].after
  }

  /** `ws` are the writes of the first entries, each on the heap that the previous one left. */
  ghost predicate AllWrites<L>(t: Job<L>, h: Heap<L>, root: L, ws: seq<Write<L>>) {
    ws != [] ==>
      var last := |ws| - 1;
      && AllWrites(t, h, root, ws[..last])
      && Writes(t, last, root, ws[last]) && ws[last].before == HeapAfter(h, ws[..last])
  }

  lemma OneMoreWrite<L>(t: Job<L>, h: Heap<L>, root: L, ws: seq<Write<L>>, w: Write<L>)
    requires AllWrites(t, h, root, ws) && Writes(t, |ws|, root, w) && w.before == HeapAfter(h, ws)
    ensures AllWrites(t, h, root, ws + [w]) && HeapAfter(h, ws + [w]) == w.after
  {
    assert (ws + [w])[..|ws|] == ws;
  }

  lemma {:induction false} FrontWrites<L>(t: Job<L>, h: Heap<L>, root: L, ws: seq<Write<L>>, n: nat)
    requires AllWrites(t, h, root, ws) && n <= |ws|
    ensures AllWrites(t, h, root, ws[..n])
    decreases |ws|
  {
    if n == |ws| {
      assert ws[..n] == ws;
    } else {
      FrontWrites(t, h, root, ws[..|ws| - 1], n);
      assert ws[..|ws| - 1][..n] == ws[..n];
    }
  }

  lemma {:induction false} NthWrite<L>(t: Job<L>, h: Heap<L>, root: L, ws: seq<Write<L>>, n: nat)
    requires AllWrites(t, h, root, ws) && n < |ws|
    ensures Writes(t, n, root, ws[n]) && ws[n].before == HeapAfter(h, ws[..n])
    decreases |ws|
  {
    var front := ws[..|ws| - 1];
    if n < |front| {
      NthWrite(t, h, root, front, n);
      assert front[n] == ws[n] && front[..n] == ws[..n];
    }
  }

  lemma {:induction false} WritesAreProgress<L>(t: Job<L>, copy: map<L, L>, h: Heap<L>, ws: seq<Write<L>>)
    requires ValidJob(t) && Copied(t, copy, h) && AllWrites(t, h, copy[t.context], ws)
    requires Unextended(t.entries, |ws|)
    ensures Progress(t, |ws|, HeapAfter(h, ws), copy[t.context])
    decreases |ws|
  {
    if ws == [] {
      CopyIsProgress(t, copy, h);
    } else {
      var last := |ws| - 1;
      WritesAreProgress(t, copy, h, ws[..last]);
      WriteIsProgress(t, last, copy[t.context], ws[last]);
    }
  }

  lemma {:induction false} FirstExtension(entries: seq<Entry>, n: nat) returns (i: nat)
    requires n <= |entries| && !Unextended(entries, n)
    ensures i < n && Unextended(entries, i) && exists k :: 0 <= k < i && Dest(entries, k) < Dest(entries, i)
  {
    if Unextended(entries, n - 1) {
      i := n - 1;
    } else {
      i := FirstExtension(entries, n - 1);
    }
  }

  /** On a tree-shaped context, a call writes into a dict of its input if and only if one of the destinations it
      completes properly extends an earlier one. */
  lemma InputIsWritten<L>(t: Job<L>, copy: map<L, L>, h: Heap<L>, ws: seq<Write<L>>)
    requires ValidJob(t) && Copied(t, copy, h) && AllWrites(t, h, copy[t.context], ws)
    ensures (exists i :: 0 <= i < |ws| && ws[i].target in t.input) <==> !Unextended(t.entries, |ws|)
  {
    var root := copy[t.context];
    if Unextended(t.entries, |ws|) {
      forall i | 0 <= i < |ws| ensures ws[i].target !in t.input {
        FrontWrites(t, h, root, ws, i);
        NthWrite(t, h, root, ws, i);
        WritesAreProgress(t, copy, h, ws[..i]);
        if ws[i].target in t.input {
          OnlyExtensionHitsInput(t, i, root, ws[i]);
        }
      }
    } else {
      var i := FirstExtension(t.entries, |ws|);
      FrontWrites(t, h, root, ws, i);
      NthWrite(t, h, root, ws, i);
      WritesAreProgress(t, copy, h, ws[..i]);
      ExtensionHitsInput(t, i, root, ws[i]);
    }
  }

  // ---- What the finished transform is ----

  ghost predicate SameKind<L>(found: Option<Val<L>>, j: Option<Json>) {
    match j
    case None => found.None?
    case Some(Null) => found == Some(Nil)
    case Some(Leaf(text)) => found == Some(Text(text))
    case Some(Obj(_)) => found.Some? && found.value.Node?
  }

  /** The dicts reachable from `v` spell out the value `j`. */
  ghost predicate Represents<L>(h: Heap<L>, v: Val<L>, j: Json) {
    forall p :: SameKind(Look(h, v, p), Get(j, p))
  }

  lemma {:induction false} GetConcat(j: Json, p: Path, q: Path)
    requires Get(j, p).Some?
    ensures Get(j, p + q) == Get(Get(j, p).value, q)
    decreases |p|
  {
    if p == [] {
      assert p + q == q;
    } else {
      assert (p + q)[1..] == p[1..] + q;
      GetConcat(j.fields[p[0]], p[1..], q);
    }
  }

  /** A way is stuck exactly when the value that the dicts spell out is blocked there. */
  lemma StuckIsBlocked<L>(h: Heap<L>, v: Val<L>, j: Json, keys: Path)
    requires Represents(h, v, j)
    ensures Stuck(h, v, keys) <==> Blocked(j, keys)
  {
    forall n | 0 < n < |keys| ensures StuckAt(h, v, keys[..n]) <==> BlockedAt(j, keys[..n]) {
      assert SameKind(Look(h, v, keys[..n]), Get(j, keys[..n]));
    }
  }

  lemma SourceRepresents<L>(h: Heap<L>, context: L, fields: map<string, Json>, src: Path, q: Path)
    requires Represents(h, Node(context), Obj(fields))
    ensures SameKind(Look(h, SearchHeap(h, context, src), q), Get(Search(fields, src), q))
  {
    assert SameKind(Look(h, Node(context), src), Get(Obj(fields), src));
    assert SameKind(Look(h, Node(context), src + q), Get(Obj(fields), src + q));
    if Get(Obj(fields), src).Some? {
      LookConcat(h, Node(context), src, q);
      GetConcat(Obj(fields), src, q);
    } else {
      NilHasNoFields(h, q);
    }
  }

  lemma {:induction false} NilHasNoFields<L>(h: Heap<L>, q: Path)
    ensures Look(h, Nil, q) == if q == [] then Some(Nil) else None
    decreases |q|
  {
    if q != [] {
      NilHasNoFields(h, q[..|q| - 1]);
    }
  }

  lemma CopyRepresents<L>(t: Job<L>, copy: map<L, L>, h: Heap<L>, fields: map<string, Json>)
    requires ValidJob(t) && Copied(t, copy, h) && Represents(t.input, Node(t.context), Obj(fields))
    ensures Represents(h, Node(copy[t.context]), Obj(fields))
  {
    forall p ensures SameKind(Look(h, Node(copy[t.context]), p), Get(Obj(fields), p)) {
      assert SameKind(Look(t.input, Node(t.context), p), Get(Obj(fields), p));
      CopyLooks(t, copy, h, p);
    }
  }

  /** A graft of what `j` describes does to the dicts what the pure write does to the value they spell out. */
  lemma GraftRefines<L>(t: Job<L>, i: nat, root: L, w: Write<L>, fields: map<string, Json>, base: map<string, Json>)
    requires WritesOwn(t, i, root, w)
    requires Represents(t.input, Node(t.context), Obj(fields)) && Represents(w.before, Node(root), Obj(base))
    ensures var result := ApplyEntry(t.entries[i], fields, base);
            result.Ok? && Represents(w.after, Node(root), Obj(result.value))
  {
    var src := Split(t.entries[i].src);
    var value := Search(fields, src);
    GraftedIsNotStuck(w);
    StuckIsBlocked(w.before, Node(root), Obj(base), w.keys);
    SetNestedMeaning(base, w.keys, value, []);
    var result := SetNested(base, w.keys, value).value;
    SourceInInput(t, i);
    forall p ensures SameKind(Look(w.after, Node(root), p), Get(Obj(result), p)) {
      SetNestedMeaning(base, w.keys, value, p);
      PlaceRefines(t, i, root, w, fields, p);
      assert SameKind(Look(w.before, Node(root), p), Get(Obj(base), p));
    }
  }

  lemma PlaceRefines<L>(t: Job<L>, i: nat, root: L, w: Write<L>, fields: map<string, Json>, p: Path)
    requires WritesOwn(t, i, root, w) && Represents(t.input, Node(t.context), Obj(fields))
    ensures var found := Look(w.after, Node(root), p);
            && (w.keys <= p ==> SameKind(found, Get(Search(fields, Split(t.entries[i].src)), p[|w.keys|..])))
            && (p < w.keys ==> found.Some? && found.value.Node?)
            && (!Comparable(w.keys, p) ==> found == Look(w.before, Node(root), p))
  {
    GraftMeaning(w, Own(t, w.before), p);
    if w.keys <= p {
      SourceInInput(t, i);
      RegionKept(t.input, w.after, w.value, p[|w.keys|..]);
      SourceRepresents(t.input, t.context, fields, Split(t.entries[i].src), p[|w.keys|..]);
    } else if p < w.keys && |p| <= w.depth {
      assert w.keys[..w.depth][..|p|] == p && (|p| == w.depth ==> p == w.keys[..w.depth]);
      PrefixFound(w.before, Node(root), w.keys[..w.depth], |p|);
    }
  }

  /** `result` is what the first `n` entries make of the context's value. */
  ghost predicate IsUpdateSoFar<L>(t: Job<L>, n: nat, h: Heap<L>, root: L, fields: map<string, Json>,
      result: map<string, Json>)
    requires n <= |t.entries|
  {
    Represents(h, Node(root), Obj(result)) && ApplyEntries(t.entries[..n], fields, fields) == Ok(result)
  }

  /** What the pure update does with one more entry. */
  lemma NextEntry(entries: seq<Entry>, n: nat, fields: map<string, Json>, base: map<string, Json>)
    requires n < |entries| && ApplyEntries(entries[..n], fields, fields) == Ok(base)
    ensures ApplyEntries(entries[..n + 1], fields, fields) == ApplyEntry(entries[n], fields, base)
  {
    var next := ApplyEntry(entries[n], fields, base);
    assert entries[..n + 1] == entries[..n] + [entries[n]] && [entries[n]][1..] == [];
    EntriesInTurn(entries[..n], [entries[n]], fields, fields);
    if next.Ok? {
      assert ApplyEntries([], fields, next.value) == next;
    }
  }

  lemma RefinesOneMore<L>(t: Job<L>, i: nat, root: L, w: Write<L>, fields: map<string, Json>, base: map<string, Json>)
    returns (result: map<string, Json>)
    requires WritesOwn(t, i, root, w) && Represents(t.input, Node(t.context), Obj(fields))
    requires IsUpdateSoFar(t, i, w.before, root, fields, base)
    ensures IsUpdateSoFar(t, i + 1, w.after, root, fields, result)
  {
    GraftRefines(t, i, root, w, fields, base);
    result := ApplyEntry(t.entries[i], fields, base).value;
    NextEntry(t.entries, i, fields, base);
  }

  lemma RefinesCopy<L>(t: Job<L>, copy: map<L, L>, h: Heap<L>, fields: map<string, Json>)
    requires ValidJob(t) && Copied(t, copy, h) && Represents(t.input, Node(t.context), Obj(fields))
    ensures IsUpdateSoFar(t, 0, h, copy[t.context], fields, fields)
  {
    CopyRepresents(t, copy, h, fields);
    assert t.entries[..0] == [];
  }

  lemma LastWriteIsOwn<L>(t: Job<L>, copy: map<L, L>, h: Heap<L>, ws: seq<Write<L>>)
    requires ValidJob(t) && Copied(t, copy, h) && AllWrites(t, h, copy[t.context], ws) && ws != []
    requires Unextended(t.entries, |ws|)
    ensures |ws| <= |t.entries| && ws[|ws| - 1].before == HeapAfter(h, ws[..|ws| - 1])
    ensures WritesOwn(t, |ws| - 1, copy[t.context], ws[|ws| - 1]) && HeapAfter(h, ws) == ws[|ws| - 1].after
  {
    var last := |ws| - 1;
    WritesAreProgress(t, copy, h, ws[..last]);
    WriteIsOwn(t, last, copy[t.context], ws[last]);
  }

  lemma RefinesLast<L>(t: Job<L>, copy: map<L, L>, h: Heap<L>, ws: seq<Write<L>>, fields: map<string, Json>,
      base: map<string, Json>) returns (result: map<string, Json>)
    requires ValidJob(t) && Copied(t, copy, h) && AllWrites(t, h, copy[t.context], ws) && ws != []
    requires Unextended(t.entries, |ws|) && Represents(t.input, Node(t.context), Obj(fields)) && |ws| <= |t.entries|
    requires IsUpdateSoFar(t, |ws| - 1, HeapAfter(h, ws[..|ws| - 1]), copy[t.context], fields, base)
    ensures IsUpdateSoFar(t, |ws|, HeapAfter(h, ws), copy[t.context], fields, result)
  {
    LastWriteIsOwn(t, copy, h, ws);
    result := RefinesOneMore(t, |ws| - 1, copy[t.context], ws[|ws| - 1], fields, base);
  }

  /** The pure update has got as far as the heap. */
  ghost predicate Refined<L>(t: Job<L>, n: nat, h: Heap<L>, root: L, fields: map<string, Json>) {
    n <= |t.entries| && exists result :: IsUpdateSoFar(t, n, h, root, fields, result)
  }

  lemma AtMostEntries<L>(t: Job<L>, h: Heap<L>, root: L, ws: seq<Write<L>>)
    requires AllWrites(t, h, root, ws)
    ensures |ws| <= |t.entries|
  {
  }

  lemma RefinedLast<L>(t: Job<L>, copy: map<L, L>, h: Heap<L>, ws: seq<Write<L>>, fields: map<string, Json>)
    requires ValidJob(t) && Copied(t, copy, h) && AllWrites(t, h, copy[t.context], ws)
    requires Unextended(t.entries, |ws|) && Represents(t.input, Node(t.context), Obj(fields))
    requires ws != [] ==> Refined(t, |ws| - 1, HeapAfter(h, ws[..|ws| - 1]), copy[t.context], fields)
    ensures Refined(t, |ws|, HeapAfter(h, ws), copy[t.context], fields)
  {
    AtMostEntries(t, h, copy[t.context], ws);
    if ws == [] {
      RefinesCopy(t, copy, h, fields);
    } else {
      var base :| IsUpdateSoFar(t, |ws| - 1, HeapAfter(h, ws[..|ws| - 1]), copy[t.context], fields, base);
      var result := RefinesLast(t, copy, h, ws, fields, base);
    }
  }

  lemma {:induction false} AllRefined<L>(t: Job<L>, copy: map<L, L>, h: Heap<L>, ws: seq<Write<L>>,
                                         fields: map<string, Json>, n: nat)
    requires ValidJob(t) && Copied(t, copy, h) && AllWrites(t, h, copy[t.context], ws)
    requires Unextended(t.entries, |ws|) && Represents(t.input, Node(t.context), Obj(fields)) && n <= |ws|
    ensures Refined(t, n, HeapAfter(h, ws[..n]), copy[t.context], fields)
  {
    if n > 0 {
      AllRefined(t, copy, h, ws, fields, n - 1);
      assert ws[..n][..n - 1] == ws[..n - 1];
    }
    FrontWrites(t, h, copy[t.context], ws, n);
    RefinedLast(t, copy, h, ws[..n], fields);
  }

  /** Refinement. While no completed destination properly extends an earlier one, the result spells out the pure
      update by the completed entries, of the value that the context spelled out. */
  lemma RefinesTree<L>(t: Job<L>, copy: map<L, L>, h: Heap<L>, ws: seq<Write<L>>, fields: map<string, Json>)
    returns (result: map<string, Json>)
    requires ValidJob(t) && Copied(t, copy, h) && AllWrites(t, h, copy[t.context], ws)
    requires Unextended(t.entries, |ws|) && Represents(t.input, Node(t.context), Obj(fields))
    ensures |ws| <= |t.entries| && IsUpdateSoFar(t, |ws|, HeapAfter(h, ws), copy[t.context], fields, result)
  {
    AllRefined(t, copy, h, ws, fields, |ws|);
    assert ws[..|ws|] == ws;
    result :| IsUpdateSoFar(t, |ws|, HeapAfter(h, ws), copy[t.context], fields, result);
  }

  // ---- Which calls write into their input, as a question about the configuration and the value ----

  /** The pure update gets through the first `n` entries. */
  ghost predicate Completes(entries: seq<Entry>, fields: map<string, Json>, n: nat) {
    n <= |entries| && ApplyEntries(entries[..n], fields, fields).Ok?
  }

  /** The pure update gets through a destination that properly extends an earlier one. */
  ghost predicate ReachesExtension(entries: seq<Entry>, fields: map<string, Json>) {
    exists n: nat :: Completes(entries, fields, n) && !Unextended(entries, n)
  }

  lemma CompletesFewer(entries: seq<Entry>, fields: map<string, Json>, n: nat, m: nat)
    requires Completes(entries, fields, n) && m <= n
    ensures Completes(entries, fields, m)
  {
    assert entries[..n] == entries[..m] + entries[m..n];
    EntriesInTurn(entries[..m], entries[m..n], fields, fields);
  }

  /** The call ends after `n` entries: there are no more, or the next one raises. */
  ghost predicate StopsAfter<L>(t: Job<L>, h: Heap<L>, root: L, n: nat) {
    n < |t.entries| ==> !Parses(t.entries[n].src) || Stuck(h, Node(root), Dest(t.entries, n))
  }

  /** An entry raises in the heap exactly when it raises in the pure update, and for the same reason. */
  lemma EntryRaises<L>(t: Job<L>, n: nat, h: Heap<L>, root: L, fields: map<string, Json>, base: map<string, Json>)
    requires n < |t.entries| && IsUpdateSoFar(t, n, h, root, fields, base)
    ensures Completes(t.entries, fields, n + 1)
       <==> Parses(t.entries[n].src) && !Stuck(h, Node(root), Dest(t.entries, n))
    ensures !Completes(t.entries, fields, n + 1) ==>
              ApplyTransform(t.entries, fields) == Raise(if Parses(t.entries[n].src) then NO_SETDEFAULT else BAD_SOURCE)
  {
    var e := t.entries[n];
    NextEntry(t.entries, n, fields, base);
    StuckIsBlocked(h, Node(root), Obj(base), Split(e.dest));
    SetNestedMeaning(base, Split(e.dest), Search(fields, Split(e.src)), []);
    assert t.entries == t.entries[..n + 1] + t.entries[n + 1..];
    EntriesInTurn(t.entries[..n + 1], t.entries[n + 1..], fields, fields);
  }

  lemma ReachedExtension<L>(t: Job<L>, copy: map<L, L>, h: Heap<L>, ws: seq<Write<L>>, fields: map<string, Json>)
    requires ValidJob(t) && Copied(t, copy, h) && AllWrites(t, h, copy[t.context], ws)
    requires Represents(t.input, Node(t.context), Obj(fields)) && |ws| <= |t.entries| && !Unextended(t.entries, |ws|)
    ensures ReachesExtension(t.entries, fields)
  {
    var root := copy[t.context];
    var i := FirstExtension(t.entries, |ws|);
    FrontWrites(t, h, root, ws, i);
    NthWrite(t, h, root, ws, i);
    var base := RefinesTree(t, copy, h, ws[..i], fields);
    GraftedIsNotStuck(ws[i]);
    EntryRaises(t, i, ws[i].before, root, fields, base);
    assert Completes(t.entries, fields, i + 1) && !Unextended(t.entries, i + 1);
  }

  lemma NotReached<L>(t: Job<L>, copy: map<L, L>, h: Heap<L>, ws: seq<Write<L>>, fields: map<string, Json>, n: nat)
    requires ValidJob(t) && Copied(t, copy, h) && AllWrites(t, h, copy[t.context], ws)
    requires Represents(t.input, Node(t.context), Obj(fields)) && Unextended(t.entries, |ws|)
    requires |ws| <= |t.entries| && StopsAfter(t, HeapAfter(h, ws), copy[t.context], |ws|)
    requires Completes(t.entries, fields, n)
    ensures n <= |ws|
  {
    var base := RefinesTree(t, copy, h, ws, fields);
    if |ws| < n {
      EntryRaises(t, |ws|, HeapAfter(h, ws), copy[t.context], fields, base);
      CompletesFewer(t.entries, fields, n, |ws| + 1);
    }
  }

  /** What a call turns out to complete decides about its input as the pure update does beforehand. */
  lemma CompletedAsPure<L>(t: Job<L>, copy: map<L, L>, h: Heap<L>, ws: seq<Write<L>>, fields: map<string, Json>)
    requires ValidJob(t) && Copied(t, copy, h) && AllWrites(t, h, copy[t.context], ws)
    requires Represents(t.input, Node(t.context), Obj(fields))
    requires |ws| <= |t.entries| && StopsAfter(t, HeapAfter(h, ws), copy[t.context], |ws|)
    ensures !Unextended(t.entries, |ws|) <==> ReachesExtension(t.entries, fields)
  {
    if !Unextended(t.entries, |ws|) {
      ReachedExtension(t, copy, h, ws, fields);
    } else if ReachesExtension(t.entries, fields) {
      var n: nat :| Completes(t.entries, fields, n) && !Unextended(t.entries, n);
      NotReached(t, copy, h, ws, fields, n);
    }
  }

  /** No source is a prefix of another. */
  ghost predicate SourcesIncomparable(entries: seq<Entry>) {
    forall k, m :: 0 <= k < |entries| && 0 <= m < |entries| && k != m
      ==> !Comparable(Split(entries[k].src), Split(entries[m].src))
  }

  /** A condition on a configuration under which nothing gets shared, whatever the context. */
  ghost predicate Careful(entries: seq<Entry>) {
    Unextended(entries, |entries|) && SourcesIncomparable(entries)
  }

  /** No dict is found below the sources of two entries whose values are both in place. */
  ghost predicate SourcesApart<L>(t: Job<L>) {
    forall k, m, p, q, l ::
      (l in t.input && Survives(t.entries, k, |t.entries|) && Survives(t.entries, m, |t.entries|)
       && FoundAt(t.input, Source(t, k), p, l) && FoundAt(t.input, Source(t, m), q, l)) ==> k == m
  }

  lemma SourcePlace<L>(t: Job<L>, k: nat, p: Path, l: L)
    requires ValidJob(t) && k < |t.entries| && FoundAt(t.input, Source(t, k), p, l)
    ensures FoundAt(t.input, Node(t.context), Split(t.entries[k].src) + p, l)
  {
    var src := Split(t.entries[k].src);
    if Look(t.input, Node(t.context), src).Some? {
      LookConcat(t.input, Node(t.context), src, p);
    } else {
      NilHasNoFields(t.input, p);
    }
  }

  /** In a tree, sources that are no prefixes of one another share nothing. */
  lemma IncomparableSourcesApart<L>(t: Job<L>)
    requires ValidJob(t) && SourcesIncomparable(t.entries)
    ensures SourcesApart(t)
  {
    forall k: nat, m: nat, p, q, l |
      l in t.input && Survives(t.entries, k, |t.entries|) && Survives(t.entries, m, |t.entries|)
      && FoundAt(t.input, Source(t, k), p, l) && FoundAt(t.input, Source(t, m), q, l)
      ensures k == m
    {
      var src, src' := Split(t.entries[k].src), Split(t.entries[m].src);
      SourcePlace(t, k, p, l);
      SourcePlace(t, m, q, l);
      assert src + p == src' + q;
      PrefixesCompare(src, src', src + p);
    }
  }

  lemma SourceNodeOnce<L>(t: Job<L>, k: nat, p: Path, q: Path, l: L)
    requires ValidJob(t) && k < |t.entries|
    requires FoundAt(t.input, Source(t, k), p, l) && FoundAt(t.input, Source(t, k), q, l)
    ensures p == q
  {
    var src := Split(t.entries[k].src);
    SourcePlace(t, k, p, l);
    SourcePlace(t, k, q, l);
    LooksStayIn(t.input, Node(t.context), src + p);
    assert (src + p)[|src|..] == p && (src + q)[|src|..] == q;
  }

  lemma InputNodeBelow<L>(t: Job<L>, h: Heap<L>, root: L, p: Path, l: L) returns (k: nat)
    requires ValidJob(t) && Progress(t, |t.entries|, h, root) && FoundAt(h, Node(root), p, l) && l in t.input
    ensures Survives(t.entries, k, |t.entries|) && Dest(t.entries, k) <= p
    ensures FoundAt(t.input, Source(t, k), p[|Dest(t.entries, k)|..], l)
  {
    assert BelowSurvivor(t.entries, |t.entries|, p);
    k :| Survives(t.entries, k, |t.entries|) && Dest(t.entries, k) <= p;
    var d := Dest(t.entries, k);
    assert p == d + p[|d|..];
    BelowSource(t, |t.entries|, h, root, k, p[|d|..]);
  }

  lemma InputNodeOnce<L>(t: Job<L>, h: Heap<L>, root: L, p: Path, q: Path, l: L)
    requires ValidJob(t) && Progress(t, |t.entries|, h, root) && SourcesApart(t) && l in t.input
    requires FoundAt(h, Node(root), p, l) && FoundAt(h, Node(root), q, l)
    ensures p == q
  {
    var k := InputNodeBelow(t, h, root, p, l);
    var m := InputNodeBelow(t, h, root, q, l);
    assert k == m;
    var n := |Dest(t.entries, k)|;
    SourceNodeOnce(t, k, p[n..], q[n..], l);
    assert p == Dest(t.entries, k) + p[n..] && q == Dest(t.entries, k) + q[n..];
  }

  lemma SharedSourceTwice<L>(t: Job<L>, h: Heap<L>, root: L, k: nat, m: nat, p: Path, q: Path, l: L)
    requires ValidJob(t) && Progress(t, |t.entries|, h, root) && Unextended(t.entries, |t.entries|)
    requires TreeShaped(h, Node(root)) && Survives(t.entries, k, |t.entries|) && Survives(t.entries, m, |t.entries|)
    requires FoundAt(t.input, Source(t, k), p, l) && FoundAt(t.input, Source(t, m), q, l)
    ensures k == m
  {
    var p', q' := Dest(t.entries, k) + p, Dest(t.entries, m) + q;
    BelowSource(t, |t.entries|, h, root, k, p);
    BelowSource(t, |t.entries|, h, root, m, q);
    assert FoundAt(h, Node(root), p', l) && FoundAt(h, Node(root), q', l);
    SurvivorsApart(t.entries, k, m, |t.entries|, p');
  }

  /** The result is a tree again if and only if the sources in place share no dict. */
  lemma ResultIsTree<L>(t: Job<L>, h: Heap<L>, root: L)
    requires ValidJob(t) && Progress(t, |t.entries|, h, root) && Unextended(t.entries, |t.entries|)
    ensures TreeShaped(h, Node(root)) <==> SourcesApart(t)
  {
    if TreeShaped(h, Node(root)) {
      forall k, m, p, q, l |
        l in t.input && Survives(t.entries, k, |t.entries|) && Survives(t.entries, m, |t.entries|)
        && FoundAt(t.input, Source(t, k), p, l) && FoundAt(t.input, Source(t, m), q, l)
        ensures k == m
      {
        SharedSourceTwice(t, h, root, k, m, p, q, l);
      }
    } else if SourcesApart(t) {
      forall p, q, l | l in h && FoundAt(h, Node(root), p, l) && FoundAt(h, Node(root), q, l) ensures p == q {
        if l in t.input {
          InputNodeOnce(t, h, root, p, q, l);
        }
      }
    }
  }
}
