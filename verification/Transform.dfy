/** services/platform-api/src/executions/transform.py on mutable dicts that may be shared. */
module Transform {
  import opened Common
  import opened Tree
  import opened Graph
  import opened TransformGraph

  class Dict {
    var entries: map<string, Val<Dict>>

    constructor ()
      ensures entries == map[]
    {
      entries := map[];
    }
  }

  /** The contents of some dicts at the current moment. */
  ghost function Snap(nodes: set<Dict>): Heap<Dict>
    reads nodes
  {
    map d | d in nodes :: d.entries
  }

  /** `w` describes a write under way on the dicts `nodes` and the new ones of its chain. */
  ghost predicate UnderWay(w: Write<Dict>, nodes: set<Dict>, i: nat, current: Dict)
    reads nodes, Elements(w.chain)
  {
    w.before.Keys == nodes && ClosedHeap(w.before) && w.after == Snap(nodes + Elements(w.chain)) &&
        Partway(w, i, current)
  }

  method HangNew(current: Dict, key: string, ghost w: Write<Dict>, ghost nodes: set<Dict>, ghost i: nat)
    returns (ghost w': Write<Dict>)
    requires UnderWay(w, nodes, i, current) && i + 1 < |w.keys| && key == w.keys[i] && key !in current.entries
    modifies current
    ensures key in current.entries && current.entries[key].Node? && fresh(current.entries[key].loc)
    ensures w' == w.(after := w'.after, chain := w.chain + [current.entries[key].loc])
    ensures UnderWay(w', nodes, i + 1, current.entries[key].loc)
  {
    var d := new Dict();
    current.entries := current.entries[key := Node(d)];
    assert nodes + Elements(w.chain + [d]) == nodes + Elements(w.chain) + {d};
    ghost var after := Snap(nodes + Elements(w.chain) + {d});
    assert after == w.after[current := w.after[current][key := Node(d)]][d := map[]];
    w' := w.(after := after, chain := w.chain + [d]);
    PartwayCreate(w, i, current, d, after);
  }

  /** `current.setdefault(key, {})` on the way to a destination. */
  method SetDefault(current: Dict, key: string, ghost w: Write<Dict>, ghost nodes: set<Dict>, ghost i: nat)
    returns (next: Val<Dict>, ghost w': Write<Dict>)
    requires UnderWay(w, nodes, i, current) && i + 1 < |w.keys| && key == w.keys[i]
    modifies current
    ensures key in old(current.entries) ==> current.entries == old(current.entries) && next == old(current.entries)[key]
    ensures w'.before == w.before && w'.root == w.root && w'.keys == w.keys && w'.value == w.value
    ensures next.Node? ==> UnderWay(w', nodes, i + 1, next.loc)
    ensures forall d :: d in w'.chain && d !in w.chain ==> fresh(d)
    ensures !next.Node? ==> Stuck(w.before, w.root, w.keys) && Snap(nodes) == w.before
  {
    if key !in current.entries {
      w' := HangNew(current, key, w, nodes, i);
    } else {
      PartwayStuck(w, i, current);
      assert Closed(w.before, w.before[current][key]);
      w' := w;
      match current.entries[key] {
        case Node(d) =>
          w' := w.(depth := i + 1, target := d);
          PartwayFollow(w, i, current, d);
        case _ =>
          assert StuckAt(w.before, w.root, w.keys[..i + 1]);
      }
    }
    next := current.entries[key];
  }

  ghost predicate IsWriteOf(w: Write<Dict>, before: Heap<Dict>, data: Dict, keys: Path, value: Val<Dict>) {
    w.before == before && w.root == Node(data) && w.keys == keys && w.value == value
  }

  /** The loop of `_set_nested`: down to the dict that gets the last key, or to something on the way that is none. */
  method Walk(data: Dict, keys: Path, ghost value: Val<Dict>, ghost nodes: set<Dict>)
    returns (ok: bool, last: Dict, ghost w: Write<Dict>)
    requires keys != [] && data in nodes && ClosedHeap(Snap(nodes))
    modifies nodes
    ensures IsWriteOf(w, old(Snap(nodes)), data, keys, value) && fresh(Elements(w.chain))
    ensures !ok ==> Stuck(old(Snap(nodes)), Node(data), keys) && Snap(nodes) == old(Snap(nodes))
    ensures ok ==> UnderWay(w, nodes, |keys| - 1, last)
  {
    last := data;
    var i := 0;
    w := Write(Snap(nodes), Snap(nodes), Node(data), keys, value, 0, data, []);
    while i < |keys| - 1
      invariant i < |keys| && UnderWay(w, nodes, i, last) && fresh(Elements(w.chain))
      invariant IsWriteOf(w, old(Snap(nodes)), data, keys, value)
    {
      var next;
      next, w := SetDefault(last, keys[i], w, nodes, i);
      if !next.Node? {
        return false, last, w;
      }
      last := next.loc;
      i := i + 1;
    }
    ok := true;
  }

  /** `_set_nested`. It changes one field of one existing dict and hangs the missing dicts below it. When the
      way is stuck it raises (`!ok`) and has changed nothing. */
  method SetNested(data: Dict, keys: Path, value: Val<Dict>, ghost nodes: set<Dict>)
    returns (ok: bool, ghost w: Write<Dict>)
    requires keys != [] && data in nodes && ClosedHeap(Snap(nodes))
    modifies nodes
    ensures ok <==> !Stuck(old(Snap(nodes)), Node(data), keys)
    ensures !ok ==> Snap(nodes) == old(Snap(nodes))
    ensures IsWriteOf(w, old(Snap(nodes)), data, keys, value) && fresh(Elements(w.chain))
    ensures ok ==> w.after == Snap(nodes + Elements(w.chain)) && Grafted(w)
  {
    var last;
    ok, last, w := Walk(data, keys, value, nodes);
    if ok {
      last.entries := last.entries[keys[|keys| - 1] := value];
      PartwayFinish(w, |keys| - 1, last, Snap(nodes + Elements(w.chain)));
      w := w.(after := Snap(nodes + Elements(w.chain)));
      GraftedIsNotStuck(w);
    }
  }

  function Children(d: Dict): set<Dict>
    reads d
  {
    set key | key in d.entries && d.entries[key].Node? :: d.entries[key].loc
  }

  /** The dicts that `copy.deepcopy` comes to. */
  method Traverse(context: Dict, ghost nodes: set<Dict>) returns (seen: set<Dict>)
    requires context in nodes && ClosedHeap(Snap(nodes))
    ensures context in seen && seen <= nodes && forall d :: d in seen ==> Children(d) <= seen
  {
    seen := {};
    var todo := {context};
    while todo != {}
      invariant seen <= nodes && todo <= nodes && seen !! todo && context in seen + todo
      invariant forall d :: d in seen ==> Children(d) <= seen + todo
      decreases nodes - seen
    {
      var d :| d in todo;
      forall key | key in d.entries ensures Closed(Snap(nodes), d.entries[key]) {
        assert Closed(Snap(nodes), Snap(nodes)[d][key]);
      }
      seen := seen + {d};
      todo := (todo + Children(d)) - seen;
    }
  }

  /** `copy.deepcopy`: one new dict for each it comes to, so that sharing is kept. */
  method DeepCopy(context: Dict, ghost nodes: set<Dict>) returns (copy: map<Dict, Dict>)
    requires context in nodes && ClosedHeap(Snap(nodes))
    ensures context in copy && copy.Keys <= nodes
    ensures forall d :: d in copy ==> fresh(copy[d]) && Children(d) <= copy.Keys
    ensures forall d, d' :: d in copy && d' in copy && copy[d] == copy[d'] ==> d == d'
    ensures forall d :: d in copy ==> copy[d].entries == RenameFields(copy, d.entries)
  {
    var seen := Traverse(context, nodes);
    copy := map[];
    var todo := seen;
    while todo != {}
      invariant todo <= seen && copy.Keys == seen - todo && forall d :: d in copy ==> fresh(copy[d])
      invariant forall d, d' :: d in copy && d' in copy && copy[d] == copy[d'] ==> d == d'
    {
      var d :| d in todo;
      var made := new Dict();
      copy := copy[d := made];
      todo := todo - {d};
    }
    todo := seen;
    while todo != {}
      invariant todo <= seen
      invariant forall d :: d in seen && d !in todo ==> copy[d].entries == RenameFields(copy, d.entries)
    {
      var d :| d in todo;
      copy[d].entries := RenameFields(copy, d.entries);
      todo := todo - {d};
    }
  }

  /** The search of a dotted field selection. It returns what it finds in the context, not a copy. */
  method Select(context: Dict, src: Path, ghost nodes: set<Dict>) returns (v: Val<Dict>)
    requires context in nodes && ClosedHeap(Snap(nodes))
    ensures v == SearchHeap(Snap(nodes), context, src) && Closed(Snap(nodes), v)
  {
    v := Node(context);
    var i := 0;
    while i < |src|
      invariant i <= |src| && Look(Snap(nodes), Node(context), src[..i]) == Some(v) && Closed(Snap(nodes), v)
    {
      assert src[..i + 1][..i] == src[..i];
      if !v.Node? || src[i] !in v.loc.entries {
        MissingStaysMissing(Snap(nodes), Node(context), src, i + 1);
        return Nil;
      }
      assert Closed(Snap(nodes), Snap(nodes)[v.loc][src[i]]);
      v := v.loc.entries[src[i]];
      i := i + 1;
    }
    assert src[..|src|] == src;
  }

  /** The dicts `nodes` and the result's `own`, with the copy that the result started as. */
  method CopyContext(context: Dict, ghost nodes: set<Dict>, ghost entries: seq<Entry>)
    returns (result: Dict, ghost copy: map<Dict, Dict>, ghost own: set<Dict>)
    requires context in nodes && ClosedHeap(Snap(nodes))
    ensures fresh(own) && result in own && context in copy && result == copy[context]
    ensures Copied(Job(Snap(nodes), context, entries), copy, Snap(nodes + own)) && ClosedHeap(Snap(nodes + own))
  {
    var made := DeepCopy(context, nodes);
    result, copy, own := made[context], made, made.Values;
    ghost var t := Job(Snap(nodes), context, entries);
    assert forall d, key :: d in copy && key in d.entries && d.entries[key].Node? ==> d.entries[key].loc in Children(d);
    assert Copied(t, copy, Snap(nodes + own));
    CopyClosed(t, copy, Snap(nodes + own));
  }

  /** One turn of the loop of `apply_transform`: the search, then the write. */
  method ApplyEntry(entry: Entry, context: Dict, result: Dict, ghost nodes: set<Dict>)
    returns (raised: Option<string>, ghost w: Write<Dict>)
    requires context in nodes && result in nodes && ClosedHeap(Snap(nodes))
    modifies nodes
    ensures raised == if !Parses(entry.src) then Some(BAD_SOURCE)
                      else if Stuck(old(Snap(nodes)), Node(result), Split(entry.dest)) then Some(NO_SETDEFAULT)
                      else None
    ensures raised.Some? ==> Snap(nodes) == old(Snap(nodes))
    ensures raised.None? ==>
              && fresh(Elements(w.chain)) && ClosedHeap(w.after) && w.after == Snap(nodes + Elements(w.chain))
              && Grafted(w) && IsWriteOf(w, old(Snap(nodes)), result, Split(entry.dest),
                                         SearchHeap(old(Snap(nodes)), context, Split(entry.src)))
  {
    if !Parses(entry.src) {
      w := Write(Snap(nodes), Snap(nodes), Node(result), Split(entry.dest), Nil, 0, result, []);
      return Some(BAD_SOURCE), w;
    }
    var value := Select(context, Split(entry.src), nodes);
    var ok;
    ok, w := SetNested(result, Split(entry.dest), value, nodes);
    if ok {
      GraftClosed(w);
    }
    raised := if ok then None else Some(NO_SETDEFAULT);
  }

  /** How the pure update ends. */
  function Ending(entries: seq<Entry>, fields: map<string, Json>): Option<string> {
    match Tree.ApplyTransform(entries, fields)
    case Ok(_) => None
    case Raise(error) => Some(error)
  }

  /** The result of `apply_transform`: `h` holds the input dicts and the result's own. */
  ghost predicate IsUpdate(t: Job<Dict>, fields: map<string, Json>, h: Heap<Dict>, result: Dict,
      raised: Option<string>) {
    && raised == Ending(t.entries, fields)
    && (raised.None? ==>
          && Represents(h, Node(result), Obj(Tree.ApplyTransform(t.entries, fields).value))
          && (TreeShaped(h, Node(result)) <==> SourcesApart(t)))
  }

  /** Some completed write went into a dict of the input. */
  ghost predicate HitsInput(t: Job<Dict>, ws: seq<Write<Dict>>) {
    exists i :: 0 <= i < |ws| && ws[i].target in t.input
  }

  /** The loop is over: it got through all entries, or the next one raises. */
  ghost predicate Over(t: Job<Dict>, h: Heap<Dict>, root: Dict, n: nat, raised: Option<string>) {
    && n <= |t.entries| && StopsAfter(t, h, root, n) && (raised.None? <==> n == |t.entries|)
    && (raised.Some? ==> raised.value == if Parses(t.entries[n].src) then NO_SETDEFAULT else BAD_SOURCE)
  }

  /** The loop of `apply_transform`, on the input's dicts and the copy's: `all` are these and the new ones. */
  method WriteEntries(entries: seq<Entry>, context: Dict, result: Dict, ghost t: Job<Dict>, ghost nodes: set<Dict>)
    returns (raised: Option<string>, ghost all: set<Dict>, ghost ws: seq<Write<Dict>>)
    requires t.entries == entries && t.context == context && context in nodes && result in nodes
    requires ClosedHeap(Snap(nodes))
    modifies nodes
    ensures nodes <= all && fresh(all - nodes) && ClosedHeap(Snap(all))
    ensures AllWrites(t, old(Snap(nodes)), result, ws) && HeapAfter(old(Snap(nodes)), ws) == Snap(all)
    ensures Over(t, Snap(all), result, |ws|, raised)
  {
    raised, all, ws := None, nodes, [];
    var i := 0;
    while i < |entries| && raised.None?
      invariant i <= |entries| && nodes <= all && fresh(all - nodes) && ClosedHeap(Snap(all))
      invariant AllWrites(t, old(Snap(nodes)), result, ws) && HeapAfter(old(Snap(nodes)), ws) == Snap(all)
      invariant if raised.None? then |ws| == i else |ws| < |entries| && Over(t, Snap(all), result, |ws|, raised)
    {
      ghost var w;
      raised, w := ApplyEntry(entries[i], context, result, all);
      if raised.None? {
        OneMoreWrite(t, old(Snap(nodes)), result, ws, w);
        all, ws := all + Elements(w.chain), ws + [w];
      }
      i := i + 1;
    }
  }

  /** On a tree-shaped context, a call writes into its input if and only if a completed destination properly extends
      an earlier one, which the configuration and the value of the context decide beforehand. If that does not happen,
      the input dicts keep their contents, the call raises exactly when the pure update does, otherwise the result
      spells that update out, and it is a tree again exactly when the sources in place share nothing. */
  ghost predicate Exactly(t: Job<Dict>, fields: map<string, Json>, ws: seq<Write<Dict>>, h: Heap<Dict>, result: Dict,
      raised: Option<string>) {
    && (HitsInput(t, ws) <==> ReachesExtension(t.entries, fields))
    && (!ReachesExtension(t.entries, fields) ==>
          TransformGraph.InputKept(t, h) && IsUpdate(t, fields, h, result, raised))
  }

  /** The writes of the first entries to `result`, the last of which left `h`. */
  ghost predicate Performed(entries: seq<Entry>, ws: seq<Write<Dict>>, h: Heap<Dict>, result: Dict) {
    && |ws| <= |entries| && (ws != [] ==> ws[|ws| - 1].after == h)
    && forall i :: 0 <= i < |ws| ==> Grafted(ws[i]) && ws[i].root == Node(result) && ws[i].keys == Dest(entries, i)
  }

  /** `apply_transform`, with the writes it completes; `all` are the dicts of the input and those it made. */
  method ApplyTransform(entries: seq<Entry>, context: Dict, ghost nodes: set<Dict>, ghost fields: map<string, Json>)
    returns (raised: Option<string>, result: Dict, ghost all: set<Dict>, ghost ws: seq<Write<Dict>>)
    requires context in nodes && ClosedHeap(Snap(nodes)) && Represents(Snap(nodes), Node(context), Obj(fields))
    modifies nodes
    ensures nodes <= all && fresh(all - nodes) && result in all - nodes && ClosedHeap(Snap(all))
    ensures Performed(entries, ws, Snap(all), result) && (raised.None? <==> |ws| == |entries|)
    ensures old(TreeShaped(Snap(nodes), Node(context))) ==>
              Exactly(Job(old(Snap(nodes)), context, entries), fields, ws, Snap(all), result, raised)
    ensures old(TreeShaped(Snap(nodes), Node(context))) && !ReachesExtension(entries, fields) ==>
              Snap(nodes) == old(Snap(nodes))
  {
    ghost var t := Job(Snap(nodes), context, entries);
    ghost var copy, own;
    result, copy, own := CopyContext(context, nodes, entries);
    ghost var h := Snap(nodes + own);
    raised, all, ws := WriteEntries(entries, context, result, t, nodes + own);
    Concluded(t, copy, h, ws, fields, raised);
    SnapKept(t, nodes, all);
  }

  lemma SnapKept(t: Job<Dict>, nodes: set<Dict>, all: set<Dict>)
    requires t.input.Keys == nodes <= all
    ensures TransformGraph.InputKept(t, Snap(all)) ==> Snap(nodes) == t.input
  {
    assert forall d :: d in nodes ==> Snap(nodes)[d] == Snap(all)[d];
  }

  lemma EndsAsPure(t: Job<Dict>, h: Heap<Dict>, root: Dict, n: nat, fields: map<string, Json>,
      result: map<string, Json>, raised: Option<string>)
    requires Over(t, h, root, n, raised) && IsUpdateSoFar(t, n, h, root, fields, result)
    ensures raised == Ending(t.entries, fields)
    ensures raised.None? ==> Tree.ApplyTransform(t.entries, fields) == Ok(result)
  {
    if raised.None? {
      assert t.entries[..n] == t.entries;
    } else {
      EntryRaises(t, n, h, root, fields, result);
    }
  }

  lemma Finished(t: Job<Dict>, copy: map<Dict, Dict>, h: Heap<Dict>, ws: seq<Write<Dict>>, fields: map<string, Json>,
      raised: Option<string>)
    requires ValidJob(t) && Copied(t, copy, h) && AllWrites(t, h, copy[t.context], ws)
    requires Represents(t.input, Node(t.context), Obj(fields))
    requires Over(t, HeapAfter(h, ws), copy[t.context], |ws|, raised)
    ensures Exactly(t, fields, ws, HeapAfter(h, ws), copy[t.context], raised)
  {
    var root, h' := copy[t.context], HeapAfter(h, ws);
    InputIsWritten(t, copy, h, ws);
    CompletedAsPure(t, copy, h, ws, fields);
    if Unextended(t.entries, |ws|) {
      WritesAreProgress(t, copy, h, ws);
      var result := RefinesTree(t, copy, h, ws, fields);
      EndsAsPure(t, h', root, |ws|, fields, result, raised);
      if raised.None? {
        ResultIsTree(t, h', root);
      }
    }
  }

  lemma Concluded(t: Job<Dict>, copy: map<Dict, Dict>, h: Heap<Dict>, ws: seq<Write<Dict>>, fields: map<string, Json>,
      raised: Option<string>)
    requires ClosedHeap(t.input) && t.context in t.input && Represents(t.input, Node(t.context), Obj(fields))
    requires Copied(t, copy, h) && AllWrites(t, h, copy[t.context], ws)
    requires Over(t, HeapAfter(h, ws), copy[t.context], |ws|, raised)
    ensures Performed(t.entries, ws, HeapAfter(h, ws), copy[t.context])
    ensures TreeShaped(t.input, Node(t.context)) ==> Exactly(t, fields, ws, HeapAfter(h, ws), copy[t.context], raised)
  {
    forall i | 0 <= i < |ws| ensures Writes(t, i, copy[t.context], ws[i]) {
      NthWrite(t, h, copy[t.context], ws, i);
    }
    if TreeShaped(t.input, Node(t.context)) {
      Finished(t, copy, h, ws, fields, raised);
    }
  }

  /** With destinations none of which is a prefix of another, what a call on a tree yields is the simultaneous
      update. */
  lemma IndependentUpdate(t: Job<Dict>, fields: map<string, Json>, ws: seq<Write<Dict>>, h: Heap<Dict>, result: Dict,
      raised: Option<string>) returns (updated: map<string, Json>)
    requires Exactly(t, fields, ws, h, result, raised) && Independent(t.entries)
    ensures !HitsInput(t, ws) && TransformGraph.InputKept(t, h) && (raised.Some? <==> SomeFails(t.entries, Obj(fields)))
    ensures raised.None? ==> Represents(h, Node(result), Obj(updated))
    ensures raised.None? ==> forall p :: UpdatedAt(t.entries, fields, Obj(fields), Obj(updated), p)
  {
    IndependentIsUnextended(t.entries);
    ApplyMeaning(t.entries, fields, fields, []);
    updated := if raised.None? then Tree.ApplyTransform(t.entries, fields).value else map[];
    if raised.None? {
      forall p ensures UpdatedAt(t.entries, fields, Obj(fields), Obj(updated), p) {
        ApplyMeaning(t.entries, fields, fields, p);
      }
    }
  }
}
