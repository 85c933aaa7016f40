/** What `execute_workflow` does with the dicts of `execution.context`: load, store, `{**context, key: value}` and
    transforms (services/platform-api/src/executions/executor.py, lines 100-104 and 119-125). */
module ContextDicts {
  import opened Common
  import opened Tree
  import opened Graph
  import opened TransformGraph
  import opened Contexts
  import opened Transform

  /** The dicts `nodes` make `context` a tree of the value `fields`. */
  ghost predicate Holds(nodes: set<Dict>, context: Dict, fields: map<string, Json>)
    reads nodes
  {
    Spells(Snap(nodes), Node(context), Obj(fields))
  }

  /** `d[key] = v`, for a tree `v` of other dicts. */
  method SetField(d: Dict, key: string, v: Val<Dict>, ghost nodes: set<Dict>, ghost fields: map<string, Json>,
                  ghost part: set<Dict>, ghost j: Json)
    requires Holds(nodes, d, fields) && Spells(Snap(part), v, j) && nodes !! part
    modifies d
    ensures Holds(nodes + part, d, fields[key := j])
  {
    ghost var h, h' := Snap(nodes), Snap(part);
    d.entries := d.entries[key := v];
    FieldSpells(h, d, fields, key, v, j, h', Snap(nodes + part));
  }

  /** A JSON value that was read: new dicts that share nothing. */
  method Load(j: Json) returns (v: Val<Dict>, ghost made: set<Dict>)
    ensures fresh(made) && Spells(Snap(made), v, j)
    decreases j, 1
  {
    match j {
      case Null =>
        v, made := Nil, {};
        AtomSpells(Snap(made), j);
      case Leaf(text) =>
        v, made := Text(text), {};
        AtomSpells(Snap(made), j);
      case Obj(fields) =>
        var d;
        d, made := LoadFields(fields);
        v := Node(d);
    }
  }

  method LoadFields(fields: map<string, Json>) returns (d: Dict, ghost made: set<Dict>)
    ensures fresh(made) && Holds(made, d, fields)
    decreases Obj(fields), 0
  {
    d := new Dict();
    made := {d};
    EmptySpells(Snap(made), d);
    var todo := fields.Keys;
    ghost var done: map<string, Json> := map[];
    while todo != {}
      invariant todo <= fields.Keys && done.Keys == fields.Keys - todo
      invariant forall key :: key in done ==> done[key] == fields[key]
      invariant fresh(made) && d in made && Holds(made, d, done)
    {
      var key :| key in todo;
      var v, part := Load(fields[key]);
      SetField(d, key, v, made, done, part, fields[key]);
      made, todo := made + part, todo - {key};
      done := done[key := fields[key]];
    }
    assert done == fields;
  }

  /** The JSON value of a context or a part of it, as it is stored and published. */
  method Store(v: Val<Dict>, ghost nodes: set<Dict>, ghost j: Json) returns (r: Json)
    requires Spells(Snap(nodes), v, j)
    ensures r == j
    decreases j
  {
    assert SameKind(Look(Snap(nodes), v, []), Get(j, []));
    match v {
      case Nil => r := Null;
      case Text(text) => r := Leaf(text);
      case Node(d) =>
        var fields: map<string, Json> := map[];
        var todo := d.entries.Keys;
        while todo != {}
          invariant todo <= d.entries.Keys
          invariant fields == map key | key in d.entries && key in j.fields && key !in todo :: j.fields[key]
        {
          var key :| key in todo;
          FieldOfTree(Snap(nodes), d, j.fields, key);
          var x := Store(d.entries[key], nodes, j.fields[key]);
          fields, todo := fields[key := x], todo - {key};
        }
        forall key ensures key in d.entries <==> key in j.fields {
          FieldOfTree(Snap(nodes), d, j.fields, key);
        }
        assert fields == j.fields;
        r := Obj(fields);
    }
  }

  /** `{**context, key: v}`. */
  method WithKey(context: Dict, key: string, v: Val<Dict>, ghost nodes: set<Dict>, ghost fields: map<string, Json>,
                 ghost part: set<Dict>, ghost j: Json) returns (d: Dict, ghost all: set<Dict>)
    requires Holds(nodes, context, fields) && Spells(Snap(part), v, j) && nodes !! part
    ensures nodes + part <= all && fresh(all - nodes - part) && Holds(all, d, fields[key := j])
  {
    ghost var h := Snap(nodes);
    d := new Dict();
    d.entries := context.entries;
    assert Snap(nodes + {d}) == h[d := h[context]];
    ShallowSpells(h, context, d, Snap(nodes + {d}), fields);
    SetField(d, key, v, nodes + {d}, fields, part, j);
    all := nodes + {d} + part;
  }

  /** `apply_transform` with a careful configuration keeps contexts trees: it raises exactly when the pure update does,
      leaving the context as it was, and otherwise makes a tree of what that update yields. */
  method Update(entries: seq<Entry>, context: Dict, ghost nodes: set<Dict>, ghost fields: map<string, Json>)
    returns (raised: Option<string>, result: Dict, ghost all: set<Dict>)
    requires Careful(entries) && Holds(nodes, context, fields)
    modifies nodes
    ensures nodes <= all && fresh(all - nodes) && raised == Ending(entries, fields)
    ensures if raised.None? then Holds(all, result, Tree.ApplyTransform(entries, fields).value)
            else Holds(nodes, context, fields)
  {
    ghost var t := Job(Snap(nodes), context, entries);
    NeverReached(entries, fields);
    ghost var ws;
    raised, result, all, ws := Transform.ApplyTransform(entries, context, nodes, fields);
    IncomparableSourcesApart(t);
  }

  lemma NeverReached(entries: seq<Entry>, fields: map<string, Json>)
    requires Careful(entries)
    ensures !ReachesExtension(entries, fields)
  {
  }
}
