/** The smallest configurations for which `apply_transform` and runs that use it do what the pure update does not
    (services/platform-api/src/executions/transform.py, services/platform-api/src/executions/executor.py). */
module TransformCases {
  import opened Common
  import opened Tree
  import opened Graph
  import opened TransformGraph

  // ---- The context {"a": {}, "q": 5} ----

  function SmallFields(): map<string, Json> {
    map["a" := Obj(map[]), "q" := Leaf("5")]
  }

  function Root(a: nat): map<string, Val<nat>> {
    map["a" := Node(a), "q" := Text("5")]
  }

  /** It is made of dicts 0 and 1. */
  function SmallInput(): Heap<nat> {
    map[0 := Root(1), 1 := map[]]
  }

  /** Its copy is made of 2 and 3. */
  const SMALL_COPY: map<nat, nat> := map[0 := 2, 1 := 3]

  function SmallCopied(): Heap<nat> {
    map[0 := Root(1), 1 := map[], 2 := Root(3), 3 := map[]]
  }

  /** All dicts in the fields of `d` are empty. */
  ghost predicate Flat(h: Heap<nat>, d: nat) {
    d in h && forall key :: key in h[d] && h[d][key].Node? ==> h[d][key].loc in h && h[h[d][key].loc] == map[]
  }

  lemma {:induction false} FlatLooks(h: Heap<nat>, d: nat, p: Path)
    requires Flat(h, d)
    ensures Look(h, Node(d), p) == if p == [] then Some(Node(d))
                                   else if |p| == 1 && p[0] in h[d] then Some(h[d][p[0]]) else None
    decreases |p|
  {
    if p != [] {
      FlatLooks(h, d, p[..|p| - 1]);
    }
  }

  ghost predicate FlatSpells(h: Heap<nat>, d: nat, fields: map<string, Json>) {
    && Flat(h, d) && h[d].Keys == fields.Keys
    && forall key :: key in fields ==>
         match fields[key]
         case Null => h[d][key] == Nil
         case Leaf(text) => h[d][key] == Text(text)
         case Obj(inner) => h[d][key].Node? && inner == map[]
  }

  lemma FlatRepresents(h: Heap<nat>, d: nat, fields: map<string, Json>)
    requires FlatSpells(h, d, fields)
    ensures Represents(h, Node(d), Obj(fields))
  {
    forall p ensures SameKind(Look(h, Node(d), p), Get(Obj(fields), p)) {
      FlatLooks(h, d, p);
      if p != [] && p[0] in fields {
        assert Get(Obj(fields), p) == Get(fields[p[0]], p[1..]);
      }
    }
  }

  /** The context is a tree of its value. */
  lemma SmallIsJob(entries: seq<Entry>)
    ensures ValidJob(Job(SmallInput(), 0, entries)) && Represents(SmallInput(), Node(0), Obj(SmallFields()))
  {
    forall p, q, l | l in SmallInput() && FoundAt(SmallInput(), Node(0), p, l) && FoundAt(SmallInput(), Node(0), q, l)
      ensures p == q
    {
      FlatLooks(SmallInput(), 0, p);
      FlatLooks(SmallInput(), 0, q);
    }
    FlatRepresents(SmallInput(), 0, SmallFields());
  }

  lemma SmallIsReached(entries: seq<Entry>)
    ensures SMALL_COPY.Values == {2, 3} && Reaches(Job(SmallInput(), 0, entries), SMALL_COPY.Keys)
  {
    assert SMALL_COPY[0] == 2 && SMALL_COPY[1] == 3;
  }

  /** And it was copied. */
  lemma SmallIsCopied(entries: seq<Entry>)
    ensures Copied(Job(SmallInput(), 0, entries), SMALL_COPY, SmallCopied())
  {
    SmallIsReached(entries);
    assert RenameFields(SMALL_COPY, Root(1)) == Root(3);
    assert RenameFields(SMALL_COPY, map[]) == map[];
  }

  lemma LookOne(h: Heap<nat>, l: nat, key: string)
    ensures Look(h, Node(l), []) == Some(Node(l))
    ensures Look(h, Node(l), [key]) == if l in h && key in h[l] then Some(h[l][key]) else None
  {
    assert [key][..0] == [];
  }

  lemma LookTwo(h: Heap<nat>, l: nat, key: string, m: nat, key': string)
    requires l in h && key in h[l] && h[l][key] == Node(m)
    ensures Look(h, Node(l), [key, key']) == if m in h && key' in h[m] then Some(h[m][key']) else None
  {
    LookOne(h, l, key);
    assert [key, key'][..1] == [key];
  }

  lemma SplitOne(c: char)
    requires c != '.'
    ensures Split([c]) == [[c]] && Parses([c])
  {
    assert [c][1..] == [] && [c] + "" == [c] && Split("") == [""];
  }

  lemma SplitTwo(c: char, d: char)
    requires c != '.' && d != '.'
    ensures Split([c, '.', d]) == [[c], [d]]
  {
    assert [c, '.', d][1..] == ['.', d] && ['.', d][1..] == [d] && [c] + "" == [c];
    SplitOne(d);
    assert Split(['.', d]) == ["", [d]];
  }

  lemma TwoWrites(t: Job<nat>, h: Heap<nat>, root: nat, w1: Write<nat>, w2: Write<nat>)
    requires Writes(t, 0, root, w1) && w1.before == h && Writes(t, 1, root, w2) && w2.before == w1.after
    ensures AllWrites(t, h, root, [w1, w2]) && HeapAfter(h, [w1, w2]) == w2.after
  {
    OneMoreWrite(t, h, root, [], w1);
    OneMoreWrite(t, h, root, [w1], w2);
    assert [] + [w1] == [w1] && [w1] + [w2] == [w1, w2];
  }

  /** The write of "a" to a key of the copy. */
  function WriteA(h: Heap<nat>, key: string): Write<nat>
    requires 2 in h
  {
    Write(h, h[2 := h[2][key := Node(1)]], Node(2), [key], Node(1), 0, 2, [])
  }

  lemma WriteAIsWrite(t: Job<nat>, i: nat, h: Heap<nat>, c: char)
    requires 0 in h && h[0] == Root(1) && 2 in h && t.context == 0
    requires i < |t.entries| && c != '.' && t.entries[i] == Entry([c], "a")
    ensures Writes(t, i, 2, WriteA(h, [c]))
  {
    SplitOne(c);
    SplitOne('a');
    LookOne(h, 0, "a");
    LookOne(h, 2, [c]);
    assert [[c]][..0] == [];
  }

  // ---- A destination that extends an earlier one ----

  /** The heap after "a" was written to "x": the copy holds the input's dict 1 under "x". */
  function Halfway(): Heap<nat> {
    WriteA(SmallCopied(), "x").after
  }

  function WriteBelow(): Write<nat> {
    Write(Halfway(), Halfway()[1 := map["y" := Nil]], Node(2), ["x", "y"], Nil, 1, 1, [])
  }

  lemma WriteBelowIsWrite(t: Job<nat>)
    requires t.context == 0 && |t.entries| > 1 && t.entries[1] == Entry("x.y", "b")
    ensures Writes(t, 1, 2, WriteBelow())
  {
    SplitTwo('x', 'y');
    SplitOne('b');
    LookOne(Halfway(), 0, "b");
    LookOne(Halfway(), 2, "x");
    assert WriteBelow().keys[..1] == ["x"];
  }

  lemma InputSeesWrite()
    ensures Look(SmallInput(), Node(0), ["a", "y"]) == None
    ensures Look(WriteBelow().after, Node(0), ["a", "y"]) == Some(Nil)
  {
    LookTwo(SmallInput(), 0, "a", 1, "y");
    LookTwo(WriteBelow().after, 0, "a", 1, "y");
  }

  const OVERLAP := [Entry("x", "a"), Entry("x.y", "b")]

  /** The first two writes of any configuration that begins with {"x": "a", "x.y": "b"}. */
  lemma FirstTwo(entries: seq<Entry>)
    requires |entries| >= 2 && entries[..2] == OVERLAP
    ensures AllWrites(Job(SmallInput(), 0, entries), SmallCopied(), 2, [WriteA(SmallCopied(), "x"), WriteBelow()])
  {
    var t := Job(SmallInput(), 0, entries);
    assert entries[0] == OVERLAP[0] && entries[1] == OVERLAP[1];
    WriteAIsWrite(t, 0, SmallCopied(), 'x');
    WriteBelowIsWrite(t);
    TwoWrites(t, SmallCopied(), 2, WriteA(SmallCopied(), "x"), WriteBelow());
  }

  /** {"x": "a", "x.y": "b"}: although the context is a tree and was copied, the second write puts the key "y" into the
      dict that the caller's context holds under "a". */
  lemma OverlapMutatesInput() returns (ws: seq<Write<nat>>)
    ensures AllWrites(Job(SmallInput(), 0, OVERLAP), SmallCopied(), 2, ws) && |ws| == |OVERLAP|
    ensures Look(SmallInput(), Node(0), ["a", "y"]) == None
    ensures Look(HeapAfter(SmallCopied(), ws), Node(0), ["a", "y"]) == Some(Nil)
  {
    assert OVERLAP[..2] == OVERLAP;
    FirstTwo(OVERLAP);
    ws := [WriteA(SmallCopied(), "x"), WriteBelow()];
    InputSeesWrite();
  }

  const REREAD := [Entry("x", "a"), Entry("x.y", "b"), Entry("w", "a")]

  lemma RereadPurely()
    ensures ApplyTransform(REREAD, SmallFields()).Ok?
    ensures Get(Obj(ApplyTransform(REREAD, SmallFields()).value), ["w", "y"]) == None
  {
    var f := SmallFields();
    SplitOne('x');
    SplitOne('a');
    SplitOne('b');
    SplitOne('w');
    SplitTwo('x', 'y');
    assert Search(f, ["a"]) == Obj(map[]) by {
      assert Get(Obj(f), ["a"]) == Get(f["a"], []);
    }
    var f1 := f["x" := Obj(map[])];
    assert ApplyEntry(REREAD[0], f, f) == Ok(f1);
    var f2 := f1["x" := Obj(map["y" := Null])];
    assert ["x", "y"][1..] == ["y"];
    assert ApplyEntry(REREAD[1], f, f1) == Ok(f2);
    var f3 := f2["w" := Obj(map[])];
    assert ApplyEntry(REREAD[2], f, f2) == Ok(f3);
    PureThree(REREAD, f, f1, f2, f3);
    assert Get(Obj(f3), ["w", "y"]) == Get(f3["w"], ["y"]) by {
      assert ["w", "y"][1..] == ["y"];
    }
  }

  lemma PureThree(entries: seq<Entry>, f: map<string, Json>, f1: map<string, Json>, f2: map<string, Json>,
      f3: map<string, Json>)
    requires |entries| == 3 && ApplyEntry(entries[0], f, f) == Ok(f1)
    requires ApplyEntry(entries[1], f, f1) == Ok(f2) && ApplyEntry(entries[2], f, f2) == Ok(f3)
    ensures ApplyTransform(entries, f) == Ok(f3)
  {
    assert entries[..0] == [] && entries[..3] == entries;
    NextEntry(entries, 0, f, f);
    NextEntry(entries, 1, f, f1);
    NextEntry(entries, 2, f, f2);
  }

  lemma ThirdWrite() returns (w: Write<nat>)
    ensures Writes(Job(SmallInput(), 0, REREAD), 2, 2, w) && w.before == WriteBelow().after
    ensures Look(w.after, Node(2), ["w", "y"]) == Some(Nil)
  {
    w := WriteA(WriteBelow().after, "w");
    WriteAIsWrite(Job(SmallInput(), 0, REREAD), 2, WriteBelow().after, 'w');
    LookTwo(w.after, 2, "w", 1, "y");
  }

  /** {"x": "a", "x.y": "b", "w": "a"} completes in both readings, but the third search finds the dict that the second
      write went into: the result has "y" under "w", and the pure update has not. */
  lemma CompletesDifferently() returns (ws: seq<Write<nat>>)
    ensures AllWrites(Job(SmallInput(), 0, REREAD), SmallCopied(), 2, ws) && |ws| == |REREAD|
    ensures Look(HeapAfter(SmallCopied(), ws), Node(2), ["w", "y"]) == Some(Nil)
    ensures ApplyTransform(REREAD, SmallFields()).Ok?
    ensures Get(Obj(ApplyTransform(REREAD, SmallFields()).value), ["w", "y"]) == None
  {
    RereadPurely();
    assert REREAD[..2] == OVERLAP;
    FirstTwo(REREAD);
    var two := [WriteA(SmallCopied(), "x"), WriteBelow()];
    var w := ThirdWrite();
    OneMoreWrite(Job(SmallInput(), 0, REREAD), SmallCopied(), 2, two, w);
    ws := two + [w];
  }

  const RAISING := [Entry("x", "a"), Entry("x.y", "b"), Entry("q.r", "b")]

  lemma ThirdIsStuck()
    ensures Stuck(WriteBelow().after, Node(2), Dest(RAISING, 2))
    ensures forall i :: 0 <= i < |RAISING| ==> Dest(RAISING, i)[0] != "a"
  {
    SplitOne('x');
    SplitTwo('x', 'y');
    SplitTwo('q', 'r');
    LookOne(WriteBelow().after, 2, "q");
    assert ["q", "r"][..1] == ["q"];
    assert StuckAt(WriteBelow().after, Node(2), Dest(RAISING, 2)[..1]);
  }

  /** {"x": "a", "x.y": "b", "q.r": "b"} raises at its third entry, after the second went into the caller's dict: what
      the caller holds under "a" has changed, although no destination starts with "a". */
  lemma RaisingCallMutates() returns (ws: seq<Write<nat>>)
    ensures AllWrites(Job(SmallInput(), 0, RAISING), SmallCopied(), 2, ws) && |ws| == 2
    ensures Stuck(HeapAfter(SmallCopied(), ws), Node(2), Dest(RAISING, 2))
    ensures forall i :: 0 <= i < |RAISING| ==> Dest(RAISING, i)[0] != "a"
    ensures Look(SmallInput(), Node(0), ["a", "y"]) == None
    ensures Look(HeapAfter(SmallCopied(), ws), Node(0), ["a", "y"]) == Some(Nil)
  {
    ThirdIsStuck();
    assert RAISING[..2] == OVERLAP;
    FirstTwo(RAISING);
    ws := [WriteA(SmallCopied(), "x"), WriteBelow()];
    InputSeesWrite();
  }

  // ---- Two destinations with one source ----

  const SHARED := [Entry("x", "a"), Entry("y", "a")]

  /** {"x": "a", "y": "a"}: the input stays as it was, but the result holds one dict under both keys. */
  lemma SharedSourceIsNoTree() returns (ws: seq<Write<nat>>)
    ensures AllWrites(Job(SmallInput(), 0, SHARED), SmallCopied(), 2, ws) && |ws| == |SHARED|
    ensures HeapAfter(SmallCopied(), ws) == SharedHeap()
    ensures FoundAt(SharedHeap(), Node(2), ["x"], 1) && FoundAt(SharedHeap(), Node(2), ["y"], 1)
  {
    var t := Job(SmallInput(), 0, SHARED);
    var w1 := WriteA(SmallCopied(), "x");
    var w2 := WriteA(w1.after, "y");
    WriteAIsWrite(t, 0, SmallCopied(), 'x');
    WriteAIsWrite(t, 1, w1.after, 'y');
    ws := [w1, w2];
    TwoWrites(t, SmallCopied(), 2, w1, w2);
    LookOne(SharedHeap(), 2, "x");
    LookOne(SharedHeap(), 2, "y");
  }

  /** What it leaves: the new context is dict 2. */
  function SharedHeap(): Heap<nat> {
    SmallCopied()[2 := Root(3)["x" := Node(1)]["y" := Node(1)]]
  }

  function SharedFields(): map<string, Json> {
    SmallFields()["x" := Obj(map[])]["y" := Obj(map[])]
  }

  const LATER := [Entry("x.z", "b")]

  /** The next transform copies dicts 1, 2 and 3 to 4, 5 and 6. */
  const LATER_COPY: map<nat, nat> := map[1 := 4, 2 := 5, 3 := 6]

  function LaterCopied(): Heap<nat> {
    SharedHeap()[4 := map[]][5 := Root(6)["x" := Node(4)]["y" := Node(4)]][6 := map[]]
  }

  function LaterWrite(): Write<nat> {
    Write(LaterCopied(), LaterCopied()[4 := map["z" := Nil]], Node(5), ["x", "z"], Nil, 1, 4, [])
  }

  lemma LaterIsReached()
    ensures LATER_COPY.Values == {4, 5, 6} && Reaches(Job(SharedHeap(), 2, LATER), LATER_COPY.Keys)
  {
    assert LATER_COPY[1] == 4 && LATER_COPY[2] == 5 && LATER_COPY[3] == 6;
  }

  lemma LaterFields(l: nat)
    requires l in LATER_COPY
    ensures l in SharedHeap() && LATER_COPY[l] in LaterCopied()
    ensures LaterCopied()[LATER_COPY[l]] == RenameFields(LATER_COPY, SharedHeap()[l])
  {
    if l == 2 {
      assert SharedHeap()[2] == Root(3)["x" := Node(1)]["y" := Node(1)];
    } else {
      assert SharedHeap()[l] == map[];
    }
  }

  lemma LaterIsCopied()
    ensures Copied(Job(SharedHeap(), 2, LATER), LATER_COPY, LaterCopied())
  {
    LaterIsReached();
    forall l | l in LATER_COPY {
      LaterFields(l);
    }
  }

  lemma LaterIsSeen()
    ensures Look(LaterWrite().after, Node(5), ["y", "z"]) == Some(Nil)
  {
    LookTwo(LaterWrite().after, 5, "y", 4, "z");
  }

  lemma SharedRepresents()
    ensures Represents(SharedHeap(), Node(2), Obj(SharedFields()))
  {
    FlatRepresents(SharedHeap(), 2, SharedFields());
  }

  lemma LaterIsWrite()
    ensures Writes(Job(SharedHeap(), 2, LATER), 0, 5, LaterWrite())
  {
    SplitTwo('x', 'z');
    SplitOne('b');
    LookOne(LaterCopied(), 2, "b");
    LookOne(LaterCopied(), 5, "x");
    assert LaterWrite().keys[..1] == ["x"];
  }

  lemma LaterPurely()
    ensures ApplyTransform(LATER, SharedFields()).Ok?
    ensures Get(Obj(ApplyTransform(LATER, SharedFields()).value), ["y", "z"]) == None
  {
    var f := SharedFields();
    SplitOne('b');
    SplitTwo('x', 'z');
    assert ["x", "z"][1..] == ["z"] && ["y", "z"][1..] == ["z"];
    var f1 := f["x" := Obj(map["z" := Null])];
    assert Search(f, ["b"]) == Null;
    assert ApplyEntry(LATER[0], f, f) == Ok(f1);
    assert LATER[..0] == [] && LATER[..1] == LATER;
    NextEntry(LATER, 0, f, f);
    assert Get(Obj(f1), ["y", "z"]) == Get(f1["y"], ["z"]);
  }

  /** {"x": "a", "y": "a"} and then, in a later step, {"x.z": "b"}: the copy keeps the sharing, so that the write below
      "x" appears below "y" as well, and in the pure update it does not. */
  lemma SharingOutlivesTheCopy() returns (w: Write<nat>)
    ensures Writes(Job(SharedHeap(), 2, LATER), 0, 5, w) && w.before == LaterCopied()
    ensures Represents(SharedHeap(), Node(2), Obj(SharedFields()))
    ensures Look(w.after, Node(5), ["y", "z"]) == Some(Nil)
    ensures ApplyTransform(LATER, SharedFields()).Ok?
    ensures Get(Obj(ApplyTransform(LATER, SharedFields()).value), ["y", "z"]) == None
  {
    LaterIsWrite();
    LaterPurely();
    SharedRepresents();
    LaterIsSeen();
    w := LaterWrite();
  }
}
