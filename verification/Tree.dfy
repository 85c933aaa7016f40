/** Nested objects as values: what a transform step means when nothing is shared.
    (services/platform-api/src/executions/transform.py, read without its aliasing.) */
module Tree {
  import opened Common

  type Path = seq<string>

  /** `str.split(".")`: never empty, and empty segments are kept. */
  function Split(s: string): (keys: Path)
    ensures |keys| >= 1
  {
    if s == [] then [""]
    else
      var rest := Split(s[1..]);
      if s[0] == '.' then [""] + rest else [[s[0]] + rest[0]] + rest[1..]
  }

  function Join(keys: Path): string
    requires |keys| >= 1
  {
    if |keys| == 1 then keys[0] else keys[0] + "." + Join(keys[1..])
  }

  /** Splitting loses nothing, so different destination strings are different key sequences. */
  lemma {:induction false} JoinSplit(s: string)
    ensures Join(Split(s)) == s
  {
    if s != [] {
      JoinSplit(s[1..]);
      var rest := Split(s[1..]);
      if s[0] == '.' {
        assert ([""] + rest)[1..] == rest;
      } else if |rest| > 1 {
        assert ([[s[0]] + rest[0]] + rest[1..])[1..] == rest[1..];
      }
    }
  }

  predicate DotFree(keys: Path) {
    forall i :: 0 <= i < |keys| ==> '.' !in keys[i]
  }

  /** Every dot separates. With `JoinSplit` this determines the segments. */
  lemma {:induction false} SplitIsDotFree(s: string)
    ensures DotFree(Split(s))
  {
    if s != [] {
      SplitIsDotFree(s[1..]);
    }
  }

  /** And segments without dots are what their joined string splits into. */
  lemma {:induction false} SplitJoin(keys: Path)
    requires keys != [] && DotFree(keys)
    ensures Split(Join(keys)) == keys
    decreases |keys|
  {
    if |keys| == 1 {
      SplitBefore(keys[0], "");
      assert keys[0] + "" == keys[0];
    } else {
      var rest := "." + Join(keys[1..]);
      SplitJoin(keys[1..]);
      assert rest[1..] == Join(keys[1..]);
      assert Split(rest) == [""] + keys[1..];
      SplitBefore(keys[0], rest);
      assert keys[0] + "" == keys[0] && Join(keys) == keys[0] + rest;
      assert ([""] + keys[1..])[1..] == keys[1..] && keys == [keys[0]] + keys[1..];
    }
  }

  /** A piece without dots goes into the first segment of what follows. */
  lemma {:induction false} SplitBefore(piece: string, rest: string)
    requires '.' !in piece
    ensures Split(piece + rest) == [piece + Split(rest)[0]] + Split(rest)[1..]
    decreases |piece|
  {
    if piece == [] {
      assert piece + rest == rest && piece + Split(rest)[0] == Split(rest)[0];
    } else {
      var later := Split(piece[1..] + rest);
      assert (piece + rest)[1..] == piece[1..] + rest && (piece + rest)[0] == piece[0];
      SplitBefore(piece[1..], rest);
      assert later[0] == piece[1..] + Split(rest)[0] && later[1..] == Split(rest)[1..];
      assert [piece[0]] + later[0] == piece + Split(rest)[0];
    }
  }

  /** What is stored under a path, if anything is. */
  function Get(j: Json, p: Path): Option<Json>
    decreases |p|
  {
    if p == [] then Some(j)
    else if j.Obj? && p[0] in j.fields then Get(j.fields[p[0]], p[1..])
    else None
  }

  /** A dotted field selection has no empty segment; the search raises otherwise. */
  predicate Parses(src: string) {
    "" !in Split(src)
  }

  predicate DoubleDot(s: string) {
    exists i :: 0 <= i < |s| - 1 && s[i] == '.' && s[i + 1] == '.'
  }

  lemma DoubleDotLater(s: string)
    requires s != []
    ensures DoubleDot(s) <==> (|s| > 1 && s[0] == '.' && s[1] == '.') || DoubleDot(s[1..])
  {
    if DoubleDot(s) {
      var i :| 0 <= i < |s| - 1 && s[i] == '.' && s[i + 1] == '.';
      assert i > 0 ==> s[1..][i - 1] == '.' && s[1..][i] == '.';
    }
    if DoubleDot(s[1..]) {
      var i :| 0 <= i < |s[1..]| - 1 && s[1..][i] == '.' && s[1..][i + 1] == '.';
      assert s[i + 1] == '.' && s[i + 2] == '.';
    }
  }

  /** Segments after the first are empty between two dots and after a last one. */
  lemma {:induction false} LaterSegments(s: string)
    ensures Split(s)[0] == "" <==> s == "" || s[0] == '.'
    ensures "" in Split(s)[1..] <==> (s != "" && s[|s| - 1] == '.') || DoubleDot(s)
  {
    if s != [] {
      var rest := Split(s[1..]);
      LaterSegments(s[1..]);
      DoubleDotLater(s);
      if s[0] == '.' {
        assert Split(s)[1..] == rest && rest == [rest[0]] + rest[1..];
        assert |s| == 1 ==> s[1..] == "";
      } else {
        assert Split(s)[1..] == rest[1..];
      }
    }
  }

  /** A source parses exactly if it is not empty, neither begins nor ends with a dot, and has no two dots in a row. */
  lemma ParsesMeaning(src: string)
    ensures Parses(src) <==> src != "" && src[0] != '.' && src[|src| - 1] != '.' && !DoubleDot(src)
  {
    LaterSegments(src);
    assert Split(src) == [Split(src)[0]] + Split(src)[1..];
  }

  /** The search of a dotted field selection: a missing field is null. */
  function Search(context: map<string, Json>, src: Path): Json {
    match Get(Obj(context), src)
    case Some(v) => v
    case None => Null
  }

  /** A proper non-empty prefix of `keys` leads to something that is not an object. */
  ghost predicate Blocked(j: Json, keys: Path) {
    exists n :: 0 < n < |keys| && BlockedAt(j, keys[..n])
  }

  ghost predicate BlockedAt(j: Json, p: Path) {
    Get(j, p).Some? && !Get(j, p).value.Obj?
  }

  const BAD_SOURCE := "invalid expression"
  const NO_SETDEFAULT := "no attribute 'setdefault'"

  function SetNested(fields: map<string, Json>, keys: Path, value: Json): (r: Outcome<map<string, Json>>)
    requires keys != []
    ensures r.Raise? ==> r.error == NO_SETDEFAULT
    decreases |keys|
  {
    if |keys| == 1 then Ok(fields[keys[0] := value])
    else
      match if keys[0] in fields then fields[keys[0]] else Obj(map[])
      case Obj(inner) =>
        (match SetNested(inner, keys[1..], value)
         case Ok(inner') => Ok(fields[keys[0] := Obj(inner')])
         case Raise(error) => Raise(error))
      case Null => Raise(NO_SETDEFAULT)
      case Leaf(_) => Raise(NO_SETDEFAULT)
  }

  datatype Entry = Entry(dest: string, src: string)

  /** One entry: its source is read from `context`, its destination written to `result`. */
  function ApplyEntry(e: Entry, context: map<string, Json>, result: map<string, Json>): Outcome<map<string, Json>> {
    if !Parses(e.src) then Raise(BAD_SOURCE) else SetNested(result, Split(e.dest), Search(context, Split(e.src)))
  }

  /** The loop of `apply_transform`: sources are read from `context`, destinations written to `result`. */
  function ApplyEntries(entries: seq<Entry>, context: map<string, Json>,
      result: map<string, Json>): Outcome<map<string, Json>>
    decreases |entries|
  {
    if entries == [] then Ok(result)
    else
      match ApplyEntry(entries[0], context, result)
      case Ok(result') => ApplyEntries(entries[1..], context, result')
      case Raise(error) => Raise(error)
  }

  function ApplyTransform(entries: seq<Entry>, context: map<string, Json>): Outcome<map<string, Json>> {
    ApplyEntries(entries, context, context)
  }

  /** The entries of a configuration take effect one after the other; the first that raises ends it. */
  lemma {:induction false} EntriesInTurn(first: seq<Entry>, rest: seq<Entry>, context: map<string, Json>,
      base: map<string, Json>)
    ensures ApplyEntries(first + rest, context, base)
         == match ApplyEntries(first, context, base)
            case Ok(middle) => ApplyEntries(rest, context, middle)
            case Raise(error) => Raise(error)
    decreases |first|
  {
    if first == [] {
      assert first + rest == rest;
    } else {
      assert (first + rest)[1..] == first[1..] + rest;
      var step := ApplyEntry(first[0], context, base);
      if step.Ok? {
        EntriesInTurn(first[1..], rest, context, step.value);
      }
    }
  }

  /** Two lookups that agree in what kind of thing they found, and in its text. */
  ghost predicate Alike(a: Option<Json>, b: Option<Json>) {
    if a.Some? && b.Some? && a.value.Obj? then b.value.Obj? else a == b
  }

  ghost predicate Comparable(p: Path, q: Path) { p <= q || q <= p }

  ghost predicate Independent(entries: seq<Entry>) {
    forall i, k :: 0 <= i < |entries| && 0 <= k < |entries| && i != k
      ==> !Comparable(Split(entries[i].dest), Split(entries[k].dest))
  }

  // ---- One write ----

  lemma BlockedBelow(fields: map<string, Json>, keys: Path)
    requires |keys| > 1
    ensures Blocked(Obj(fields), keys) <==>
              keys[0] in fields && (!fields[keys[0]].Obj? || Blocked(fields[keys[0]], keys[1..]))
  {
    var j := Obj(fields);
    if keys[0] in fields {
      var sub := fields[keys[0]];
      forall n | 0 < n < |keys| ensures Get(j, keys[..n]) == Get(sub, keys[1..][..n - 1]) {
        assert keys[..n][1..] == keys[1..][..n - 1];
      }
      if !sub.Obj? {
        assert BlockedAt(j, keys[..1]);
      }
      if Blocked(sub, keys[1..]) {
        var n :| 0 < n < |keys| - 1 && BlockedAt(sub, keys[1..][..n]);
        assert BlockedAt(j, keys[..n + 1]);
      }
      if Blocked(j, keys) {
        var n :| 0 < n < |keys| && BlockedAt(j, keys[..n]);
        assert n > 1 ==> BlockedAt(sub, keys[1..][..n - 1]);
      }
    }
  }

  lemma NothingBlocksNothing(keys: Path)
    ensures !Blocked(Obj(map[]), keys)
  {
    forall n | 0 < n < |keys| ensures !BlockedAt(Obj(map[]), keys[..n]) {
    }
  }

  lemma SameHead(keys: Path, p: Path)
    requires keys != [] && p != [] && p[0] == keys[0]
    ensures keys <= p <==> keys[1..] <= p[1..]
    ensures p < keys <==> p[1..] < keys[1..]
    ensures keys <= p ==> p[|keys|..] == p[1..][|keys| - 1..]
  {
    assert p == [keys[0]] + p[1..] && keys == [keys[0]] + keys[1..];
  }

  /** A write raises exactly when its way is blocked. Otherwise it puts the value under its destination,
      turns the way there into objects, and changes nothing else. */
  lemma {:induction false} SetNestedMeaning(fields: map<string, Json>, keys: Path, value: Json, p: Path)
    requires keys != []
    ensures SetNested(fields, keys, value).Raise? <==> Blocked(Obj(fields), keys)
    ensures SetNested(fields, keys, value).Ok? ==>
              var found := Get(Obj(SetNested(fields, keys, value).value), p);
              && (keys <= p ==> found == Get(value, p[|keys|..]))
              && (p < keys ==> found.Some? && found.value.Obj?)
              && (!Comparable(keys, p) ==> found == Get(Obj(fields), p))
    decreases |keys|
  {
    if |keys| == 1 {
      assert p != [] && p[0] == keys[0] ==> keys <= p;
      assert !Blocked(Obj(fields), keys);
    } else {
      BlockedBelow(fields, keys);
      var rest := if p == [] then [] else p[1..];
      var inner := if keys[0] in fields then fields[keys[0]] else Obj(map[]);
      NothingBlocksNothing(keys[1..]);
      if inner.Obj? {
        SetNestedMeaning(inner.fields, keys[1..], value, rest);
        if p != [] && p[0] == keys[0] {
          SameHead(keys, p);
        }
      }
    }
  }

  // ---- All writes of one transform ----

  function Dest(entries: seq<Entry>, i: nat): Path
    requires i < |entries|
  {
    Split(entries[i].dest)
  }

  /** The entry raises: its source does not parse, or its way is blocked. */
  ghost predicate Fails(e: Entry, j: Json) {
    !Parses(e.src) || Blocked(j, Split(e.dest))
  }

  ghost predicate SomeFails(entries: seq<Entry>, j: Json) {
    exists i :: 0 <= i < |entries| && Fails(entries[i], j)
  }

  /** What a simultaneous update of `base` yields at path `p`; it does not depend on the entries' order. */
  ghost predicate UpdatedAt(entries: seq<Entry>, context: map<string, Json>, base: Json, result: Json, p: Path) {
    var found := Get(result, p);
    && (forall i :: 0 <= i < |entries| && Dest(entries, i) <= p
          ==> found == Get(Search(context, Split(entries[i].src)), p[|Dest(entries, i)|..]))
    && (forall i :: 0 <= i < |entries| && p < Dest(entries, i) ==> found.Some? && found.value.Obj?)
    && ((forall i :: 0 <= i < |entries| ==> !Comparable(Dest(entries, i), p)) ==> found == Get(base, p))
  }

  lemma PrefixesCompare(a: Path, b: Path, p: Path)
    requires a <= p && b <= p
    ensures Comparable(a, b)
  {
    assert a == p[..|a|] && b == p[..|b|];
  }

  lemma BlockedElsewhere(fields: map<string, Json>, keys: Path, value: Json, other: Path)
    requires keys != [] && !Comparable(keys, other) && SetNested(fields, keys, value).Ok?
    ensures Blocked(Obj(SetNested(fields, keys, value).value), other) <==> Blocked(Obj(fields), other)
  {
    var before, after := Obj(fields), Obj(SetNested(fields, keys, value).value);
    forall n | 0 < n < |other| ensures BlockedAt(after, other[..n]) <==> BlockedAt(before, other[..n]) {
      var p := other[..n];
      SetNestedMeaning(fields, keys, value, p);
      if p < keys {
        assert keys[..n] == p;
        assert !BlockedAt(before, keys[..n]);
      } else if keys <= p {
        PrefixesCompare(keys, other, other);
        assert false;
      }
    }
  }

  lemma {:induction false} ApplyMeaning(entries: seq<Entry>, context: map<string, Json>, base: map<string, Json>,
      p: Path)
    requires Independent(entries)
    ensures var result := ApplyEntries(entries, context, base);
            && (result.Raise? <==> SomeFails(entries, Obj(base)))
            && (result.Ok? ==> UpdatedAt(entries, context, Obj(base), Obj(result.value), p))
    decreases |entries|
  {
    if entries != [] {
      var keys, value, rest := Dest(entries, 0), Search(context, Split(entries[0].src)), entries[1..];
      SetNestedMeaning(base, keys, value, p);
      var step := ApplyEntry(entries[0], context, base);
      assert step.Raise? <==> Fails(entries[0], Obj(base));
      if step.Ok? {
        RestIndependent(entries);
        ApplyMeaning(rest, context, step.value, p);
        FailsRest(entries, context, base, step.value);
        if ApplyEntries(rest, context, step.value).Ok? {
          UpdatedRest(entries, context, base, step.value, ApplyEntries(rest, context, step.value).value, p);
        }
      }
    }
  }

  lemma RestIndependent(entries: seq<Entry>)
    requires Independent(entries) && entries != []
    ensures Independent(entries[1..])
  {
    var rest := entries[1..];
    forall i, k | 0 <= i < |rest| && 0 <= k < |rest| && i != k ensures !Comparable(Dest(rest, i), Dest(rest, k)) {
      assert rest[i] == entries[i + 1] && rest[k] == entries[k + 1];
    }
  }

  lemma FailsRest(entries: seq<Entry>, context: map<string, Json>, base: map<string, Json>, middle: map<string, Json>)
    requires entries != [] && Independent(entries) && ApplyEntry(entries[0], context, base) == Ok(middle)
    requires !Fails(entries[0], Obj(base))
    ensures SomeFails(entries, Obj(base)) <==> SomeFails(entries[1..], Obj(middle))
  {
    var rest := entries[1..];
    forall i | 0 < i < |entries| ensures Fails(rest[i - 1], Obj(middle)) <==> Fails(entries[i], Obj(base)) {
      assert !Comparable(Dest(entries, 0), Dest(entries, i));
      BlockedElsewhere(base, Dest(entries, 0), Search(context, Split(entries[0].src)), Dest(entries, i));
    }
    if SomeFails(entries, Obj(base)) {
      var i :| 0 <= i < |entries| && Fails(entries[i], Obj(base));
      assert Fails(rest[i - 1], Obj(middle));
    }
    if SomeFails(rest, Obj(middle)) {
      var i :| 0 <= i < |rest| && Fails(rest[i], Obj(middle));
      assert Fails(entries[i + 1], Obj(base));
    }
  }

  /** At or below one destination there is no other, and none above it either. */
  lemma RestApart(entries: seq<Entry>, p: Path, i: nat)
    requires Independent(entries) && 0 < i < |entries|
    ensures Dest(entries, 0) <= p ==> !Comparable(Dest(entries, i), p)
    ensures p < Dest(entries, 0) ==> !(Dest(entries, i) <= p)
  {
    var keys := Dest(entries, 0);
    assert !Comparable(keys, Dest(entries, i));
    if keys <= p && Dest(entries, i) <= p {
      PrefixesCompare(keys, Dest(entries, i), p);
    }
  }

  lemma UpdatedRest(entries: seq<Entry>, context: map<string, Json>, base: map<string, Json>,
      middle: map<string, Json>, result: map<string, Json>, p: Path)
    requires entries != [] && Independent(entries)
    requires ApplyEntry(entries[0], context, base) == Ok(middle)
    requires UpdatedAt(entries[1..], context, Obj(middle), Obj(result), p)
    ensures UpdatedAt(entries, context, Obj(base), Obj(result), p)
  {
    var keys, rest, found := Dest(entries, 0), entries[1..], Get(Obj(result), p);
    SetNestedMeaning(base, keys, Search(context, Split(entries[0].src)), p);
    assert forall i :: 0 < i < |entries| ==> entries[i] == rest[i - 1];
    forall i | 0 < i < |entries| ensures Dest(entries, i) == Dest(rest, i - 1) {
      RestApart(entries, p, i);
    }
    if k :| 0 <= k < |rest| && Comparable(Dest(rest, k), p) {
      RestApart(entries, p, k + 1);
      assert Dest(entries, k + 1) == Dest(rest, k);
    } else {
      assert found == Get(Obj(middle), p);
    }
  }

  // ---- A tree is known by its lookups ----

  lemma {:induction false} SameLookupsSameTree(a: Json, b: Json)
    requires forall p :: Alike(Get(a, p), Get(b, p))
    ensures a == b
    decreases a
  {
    assert Alike(Get(a, []), Get(b, []));
    if a.Obj? {
      forall k ensures k in a.fields <==> k in b.fields {
        assert Alike(Get(a, [k]), Get(b, [k]));
        assert k in a.fields ==> Get(a, [k]) == Get(a.fields[k], []);
        assert k in b.fields ==> Get(b, [k]) == Get(b.fields[k], []);
      }
      forall k | k in a.fields ensures a.fields[k] == b.fields[k] {
        forall p ensures Alike(Get(a.fields[k], p), Get(b.fields[k], p)) {
          assert ([k] + p)[1..] == p;
          assert Alike(Get(a, [k] + p), Get(b, [k] + p));
        }
        SameLookupsSameTree(a.fields[k], b.fields[k]);
      }
    }
  }

  /** With independent destinations a transform is a simultaneous update: the order of the configuration's
      entries does not matter. */
  lemma OrderIrrelevant(entries: seq<Entry>, entries': seq<Entry>, context: map<string, Json>)
    requires Independent(entries) && Independent(entries')
    requires forall x :: x in entries <==> x in entries'
    ensures ApplyTransform(entries, context).Raise? <==> ApplyTransform(entries', context).Raise?
    ensures ApplyTransform(entries, context).Ok? ==>
              ApplyTransform(entries, context) == ApplyTransform(entries', context)
  {
    ApplyMeaning(entries, context, context, []);
    ApplyMeaning(entries', context, context, []);
    SameFails(entries, entries', Obj(context));
    SameFails(entries', entries, Obj(context));
    if ApplyTransform(entries, context).Ok? {
      var a, b := Obj(ApplyTransform(entries, context).value), Obj(ApplyTransform(entries', context).value);
      forall p ensures Alike(Get(a, p), Get(b, p)) {
        ApplyMeaning(entries, context, context, p);
        ApplyMeaning(entries', context, context, p);
        SameUpdate(entries, entries', context, a, b, p);
      }
      SameLookupsSameTree(a, b);
    }
  }

  lemma SameFails(entries: seq<Entry>, entries': seq<Entry>, j: Json)
    requires forall x :: x in entries ==> x in entries'
    ensures SomeFails(entries, j) ==> SomeFails(entries', j)
  {
    if SomeFails(entries, j) {
      var i :| 0 <= i < |entries| && Fails(entries[i], j);
      assert entries[i] in entries';
      var k :| 0 <= k < |entries'| && entries'[k] == entries[i];
      assert Fails(entries'[k], j);
    }
  }

  lemma SameUpdate(entries: seq<Entry>, entries': seq<Entry>, context: map<string, Json>, a: Json, b: Json, p: Path)
    requires forall x :: x in entries <==> x in entries'
    requires UpdatedAt(entries, context, Obj(context), a, p)
    requires UpdatedAt(entries', context, Obj(context), b, p)
    ensures Alike(Get(a, p), Get(b, p))
  {
    if i :| 0 <= i < |entries| && Comparable(Dest(entries, i), p) {
      assert entries[i] in entries';
      var k :| 0 <= k < |entries'| && entries'[k] == entries[i];
      assert Dest(entries', k) == Dest(entries, i);
    } else {
      forall k | 0 <= k < |entries'| ensures !Comparable(Dest(entries', k), p) {
        assert entries'[k] in entries;
        var i :| 0 <= i < |entries| && entries[i] == entries'[k];
        assert !Comparable(Dest(entries, i), p);
      }
    }
  }

  /** Only the first segments of destinations can become new or different top-level keys. */
  lemma {:induction false} TransformFrame(entries: seq<Entry>, context: map<string, Json>, base: map<string, Json>,
      key: string)
    requires forall i :: 0 <= i < |entries| ==> Dest(entries, i)[0] != key
    requires ApplyEntries(entries, context, base).Ok?
    ensures var result := ApplyEntries(entries, context, base).value;
            (key in result <==> key in base) && (key in base ==> result[key] == base[key])
    decreases |entries|
  {
    if entries != [] {
      var keys := Dest(entries, 0);
      var step := ApplyEntry(entries[0], context, base);
      forall i | 0 <= i < |entries[1..]| ensures Dest(entries[1..], i)[0] != key {
        assert entries[1..][i] == entries[i + 1];
        assert Dest(entries, i + 1)[0] != key;
      }
      TransformFrame(entries[1..], context, step.value, key);
      assert (key in step.value <==> key in base) && (key in base ==> step.value[key] == base[key]);
    }
  }
}
