/** JSON values and the three edits a link change can make to them.

    Change paths are lists of names. The code builds its pointers from names only, so a name that
    looks like a number is still an object member; the one token with another meaning is "-",
    which appends to an array (section 4 of RFC 6901). */
module LinkJson {
  datatype Json =
    | Null
    | Bool(flag: bool)
    | Number(value: real)
    | Str(text: string)
    | Arr(elems: seq<Json>)
    | Obj(members: map<string, Json>)

  type Path = seq<string>

  const APPEND: string := "-"

  predicate AppendsHere(doc: Json, token: string) {
    doc.Arr? && token == APPEND
  }

  /** The member a token leads to; Null where none exists yet. */
  function Child(doc: Json, token: string): Json {
    if doc.Obj? && token in doc.members then doc.members[token] else Null
  }

  /** `doc` with `value` at `path`: missing members are created and anything in the way that is
      not an object is replaced by one. */
  function Put(doc: Json, path: Path, value: Json): Json
    decreases |path|
  {
    if path == [] then value
    else if AppendsHere(doc, path[0]) then Arr(doc.elems + [Put(Null, path[1..], value)])
    else
      var members := if doc.Obj? then doc.members else map[];
      Obj(members[path[0] := Put(Child(doc, path[0]), path[1..], value)])
  }

  /** What stands at `path` once it has been created. */
  function Current(doc: Json, path: Path): Json
    decreases |path|
  {
    if path == [] then doc
    else if AppendsHere(doc, path[0]) then Current(Null, path[1..])
    else Current(Child(doc, path[0]), path[1..])
  }

  /** One level deep, the source's members winning. A target that is no object is replaced. */
  function Merge(target: Json, source: Json): Json {
    if !source.Obj? then target
    else if !target.Obj? then source
    else Obj(target.members + source.members)
  }

  function Update(doc: Json, path: Path, source: Json): Json {
    Put(doc, path, Merge(Current(doc, path), source))
  }

  predicate Erasable(doc: Json, path: Path) {
    path != [] && doc.Obj? && path[0] in doc.members &&
    (|path| == 1 || Erasable(doc.members[path[0]], path[1..]))
  }

  function Erase(doc: Json, path: Path): Json {
    if !Erasable(doc, path) then doc
    else if |path| == 1 then Obj(doc.members - {path[0]})
    else Obj(doc.members[path[0] := Erase(doc.members[path[0]], path[1..])])
  }

  /** Following `path` from `doc` meets an array at an append token. */
  predicate Appends(doc: Json, path: Path)
    decreases |path|
  {
    path != [] && (AppendsHere(doc, path[0]) || Appends(Child(doc, path[0]), path[1..]))
  }

  lemma {:induction false} CurrentOfPut(doc: Json, path: Path, value: Json)
    requires !Appends(doc, path)
    ensures Current(Put(doc, path, value), path) == value
    decreases |path|
  {
    if path != [] {
      CurrentOfPut(Child(doc, path[0]), path[1..], value);
      assert Child(Put(doc, path, value), path[0]) == Put(Child(doc, path[0]), path[1..], value);
    }
  }

  lemma {:induction false} PutOfPut(doc: Json, path: Path, value: Json, next: Json)
    requires !Appends(doc, path)
    ensures Put(Put(doc, path, value), path, next) == Put(doc, path, next)
    decreases |path|
  {
    if path != [] {
      PutOfPut(Child(doc, path[0]), path[1..], value, next);
      assert Child(Put(doc, path, value), path[0]) == Put(Child(doc, path[0]), path[1..], value);
    }
  }

  /** Neither path leads through the other's end. */
  predicate Apart(p: Path, q: Path) {
    p != [] && q != [] && (p[0] != q[0] || Apart(p[1..], q[1..]))
  }

  /** Putting a value leaves what stands at all other places. */
  lemma {:induction false} PutElsewhere(doc: Json, path: Path, value: Json, other: Path)
    requires Apart(path, other) && !Appends(doc, path) && !Appends(doc, other)
    ensures Current(Put(doc, path, value), other) == Current(doc, other)
    decreases |path|
  {
    var after := Put(doc, path, value);
    if path[0] == other[0] {
      PutElsewhere(Child(doc, path[0]), path[1..], value, other[1..]);
      assert Child(after, path[0]) == Put(Child(doc, path[0]), path[1..], value);
    } else {
      assert Child(after, other[0]) == Child(doc, other[0]);
    }
  }

  // ---------------------------------------------------------------- what the edits mean

  /** The names of the path lead from `doc` through objects to `v`. */
  predicate StandsAt(doc: Json, path: Path, v: Json)
    decreases |path|
  {
    if path == [] then doc == v
    else doc.Obj? && path[0] in doc.members && StandsAt(doc.members[path[0]], path[1..], v)
  }

  ghost predicate Missing(doc: Json, path: Path) {
    forall v :: !StandsAt(doc, path, v)
  }

  /** Every place apart from the path holds what it held and is missing where it was missing. */
  ghost predicate SameElsewhere(before: Json, after: Json, path: Path) {
    forall other, v :: Apart(path, other) ==> (StandsAt(after, other, v) <==> StandsAt(before, other, v))
  }

  /** The path leads to an array at its n-th name, and that name appends. */
  predicate AppendsAt(doc: Json, path: Path, n: nat, elems: seq<Json>) {
    n < |path| && path[n] == APPEND && StandsAt(doc, path[..n], Arr(elems))
  }

  /** An edit that brings `value` to `path` and touches nothing else. */
  ghost predicate Places(before: Json, after: Json, path: Path, value: Json) {
    StandsAt(after, path, value) && SameElsewhere(before, after, path)
  }

  /** A set: the value is placed at the path, or where the path appends it is placed inside one new element
      at the end of the array. */
  ghost predicate Sets(before: Json, after: Json, path: Path, value: Json) {
    && ((forall n: nat, elems :: !AppendsAt(before, path, n, elems)) ==> Places(before, after, path, value))
    && forall n: nat, elems :: AppendsAt(before, path, n, elems) ==>
         exists e :: Places(Null, e, path[n + 1..], value) && Places(before, after, path[..n], Arr(elems + [e]))
  }

  /** What an update leaves: the source's members where it has them and the target's elsewhere. A source that is
      no object changes nothing, and a target that is none is replaced. */
  predicate Combines(result: Json, target: Json, source: Json) {
    if !source.Obj? then result == target
    else if !target.Obj? then result == source
    else
      && result.Obj? && result.members.Keys == target.members.Keys + source.members.Keys
      && forall name :: name in result.members ==>
           result.members[name] == if name in source.members then source.members[name] else target.members[name]
  }

  /** An update: what stands at the path, or null where nothing does, is combined with the source. */
  ghost predicate Updates(before: Json, after: Json, path: Path, source: Json) {
    exists target, v ::
      && (StandsAt(before, path, target) || (target == Null && Missing(before, path)))
      && Combines(v, target, source) && Sets(before, after, path, v)
  }

  /** An erasure: the last name is missing from the object the others lead to, and nothing else is. */
  ghost predicate Erases(before: Json, after: Json, path: Path) {
    if path == [] || Missing(before, path) then after == before
    else
      && Missing(after, path) && SameElsewhere(before, after, path)
      && exists parent :: StandsAt(after, path[..|path| - 1], parent) && parent.Obj?
  }

  lemma {:induction false} StandsUnique(doc: Json, path: Path, v: Json, w: Json)
    requires StandsAt(doc, path, v) && StandsAt(doc, path, w)
    ensures v == w
    decreases |path|
  {
    if path != [] { StandsUnique(doc.members[path[0]], path[1..], v, w); }
  }

  lemma MissingStep(doc: Json, path: Path)
    requires path != []
    ensures Missing(doc, path) <==>
      !(doc.Obj? && path[0] in doc.members) || Missing(doc.members[path[0]], path[1..])
  {
    if doc.Obj? && path[0] in doc.members {
      forall v ensures StandsAt(doc, path, v) <==> StandsAt(doc.members[path[0]], path[1..], v) { }
    }
  }

  lemma {:induction false} CurrentOfNull(path: Path)
    ensures Current(Null, path) == Null && !Appends(Null, path)
    decreases |path|
  {
    if path != [] { CurrentOfNull(path[1..]); }
  }

  /** What `Current` finds is what stands there, or null where nothing does. */
  lemma {:induction false} CurrentStands(doc: Json, path: Path)
    ensures StandsAt(doc, path, Current(doc, path)) || (Current(doc, path) == Null && Missing(doc, path))
    decreases |path|
  {
    if path != [] {
      MissingStep(doc, path);
      if doc.Obj? && path[0] in doc.members {
        CurrentStands(doc.members[path[0]], path[1..]);
      } else {
        CurrentOfNull(path[1..]);
      }
    }
  }

  /** What can be erased is what stands below some object. */
  lemma {:induction false} ErasableStands(doc: Json, path: Path)
    ensures Erasable(doc, path) <==> path != [] && !Missing(doc, path)
    decreases |path|
  {
    if path != [] {
      MissingStep(doc, path);
      if doc.Obj? && path[0] in doc.members {
        if |path| == 1 {
          assert StandsAt(doc.members[path[0]], path[1..], doc.members[path[0]]);
        } else {
          ErasableStands(doc.members[path[0]], path[1..]);
        }
      }
    }
  }

  lemma StandsFrom(doc: Json, path: Path, v: Json)
    requires path != []
    ensures StandsAt(doc, path, v) <==>
      doc.Obj? && path[0] in doc.members && StandsAt(doc.members[path[0]], path[1..], v)
  {
  }

  /** Putting a value, even one that appends, leaves what stands apart from the path. */
  lemma {:induction false} PutKeeps(doc: Json, path: Path, value: Json, other: Path, v: Json)
    requires Apart(path, other)
    ensures StandsAt(Put(doc, path, value), other, v) <==> StandsAt(doc, other, v)
    decreases |path|
  {
    var after := Put(doc, path, value);
    StandsFrom(doc, other, v);
    StandsFrom(after, other, v);
    assert after.Obj? ==> after.members == (if doc.Obj? then doc.members else map[])[path[0] := after.members[path[0]]];
    if !AppendsHere(doc, path[0]) && path[0] == other[0] {
      PutKeeps(Child(doc, path[0]), path[1..], value, other[1..], v);
      assert after.members[path[0]] == Put(Child(doc, path[0]), path[1..], value);
      StandsFrom(Null, other[1..], v);
    }
    hide Put, StandsAt;
  }

  lemma {:induction false} PutPlaces(doc: Json, path: Path, value: Json)
    requires !Appends(doc, path)
    ensures Places(doc, Put(doc, path, value), path, value)
    decreases |path|
  {
    forall other, v | Apart(path, other)
      ensures StandsAt(Put(doc, path, value), other, v) <==> StandsAt(doc, other, v)
    {
      PutKeeps(doc, path, value, other, v);
    }
    if path != [] { PutPlaces(Child(doc, path[0]), path[1..], value); }
  }

  /** Where a path appends, it puts a grown array at the prefix that leads to the array. */
  lemma {:induction false} AppendsAtPrefix(doc: Json, path: Path, n: nat, elems: seq<Json>, value: Json)
    requires AppendsAt(doc, path, n, elems)
    ensures Appends(doc, path) && !Appends(doc, path[..n])
    ensures Put(doc, path, value) == Put(doc, path[..n], Arr(elems + [Put(Null, path[n + 1..], value)]))
    decreases |path|
  {
    if n > 0 {
      assert path[..n][1..] == path[1..][..n - 1] && path[1..][n..] == path[n + 1..];
      AppendsAtPrefix(doc.members[path[0]], path[1..], n - 1, elems, value);
    }
  }

  lemma {:induction false} AppendsFound(doc: Json, path: Path) returns (n: nat, elems: seq<Json>)
    requires Appends(doc, path)
    ensures AppendsAt(doc, path, n, elems)
    decreases |path|
  {
    if AppendsHere(doc, path[0]) {
      return 0, doc.elems;
    }
    if !(doc.Obj? && path[0] in doc.members) {
      CurrentOfNull(path[1..]);
    }
    n, elems := AppendsFound(Child(doc, path[0]), path[1..]);
    n := n + 1;
    assert path[..n][1..] == path[1..][..n - 1];
  }

  lemma PutSets(doc: Json, path: Path, value: Json)
    ensures Sets(doc, Put(doc, path, value), path, value)
  {
    var after := Put(doc, path, value);
    if !Appends(doc, path) { PutPlaces(doc, path, value); }
    forall n: nat, elems | AppendsAt(doc, path, n, elems)
      ensures exists e ::
        Places(Null, e, path[n + 1..], value) && Places(doc, after, path[..n], Arr(elems + [e]))
    {
      var e := Put(Null, path[n + 1..], value);
      AppendsAtPrefix(doc, path, n, elems, value);
      CurrentOfNull(path[n + 1..]);
      PutPlaces(Null, path[n + 1..], value);
      PutPlaces(doc, path[..n], Arr(elems + [e]));
    }
    if Appends(doc, path) { var n, elems := AppendsFound(doc, path); }
  }

  lemma StandsBelow(doc: Json, name: string)
    ensures doc.Obj? && name in doc.members ==> StandsAt(doc, [name], doc.members[name])
    ensures !(doc.Obj? && name in doc.members) ==> Missing(doc, [name])
  {
    if doc.Obj? && name in doc.members { assert StandsAt(doc.members[name], [name][1..], doc.members[name]); }
  }

  lemma SameMember(before: Json, after: Json, path: Path, name: string)
    requires path != [] && name != path[0] && SameElsewhere(before, after, path) && after.Obj?
    ensures name in after.members <==> before.Obj? && name in before.members
    ensures name in after.members ==> after.members[name] == before.members[name]
  {
    StandsBelow(before, name);
    StandsBelow(after, name);
    assert Apart(path, [name]);
    if name in after.members {
      assert StandsAt(before, [name], after.members[name]);
      StandsUnique(before, [name], before.members[name], after.members[name]);
    }
    if before.Obj? && name in before.members {
      assert StandsAt(after, [name], before.members[name]);
    }
  }

  /** Placing a value leaves no choice of a document. */
  lemma {:induction false} PlacesUnique(doc: Json, after: Json, path: Path, value: Json)
    requires !Appends(doc, path) && Places(doc, after, path, value)
    ensures after == Put(doc, path, value)
    decreases |path|
  {
    if path != [] {
      var name := path[0];
      var child, grown := Child(doc, name), after.members[name];
      forall other, v | Apart(path[1..], other)
        ensures StandsAt(grown, other, v) <==> StandsAt(child, other, v)
      {
        var longer := [name] + other;
        assert longer[1..] == other && Apart(path, longer);
        assert StandsAt(after, longer, v) <==> StandsAt(doc, longer, v);
      }
      PlacesUnique(child, grown, path[1..], value);
      var members := if doc.Obj? then doc.members else map[];
      forall n: string | n != name
        ensures n in after.members <==> n in members
        ensures n in members ==> after.members[n] == members[n]
      {
        SameMember(doc, after, path, n);
      }
      assert after.members == members[name := grown];
    }
  }

  /** `Put` is the one set in the sense above. */
  lemma SetsUnique(doc: Json, after: Json, path: Path, value: Json)
    ensures Sets(doc, after, path, value) <==> after == Put(doc, path, value)
  {
    PutSets(doc, path, value);
    if Sets(doc, after, path, value) {
      if Appends(doc, path) {
        var n, elems := AppendsFound(doc, path);
        var e :| Places(Null, e, path[n + 1..], value) && Places(doc, after, path[..n], Arr(elems + [e]));
        AppendsAtPrefix(doc, path, n, elems, value);
        CurrentOfNull(path[n + 1..]);
        PlacesUnique(Null, e, path[n + 1..], value);
        PlacesUnique(doc, after, path[..n], Arr(elems + [e]));
      } else {
        forall n: nat, elems ensures !AppendsAt(doc, path, n, elems) {
          if AppendsAt(doc, path, n, elems) { AppendsAtPrefix(doc, path, n, elems, value); }
        }
        PlacesUnique(doc, after, path, value);
      }
    }
  }

  lemma CombinesUnique(result: Json, target: Json, source: Json)
    ensures Combines(result, target, source) <==> result == Merge(target, source)
  {
    if Combines(result, target, source) && source.Obj? && target.Obj? {
      assert result.members == target.members + source.members;
    }
  }

  /** `Update` is the one update in the sense above. */
  lemma UpdatesUnique(doc: Json, after: Json, path: Path, source: Json)
    ensures Updates(doc, after, path, source) <==> after == Update(doc, path, source)
  {
    var current := Current(doc, path);
    var v := Merge(current, source);
    CurrentStands(doc, path);
    CombinesUnique(v, current, source);
    PutSets(doc, path, v);
    if Updates(doc, after, path, source) {
      var target, w :|
        && (StandsAt(doc, path, target) || (target == Null && Missing(doc, path)))
        && Combines(w, target, source) && Sets(doc, after, path, w);
      if StandsAt(doc, path, target) && StandsAt(doc, path, current) { StandsUnique(doc, path, target, current); }
      CombinesUnique(w, current, source);
      SetsUnique(doc, after, path, w);
    }
  }

  /** Erasing takes away exactly the member at the path, where there is one. */
  lemma {:induction false} EraseRemoves(doc: Json, path: Path)
    ensures !Erasable(Erase(doc, path), path)
    ensures Erase(doc, path) == doc <==> !Erasable(doc, path)
    decreases |path|
  {
    if Erasable(doc, path) {
      if |path| == 1 {
        assert path[0] !in Erase(doc, path).members;
      } else {
        EraseRemoves(doc.members[path[0]], path[1..]);
        assert Erase(doc, path).members[path[0]] == Erase(doc.members[path[0]], path[1..]);
      }
    }
  }

  lemma {:induction false} EraseElsewhere(doc: Json, path: Path, other: Path)
    requires Apart(path, other) && !Appends(doc, other)
    ensures Current(Erase(doc, path), other) == Current(doc, other)
    decreases |path|
  {
    if Erasable(doc, path) {
      var after := Erase(doc, path);
      if path[0] == other[0] {
        EraseElsewhere(doc.members[path[0]], path[1..], other[1..]);
        assert |path| > 1 && Child(after, path[0]) == Erase(doc.members[path[0]], path[1..]);
      } else {
        assert Child(after, other[0]) == Child(doc, other[0]);
      }
    }
  }

  lemma {:induction false} EraseKeeps(doc: Json, path: Path, other: Path, v: Json)
    requires Apart(path, other)
    ensures StandsAt(Erase(doc, path), other, v) <==> StandsAt(doc, other, v)
    decreases |path|
  {
    if Erasable(doc, path) && |path| > 1 && path[0] == other[0] {
      EraseKeeps(doc.members[path[0]], path[1..], other[1..], v);
    }
  }

  /** The object that loses a member is still there. */
  lemma {:induction false} ErasedParent(doc: Json, path: Path) returns (parent: Json)
    requires Erasable(doc, path)
    ensures parent.Obj? && StandsAt(Erase(doc, path), path[..|path| - 1], parent)
    decreases |path|
  {
    if |path| == 1 {
      parent := Erase(doc, path);
    } else {
      parent := ErasedParent(doc.members[path[0]], path[1..]);
      assert path[..|path| - 1][1..] == path[1..][..|path| - 2];
    }
  }

  lemma EraseErases(doc: Json, path: Path)
    ensures Erases(doc, Erase(doc, path), path)
  {
    var after := Erase(doc, path);
    ErasableStands(doc, path);
    if Erasable(doc, path) {
      EraseRemoves(doc, path);
      ErasableStands(after, path);
      forall other, v | Apart(path, other) ensures StandsAt(after, other, v) <==> StandsAt(doc, other, v) {
        EraseKeeps(doc, path, other, v);
      }
      var parent := ErasedParent(doc, path);
    }
  }

  lemma {:induction false} ErasedUnique(doc: Json, after: Json, path: Path, parent: Json)
    requires Erasable(doc, path) && Missing(after, path) && SameElsewhere(doc, after, path)
    requires StandsAt(after, path[..|path| - 1], parent) && parent.Obj?
    ensures after == Erase(doc, path)
    decreases |path|
  {
    var name := path[0];
    assert after.Obj?;
    forall n: string | n != name
      ensures n in after.members <==> n in doc.members
      ensures n in doc.members ==> after.members[n] == doc.members[n]
    {
      SameMember(doc, after, path, n);
    }
    MissingStep(after, path);
    if |path| == 1 {
      assert path == [name];
      StandsBelow(after, name);
      assert after.members == doc.members - {name};
    } else {
      var child, cut := doc.members[name], after.members[name];
      assert path[..|path| - 1][1..] == path[1..][..|path| - 2];
      forall other, v | Apart(path[1..], other) ensures StandsAt(cut, other, v) <==> StandsAt(child, other, v) {
        var longer := [name] + other;
        assert longer[1..] == other && Apart(path, longer);
        assert StandsAt(after, longer, v) <==> StandsAt(doc, longer, v);
      }
      ErasedUnique(child, cut, path[1..], parent);
      assert after.members == doc.members[name := cut];
    }
  }

  /** `Erase` is the one erasure in the sense above. */
  lemma ErasesUnique(doc: Json, after: Json, path: Path)
    ensures Erases(doc, after, path) <==> after == Erase(doc, path)
  {
    EraseErases(doc, path);
    ErasableStands(doc, path);
    if Erases(doc, after, path) && Erasable(doc, path) {
      var parent :| StandsAt(after, path[..|path| - 1], parent) && parent.Obj?;
      ErasedUnique(doc, after, path, parent);
    }
  }

  /** A path that appends does so again, whatever the values. */
  lemma {:induction false} PutGrows(doc: Json, path: Path, value: Json, next: Json)
    requires Appends(doc, path)
    ensures Put(Put(doc, path, value), path, next) != Put(doc, path, value)
    decreases |path|
  {
    var once := Put(doc, path, value);
    if AppendsHere(doc, path[0]) {
      assert |Put(once, path, next).elems| == |once.elems| + 1;
    } else {
      PutGrows(Child(doc, path[0]), path[1..], value, next);
      assert Child(once, path[0]) == Put(Child(doc, path[0]), path[1..], value);
      assert Child(Put(once, path, next), path[0]) == Put(Child(once, path[0]), path[1..], next);
    }
  }

  lemma EraseTwice(doc: Json, path: Path)
    ensures Erase(Erase(doc, path), path) == Erase(doc, path)
  {
    EraseRemoves(doc, path);
    EraseRemoves(Erase(doc, path), path);
  }

  /** Setting the same value again changes nothing exactly when the path does not append. */
  lemma SetTwice(doc: Json, path: Path, value: Json)
    ensures Put(Put(doc, path, value), path, value) == Put(doc, path, value) <==> !Appends(doc, path)
  {
    if Appends(doc, path) { PutGrows(doc, path, value, value); } else { PutOfPut(doc, path, value, value); }
  }

  /** The same for updates, including those whose source is not an object. */
  lemma UpdateTwice(doc: Json, path: Path, source: Json)
    ensures Update(Update(doc, path, source), path, source) == Update(doc, path, source) <==> !Appends(doc, path)
  {
    var merged := Merge(Current(doc, path), source);
    var once := Put(doc, path, merged);
    var again := Merge(Current(once, path), source);
    if Appends(doc, path) {
      PutGrows(doc, path, merged, again);
    } else {
      CurrentOfPut(doc, path, merged);
      assert again == merged by {
        if source.Obj? && merged.Obj? {
          assert merged.members + source.members == merged.members;
        }
      }
      PutOfPut(doc, path, merged, merged);
    }
  }

  lemma {:induction false} NoTokenNoAppend(doc: Json, path: Path)
    requires APPEND !in path
    ensures !Appends(doc, path)
    decreases |path|
  {
    if path != [] { NoTokenNoAppend(Child(doc, path[0]), path[1..]); }
  }

  /** Some source member outside `left` is missing from the target or different there. */
  ghost predicate Differs(target: map<string, Json>, source: map<string, Json>, left: set<string>) {
    exists name :: name in source && name !in left && (name !in target || target[name] != source[name])
  }

  lemma TakeOne(target: map<string, Json>, source: map<string, Json>, left: set<string>, name: string)
    requires name in left && left <= source.Keys
    ensures target + (source - (left - {name})) == (target + (source - left))[name := source[name]]
    ensures Differs(target, source, left - {name})
       <==> Differs(target, source, left) || name !in target || target[name] != source[name]
  {
    if name !in target || target[name] != source[name] {
      assert Differs(target, source, left - {name});
    }
    if Differs(target, source, left) {
      var n :| n in source && n !in left && (n !in target || target[n] != source[n]);
      assert n !in left - {name};
    }
  }

  lemma TookAll(target: map<string, Json>, source: map<string, Json>)
    ensures Differs(target, source, {}) <==> target + source != target
  {
    if Differs(target, source, {}) {
      var n :| n in source && (n !in target || target[n] != source[n]);
      assert (target + source)[n] == source[n];
    }
  }

  /** MergeObject: copies the source's members over one at a time and says whether that changed
      the target. */
  method MergeObject(target: Json, source: Json) returns (result: Json, diff: bool)
    ensures result == Merge(target, source) && Combines(result, target, source)
    ensures diff <==> result != target
  {
    if !source.Obj? {
      return target, false;
    }
    if !target.Obj? {
      return source, true;
    }
    diff := false;
    var members := target.members;
    var left := source.members.Keys;
    while left != {}
      invariant left <= source.members.Keys
      invariant members == target.members + (source.members - left)
      invariant diff <==> Differs(target.members, source.members, left)
      decreases left
    {
      var name :| name in left;
      TakeOne(target.members, source.members, left, name);
      if name !in members || source.members[name] != members[name] {
        members := members[name := source.members[name]];
        diff := true;
      } else {
        assert members == members[name := source.members[name]];
      }
      left := left - {name};
    }
    TookAll(target.members, source.members);
    assert source.members - left == source.members;
    result := Obj(members);
  }
}
