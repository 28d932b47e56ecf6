/** The history of a link: changes by key, replayed in key order. */
module ChangeLog {
  import opened KeyOrder
  import opened LinkJson

  datatype Op = SET | UPDATE | ERASE

  /** The JSON text of a change, after parsing. */
  datatype Text = Absent | Malformed | Parsed(json: Json)
  datatype Change = Change(key: Key, op: Op, path: Path, text: Text)

  /** The document after a change; a text that does not parse leaves it alone. */
  function Apply(doc: Json, c: Change): Json {
    match c.op
    case SET => if c.text.Parsed? then Put(doc, c.path, c.text.json) else doc
    case UPDATE => if c.text.Parsed? then Update(doc, c.path, c.text.json) else doc
    case ERASE => Erase(doc, c.path)
  }

  /** What a change does, in terms of what stands where before and after. */
  ghost predicate Performs(before: Json, after: Json, c: Change) {
    match c.op
    case SET => if c.text.Parsed? then Sets(before, after, c.path, c.text.json) else after == before
    case UPDATE => if c.text.Parsed? then Updates(before, after, c.path, c.text.json) else after == before
    case ERASE => Erases(before, after, c.path)
  }

  /** `Apply` is the one function that does that. */
  lemma ApplyPerforms(doc: Json, after: Json, c: Change)
    ensures Performs(doc, after, c) <==> after == Apply(doc, c)
  {
    if c.text.Parsed? {
      SetsUnique(doc, after, c.path, c.text.json);
      UpdatesUnique(doc, after, c.path, c.text.json);
    }
    ErasesUnique(doc, after, c.path);
  }

  /** Applying the change to `doc` appends to an array. */
  predicate AppendsTo(doc: Json, c: Change) {
    c.op != ERASE && c.text.Parsed? && Appends(doc, c.path)
  }

  /** A change that no document makes append: it has no append token, erases, or does not parse. */
  predicate Repeatable(c: Change) {
    c.op == ERASE || !c.text.Parsed? || APPEND !in c.path
  }

  /** Applying a change a second time changes nothing exactly when it does not append. */
  lemma ApplyTwice(doc: Json, c: Change)
    ensures Apply(Apply(doc, c), c) == Apply(doc, c) <==> !AppendsTo(doc, c)
  {
    if c.text.Parsed? {
      SetTwice(doc, c.path, c.text.json);
      UpdateTwice(doc, c.path, c.text.json);
    }
    EraseTwice(doc, c.path);
  }

  lemma RepeatableNeverAppends(doc: Json, c: Change)
    requires Repeatable(c)
    ensures !AppendsTo(doc, c)
  {
    if APPEND !in c.path { NoTokenNoAppend(doc, c.path); }
  }

  /** Changes in strictly ascending key order. */
  ghost predicate Sorted(log: seq<Change>) {
    AscendingBy(log, (c: Change) => c.key)
  }

  function Fold(log: seq<Change>): Json {
    if log == [] then Null else Apply(Fold(log[..|log| - 1]), log[|log| - 1])
  }

  /** A set of changes, by key. */
  type ChangeSet = map<Key, Change>

  ghost predicate Keyed(m: ChangeSet) {
    forall k :: k in m ==> m[k].key == k
  }

  function ToSet(log: seq<Change>): ChangeSet {
    if log == [] then map[] else ToSet(log[..|log| - 1])[log[|log| - 1].key := log[|log| - 1]]
  }

  ghost predicate IsMax(m: ChangeSet, k: Key) {
    k in m && forall j :: j in m ==> j == k || Less(j, k)
  }

  lemma {:induction false} MaxExists(m: ChangeSet)
    requires m != map[]
    ensures exists k :: IsMax(m, k)
    decreases |m|
  {
    StrictTotalOrder();
    var k :| k in m;
    var rest := m - {k};
    if rest == map[] {
      assert m.Keys == {k} by {
        forall j | j in m ensures j == k { assert j == k || j in rest; }
      }
      assert IsMax(m, k);
    } else {
      MaxExists(rest);
      var j :| IsMax(rest, j);
      assert IsMax(m, if Less(k, j) then j else k) by {
        forall i | i in m ensures i == k || i in rest { }
      }
    }
  }

  ghost function Max(m: ChangeSet): (k: Key)
    requires m != map[]
    ensures IsMax(m, k)
  {
    MaxExists(m);
    var k :| IsMax(m, k);
    k
  }

  /** The greatest key of a set of changes, the empty string if there is none. */
  ghost function Latest(m: ChangeSet): Key {
    if m == map[] then "" else Max(m)
  }

  lemma MaxUnique(m: ChangeSet, k: Key)
    requires IsMax(m, k)
    ensures Max(m) == k
  {
    StrictTotalOrder();
  }

  /** The changes of a set in ascending key order. */
  ghost function SortedLog(m: ChangeSet): seq<Change>
    decreases |m|
  {
    if m == map[] then [] else SortedLog(m - {Max(m)}) + [m[Max(m)]]
  }

  /** The value of a set of changes: replayed from the empty document in key order. */
  ghost function Meaning(m: ChangeSet): Json {
    Fold(SortedLog(m))
  }

  lemma {:induction false} ToSetDomain(log: seq<Change>)
    requires Sorted(log)
    ensures Keyed(ToSet(log))
    ensures forall c :: c in log ==> c.key in ToSet(log) && ToSet(log)[c.key] == c
    ensures forall k :: k in ToSet(log) ==> ToSet(log)[k] in log
  {
    if log != [] {
      var n := |log| - 1;
      ToSetDomain(log[..n]);
      StrictTotalOrder();
      forall c | c in log ensures c.key in ToSet(log) && ToSet(log)[c.key] == c {
        var i :| 0 <= i < |log| && log[i] == c;
        if i < n { assert c == log[..n][i]; assert Less(c.key, log[n].key); }
      }
    }
  }

  lemma LastIsMax(log: seq<Change>)
    requires Sorted(log) && log != []
    ensures ToSet(log) != map[] && Max(ToSet(log)) == log[|log| - 1].key
  {
    var m, k := ToSet(log), log[|log| - 1].key;
    ToSetDomain(log);
    forall j | j in m ensures j == k || Less(j, k) {
      var i :| 0 <= i < |log| && log[i] == m[j];
    }
    MaxUnique(m, k);
  }

  lemma LastIsNew(log: seq<Change>)
    requires Sorted(log) && log != []
    ensures ToSet(log) - {log[|log| - 1].key} == ToSet(log[..|log| - 1])
  {
    var n := |log| - 1;
    var init := ToSet(log[..n]);
    ToSetDomain(log[..n]);
    if log[n].key in init {
      var i :| 0 <= i < n && log[..n][i] == init[log[n].key];
      Irreflexive(log[n].key);
      assert false;
    }
  }

  /** A sorted list of changes is the sorted log of its set: the order leaves no choice. */
  lemma {:induction false} SortedUnique(log: seq<Change>)
    requires Sorted(log)
    ensures SortedLog(ToSet(log)) == log
  {
    if log != [] {
      var n := |log| - 1;
      LastIsMax(log);
      LastIsNew(log);
      ToSetDomain(log);
      SortedUnique(log[..n]);
      assert log == log[..n] + [log[n]];
      assert log[n] in log;
      var m := ToSet(log);
      hide ToSet, Sorted;
      assert SortedLog(m) == SortedLog(m - {Max(m)}) + [m[Max(m)]];
    }
  }

  /** Appending a change that comes after all others. */
  lemma AppendNewest(log: seq<Change>, c: Change)
    requires Sorted(log) && forall d :: d in log ==> Less(d.key, c.key)
    ensures Sorted(log + [c]) && ToSet(log + [c]) == ToSet(log)[c.key := c]
    ensures c.key !in ToSet(log)
  {
    assert (log + [c])[..|log|] == log;
    ToSetDomain(log);
    if c.key in ToSet(log) {
      Irreflexive(c.key);
      assert false;
    }
  }

  lemma LogExtends(log: seq<Change>, m: ChangeSet, c: Change)
    requires Sorted(log) && ToSet(log) == m && forall k :: k in m ==> Less(k, c.key)
    ensures Sorted(log + [c]) && ToSet(log + [c]) == m[c.key := c]
  {
    ToSetDomain(log);
    forall d | d in log ensures Less(d.key, c.key) {
      assert d.key in m;
    }
    AppendNewest(log, c);
  }

  /** Sorting a set of changes gives a sorted list of just those changes. */
  lemma {:induction false} SortedLogSorts(m: ChangeSet)
    requires Keyed(m)
    ensures Sorted(SortedLog(m)) && ToSet(SortedLog(m)) == m
    decreases |m|
  {
    if m != map[] {
      var k := Max(m);
      var rest := m - {k};
      SortedLogSorts(rest);
      assert SortedLog(m) == SortedLog(rest) + [m[k]];
      LogExtends(SortedLog(rest), rest, m[k]);
      assert rest[k := m[k]] == m;
    }
  }

  lemma SortedLogHas(m: ChangeSet, c: Change)
    requires Keyed(m)
    ensures c in SortedLog(m) <==> c.key in m && m[c.key] == c
  {
    SortedLogSorts(m);
    ToSetDomain(SortedLog(m));
    hide SortedLog, ToSet;
  }

  lemma SortedLogLast(m: ChangeSet)
    requires Keyed(m)
    ensures SortedLog(m) == [] <==> m == map[]
    ensures m != map[] ==> SortedLog(m)[|SortedLog(m)| - 1].key == Max(m)
  {
    assert m != map[] ==> m[Max(m)].key == Max(m);
  }

  /** A change newer than all others goes to the end of the log. */
  lemma Extend(m: ChangeSet, c: Change)
    requires Keyed(m)
    requires forall k :: k in m ==> Less(k, c.key)
    ensures SortedLog(m[c.key := c]) == SortedLog(m) + [c]
    ensures Meaning(m[c.key := c]) == Apply(Meaning(m), c)
    ensures Latest(m[c.key := c]) == c.key
  {
    var log := SortedLog(m);
    SortedLogSorts(m);
    LogExtends(log, m, c);
    SortedUnique(log + [c]);
    LastIsMax(log + [c]);
    assert (log + [c])[..|log|] == log;
  }

  /** The last change of a nonempty set is the outermost application. */
  lemma MeaningByLast(m: ChangeSet)
    requires m != map[]
    ensures Meaning(m) == Apply(Meaning(m - {Max(m)}), m[Max(m)])
  {
    var log := SortedLog(m);
    assert log[..|log| - 1] == SortedLog(m - {Max(m)});
  }

  /** Re-applying the latest change keeps the document exactly when that change does not append to
      the document of the changes before it. */
  lemma ReapplyLatest(m: ChangeSet)
    requires m != map[]
    ensures Apply(Meaning(m), m[Max(m)]) == Meaning(m)
       <==> !AppendsTo(Meaning(m - {Max(m)}), m[Max(m)])
  {
    MeaningByLast(m);
    ApplyTwice(Meaning(m - {Max(m)}), m[Max(m)]);
  }
}
