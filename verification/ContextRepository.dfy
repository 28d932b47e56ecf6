/** The store of context values: each value's metadata flattened with that of its ancestors, an index
    over the flattened metadata, and subscriptions to queries. */
module ContextRepositories {
  import opened ContextGraphs
  import opened ContextIndexes
  import opened Options

  const UINT32: nat := 0x1_0000_0000

  datatype ContextValue = ContextValue(t: ValueType, content: Option<string>, meta: Metadata)
  datatype Stored = Stored(value: ContextValue, merged: Metadata, version: nat)

  type Values = map<Id, Stored>

  datatype Selector = Selector(t: ValueType, meta: Metadata)

  type Query = map<string, Selector>

  /** What a listener is sent: the matching values under each selector's name. */
  type ContextUpdate = map<string, map<Id, ContextValue>>

  /** `updates` are the calls the listener has received. */
  datatype Subscription = Subscription(query: Query, lastUpdate: set<(Id, nat)>, updates: seq<ContextUpdate>)

  type SubscriptionId = nat

  // ---------------------------------------------------------------- flattened metadata

  const NO_METADATA: Metadata := Metadata(None, None, None, None)

  /** `to` with the fields it lacks taken from `from`; a field both have keeps its value. */
  function MergeMetadata(from: Metadata, to: Metadata): Metadata {
    Metadata(if to.story.Some? then to.story else from.story,
             if to.mod.Some? then to.mod else from.mod,
             if to.link.Some? then to.link else from.link,
             if to.entity.Some? then to.entity else from.entity)
  }

  function MetaOf(values: Values, id: Id): Metadata {
    if id in values then values[id].value.meta else NO_METADATA
  }

  function MergeAlong(values: Values, ids: seq<Id>): Metadata {
    if ids == [] then NO_METADATA
    else MergeMetadata(MetaOf(values, ids[|ids| - 1]), MergeAlong(values, ids[..|ids| - 1]))
  }

  /** The metadata of a value computed from scratch: merged from the root of its scope down to itself. */
  ghost function Flattened(values: Values, parents: Links, id: Id): Metadata
    requires Forest(parents)
  {
    MergeAlong(values, Chain(parents, id) + [id])
  }

  /** `r` is what the first of `ids` to have the field says, or nothing if none has it. */
  ghost predicate FromFirst<T(!new)>(values: Values, ids: seq<Id>, field: Metadata -> Option<T>, r: Option<T>) {
    if r.None? then forall i :: 0 <= i < |ids| ==> field(MetaOf(values, ids[i])).None?
    else exists i :: 0 <= i < |ids| && field(MetaOf(values, ids[i])) == r
                     && forall j :: 0 <= j < i ==> field(MetaOf(values, ids[j])).None?
  }

  lemma FoundBefore<T(!new)>(values: Values, ids: seq<Id>, field: Metadata -> Option<T>, r: Option<T>)
    requires ids != [] && r.Some? && FromFirst(values, ids[..|ids| - 1], field, r)
    ensures FromFirst(values, ids, field, r)
  {
    hide MetaOf;
    var init := ids[..|ids| - 1];
    var i :| 0 <= i < |init| && field(MetaOf(values, init[i])) == r
             && forall j :: 0 <= j < i ==> field(MetaOf(values, init[j])).None?;
    assert ids[i] == init[i];
    forall j | 0 <= j < i ensures field(MetaOf(values, ids[j])).None? {
      assert ids[j] == init[j];
    }
  }

  lemma FromFirstStep<T(!new)>(values: Values, ids: seq<Id>, field: Metadata -> Option<T>, r: Option<T>, s: Option<T>)
    requires ids != [] && FromFirst(values, ids[..|ids| - 1], field, r)
    requires s == if r.Some? then r else field(MetaOf(values, ids[|ids| - 1]))
    ensures FromFirst(values, ids, field, s)
  {
    if r.Some? {
      FoundBefore(values, ids, field, r);
    } else {
      hide MetaOf;
      var init := ids[..|ids| - 1];
      forall i | 0 <= i < |ids| - 1 ensures field(MetaOf(values, ids[i])).None? {
        assert ids[i] == init[i];
      }
      if s.Some? { assert field(MetaOf(values, ids[|ids| - 1])) == s; }
    }
  }

  /** Each kind of metadata comes from the most senior of the merged values that sets it. */
  lemma {:induction false} SeniorityDecides(values: Values, ids: seq<Id>)
    ensures var m := MergeAlong(values, ids);
      && FromFirst(values, ids, (x: Metadata) => x.story, m.story)
      && FromFirst(values, ids, (x: Metadata) => x.mod, m.mod)
      && FromFirst(values, ids, (x: Metadata) => x.link, m.link)
      && FromFirst(values, ids, (x: Metadata) => x.entity, m.entity)
  {
    if ids != [] {
      var init := ids[..|ids| - 1];
      SeniorityDecides(values, init);
      var before, after := MergeAlong(values, init), MergeAlong(values, ids);
      FromFirstStep(values, ids, (x: Metadata) => x.story, before.story, after.story);
      FromFirstStep(values, ids, (x: Metadata) => x.mod, before.mod, after.mod);
      FromFirstStep(values, ids, (x: Metadata) => x.link, before.link, after.link);
      FromFirstStep(values, ids, (x: Metadata) => x.entity, before.entity, after.entity);
    }
  }

  lemma {:induction false} MergeAlongSame(v: Values, w: Values, ids: seq<Id>)
    requires forall x :: x in ids ==> MetaOf(v, x) == MetaOf(w, x)
    ensures MergeAlong(v, ids) == MergeAlong(w, ids)
  {
    if ids != [] {
      MergeAlongSame(v, w, ids[..|ids| - 1]);
    }
  }

  lemma {:induction false} ChainSame(p: Links, q: Links, x: Id)
    requires Forest(p) && Forest(q)
    requires forall y :: y in Chain(p, x) + [x] ==> At(p, y) == At(q, y)
    ensures Chain(p, x) == Chain(q, x)
    decreases x
  {
    assert x in Chain(p, x) + [x];
    if At(p, x) != {} {
      var parent := TheParent(p, x);
      assert parent in At(q, x);
      ChainOfChild(p, x, parent);
      ChainOfChild(q, x, parent);
      forall y | y in Chain(p, parent) + [parent] ensures At(p, y) == At(q, y) {
        assert y in Chain(p, x) + [x];
      }
      ChainSame(p, q, parent);
    }
  }

  /** Nothing outside the subtree of `id` sees a change to it: neither to its metadata nor to its edges. */
  lemma OutsideSubtree(v: Values, w: Values, p: Links, q: Links, id: Id, x: Id)
    requires Forest(p) && Forest(q)
    requires x != id && id !in Chain(p, x)
    requires forall y :: y in Chain(p, x) + [x] && y != id ==> MetaOf(v, y) == MetaOf(w, y) && At(p, y) == At(q, y)
    ensures Flattened(v, p, x) == Flattened(w, q, x)
  {
    ChainSame(p, q, x);
    MergeAlongSame(v, w, Chain(p, x) + [x]);
  }

  // ---------------------------------------------------------------- what the caches must say

  ghost predicate Hits(s: Stored, sel: Selector) {
    Matches(s.value.t, s.merged, sel.t, sel.meta)
  }

  function MergedValue(s: Stored): ContextValue {
    s.value.(meta := s.merged)
  }

  ghost function HitsOf(values: Values, sel: Selector): set<(Id, nat)> {
    set id | id in values && Hits(values[id], sel) :: (id, values[id].version)
  }

  ghost function ContentOf(values: Values, sel: Selector): map<Id, ContextValue> {
    map id | id in values && Hits(values[id], sel) :: MergedValue(values[id])
  }

  /** The ids and versions a query matches now. */
  ghost function Matching(values: Values, query: Query): set<(Id, nat)> {
    set k, h | k in query && h in HitsOf(values, query[k]) :: h
  }

  ghost function Content(values: Values, query: Query): ContextUpdate {
    map k | k in query :: ContentOf(values, query[k])
  }

  /** A subscription after a change: told exactly when what it matches has changed, or when forced. */
  ghost function Refreshed(s: Subscription, values: Values, force: bool): Subscription {
    if !force && Matching(values, s.query) == s.lastUpdate then s
    else s.(lastUpdate := Matching(values, s.query), updates := s.updates + [Content(values, s.query)])
  }

  type Subscriptions = map<SubscriptionId, Subscription>

  ghost function RefreshedAll(subs: Subscriptions, values: Values): Subscriptions {
    map i | i in subs :: Refreshed(subs[i], values, false)
  }

  // ---------------------------------------------------------------- what listeners see

  /** One of the query's selectors matches the value as it is stored. */
  ghost predicate Lists(values: Values, query: Query, id: Id) {
    id in values && exists k :: k in query && Matches(values[id].value.t, values[id].merged, query[k].t, query[k].meta)
  }

  /** The recorded pairs are the listed values with their versions. */
  ghost predicate Records(lastUpdate: set<(Id, nat)>, values: Values, query: Query) {
    forall id: Id, n: nat :: (id, n) in lastUpdate <==> Lists(values, query, id) && n == values[id].version
  }

  /** Some value is listed only before or only after, or under another version. */
  ghost predicate ListingChanged(before: Values, after: Values, query: Query) {
    exists id ::
      || Lists(before, query, id) != Lists(after, query, id)
      || (Lists(before, query, id) && before[id].version != after[id].version)
  }

  /** The update gives, under each of the query's names, the values that selector matches now, each with its type,
      its content and the metadata merged from its scope. */
  ghost predicate Describes(u: ContextUpdate, values: Values, query: Query) {
    && u.Keys == query.Keys
    && forall k, id :: k in query ==>
         && (id in u[k] <==>
               id in values && Matches(values[id].value.t, values[id].merged, query[k].t, query[k].meta))
         && (id in u[k] ==>
               u[k][id] == ContextValue(values[id].value.t, values[id].value.content, values[id].merged))
  }

  /** The listener has had one more call, which describes the values as they are. */
  ghost predicate OneMoreUpdate(s: Subscription, now: Subscription, values: Values) {
    |now.updates| == |s.updates| + 1 && s.updates <= now.updates
    && Describes(now.updates[|s.updates|], values, s.query)
  }

  /** The listener has been told of a change exactly if that changed what its query lists. */
  ghost predicate KeptTold(s: Subscription, now: Subscription, before: Values, after: Values) {
    && now.query == s.query && Records(now.lastUpdate, after, s.query)
    && (ListingChanged(before, after, s.query) ==> OneMoreUpdate(s, now, after))
    && (!ListingChanged(before, after, s.query) ==> now.updates == s.updates)
  }

  lemma MatchingRecords(lastUpdate: set<(Id, nat)>, values: Values, query: Query)
    ensures Records(lastUpdate, values, query) <==> lastUpdate == Matching(values, query)
  {
    hide Matches;
    forall id: Id, n: nat
      ensures (id, n) in Matching(values, query) <==> Lists(values, query, id) && n == values[id].version
    {
      if Lists(values, query, id) && n == values[id].version {
        var k :| k in query && Hits(values[id], query[k]);
        assert (id, n) in HitsOf(values, query[k]);
      }
      if (id, n) in Matching(values, query) {
        var k :| k in query && (id, n) in HitsOf(values, query[k]);
        assert Hits(values[id], query[k]);
      }
    }
    hide Matching, Lists;
    if Records(lastUpdate, values, query) {
      forall h ensures h in lastUpdate <==> h in Matching(values, query) {
        assert h == (h.0, h.1);
      }
    }
  }

  lemma ContentDescribes(values: Values, query: Query)
    ensures Describes(Content(values, query), values, query)
  {
    hide Matches;
  }

  lemma RecordsOf(r: set<(Id, nat)>, values: Values, query: Query, id: Id)
    requires Records(r, values, query)
    ensures Lists(values, query, id) ==> (id, values[id].version) in r
    ensures !Lists(values, query, id) ==> forall n: nat :: (id, n) !in r
  {
    hide Matches;
    assert Lists(values, query, id) ==> id in values;
    hide Lists;
  }

  /** The recorded pairs stay the same exactly when nothing changes that the query lists. */
  lemma RecordsSame(r: set<(Id, nat)>, before: Values, after: Values, query: Query)
    requires Records(r, before, query)
    ensures Records(r, after, query) <==> !ListingChanged(before, after, query)
  {
    if Records(r, after, query) {
      forall id
        ensures Lists(before, query, id) == Lists(after, query, id)
        ensures Lists(before, query, id) ==> before[id].version == after[id].version
      {
        RecordsOf(r, before, query, id);
        RecordsOf(r, after, query, id);
      }
    }
    hide Lists;
  }

  lemma RefreshTells(s: Subscription, before: Values, after: Values)
    requires s.lastUpdate == Matching(before, s.query)
    ensures KeptTold(s, Refreshed(s, after, false), before, after)
  {
    MatchingRecords(s.lastUpdate, before, s.query);
    MatchingRecords(s.lastUpdate, after, s.query);
    MatchingRecords(Matching(after, s.query), after, s.query);
    RecordsSame(s.lastUpdate, before, after, s.query);
    ContentDescribes(after, s.query);
    hide Matching, Content, Describes, Records, ListingChanged;
  }

  ghost predicate AllTold(subs: Subscriptions, now: Subscriptions, before: Values, after: Values) {
    now.Keys == subs.Keys && forall i :: i in subs ==> KeptTold(subs[i], now[i], before, after)
  }

  lemma RefreshAllTells(subs: Subscriptions, before: Values, after: Values)
    requires forall i :: i in subs ==> subs[i].lastUpdate == Matching(before, subs[i].query)
    ensures AllTold(subs, RefreshedAll(subs, after), before, after)
  {
    hide Matching, Refreshed, KeptTold;
    forall i | i in subs ensures KeptTold(subs[i], Refreshed(subs[i], after, false), before, after) {
      RefreshTells(subs[i], before, after);
    }
  }

  /** Replacing a value counts for every query that lists it before or after, since its version moves on. */
  lemma ReplacementListed(before: Values, after: Values, id: Id, query: Query)
    requires before.Keys == after.Keys && id in before && before[id].version != after[id].version
    requires forall x :: x in before && x != id ==> before[x].version == after[x].version
    ensures ListingChanged(before, after, query) <==>
      || Lists(before, query, id) || Lists(after, query, id)
      || exists x :: x != id && Lists(before, query, x) != Lists(after, query, x)
  {
  }

  ghost predicate Coherent(values: Values, parents: Links, id: Id)
    requires id in values && Forest(parents)
  {
    values[id].merged == Flattened(values, parents, id)
  }

  /** Every edge joins stored values. */
  ghost predicate EdgesStored(ids: set<Id>, parents: Links) {
    forall x: Id, p: Id {:trigger p in At(parents, x)} :: p in At(parents, x) ==> x in ids && p in ids
  }

  lemma {:induction false} ChainStored(ids: set<Id>, parents: Links, x: Id)
    requires Forest(parents) && EdgesStored(ids, parents)
    ensures forall y :: y in Chain(parents, x) ==> y in ids
    ensures Chain(parents, x) != [] ==> x in ids
    decreases x
  {
    if At(parents, x) != {} { ChainStored(ids, parents, TheParent(parents, x)); }
  }

  lemma FlattenedSame(v: Values, w: Values, parents: Links)
    requires Forest(parents) && forall x :: MetaOf(v, x) == MetaOf(w, x)
    ensures forall x :: Flattened(v, parents, x) == Flattened(w, parents, x)
  {
    forall x ensures Flattened(v, parents, x) == Flattened(w, parents, x) {
      MergeAlongSame(v, w, Chain(parents, x) + [x]);
    }
  }

  /** Re-indexing removes the terms of the new type with the old metadata, then adds the new terms.
      That leaves exactly the new terms if and only if the type has not changed. */
  lemma ReindexNeedsSameType(t: ValueType, u: ValueType, before: Metadata, after: Metadata)
    ensures (Terms(t, before) - Terms(u, before)) + Terms(u, after) == Terms(u, after) <==> t == u
  {
    TypeTermIn(u, before, t);
    TypeTermIn(u, after, t);
    assert TypeTerm(t) in Terms(t, before);
  }

  /** Which terms a value keeps under another type: all but the one of its type, which no metadata gives it. */
  lemma TypeTerms(t: ValueType, u: ValueType, m: Metadata)
    ensures TypeTerm(t) in Terms(t, m)
    ensures forall k :: k in Terms(t, m) ==> k in Terms(u, m) || k == TypeTerm(t)
    ensures t != u ==> forall n :: TypeTerm(t) !in Terms(u, n)
  {
    if t != u {
      forall n ensures TypeTerm(t) !in Terms(u, n) { TypeTermIn(u, n, t); }
    }
  }

  /** Each kind of a value's merged metadata comes from the most senior of its ancestors and itself that sets it. */
  ghost predicate Inherits(values: Values, parents: Links, id: Id)
    requires id in values && Forest(parents)
  {
    var ids, m := Chain(parents, id) + [id], values[id].merged;
    && FromFirst(values, ids, (x: Metadata) => x.story, m.story)
    && FromFirst(values, ids, (x: Metadata) => x.mod, m.mod)
    && FromFirst(values, ids, (x: Metadata) => x.link, m.link)
    && FromFirst(values, ids, (x: Metadata) => x.entity, m.entity)
  }

  lemma FromFirstUnique<T(!new)>(values: Values, ids: seq<Id>, field: Metadata -> Option<T>, r: Option<T>, s: Option<T>)
    requires FromFirst(values, ids, field, r) && FromFirst(values, ids, field, s)
    ensures r == s
  {
  }

  /** Flattened metadata is what a value inherits, and nothing else is. */
  lemma CoherentInherits(values: Values, parents: Links, id: Id)
    requires id in values && Forest(parents)
    ensures Coherent(values, parents, id) <==> Inherits(values, parents, id)
  {
    var ids, m, f := Chain(parents, id) + [id], values[id].merged, Flattened(values, parents, id);
    SeniorityDecides(values, ids);
    hide FromFirst, Chain;
    if Inherits(values, parents, id) {
      FromFirstUnique(values, ids, (x: Metadata) => x.story, m.story, f.story);
      FromFirstUnique(values, ids, (x: Metadata) => x.mod, m.mod, f.mod);
      FromFirstUnique(values, ids, (x: Metadata) => x.link, m.link, f.link);
      FromFirstUnique(values, ids, (x: Metadata) => x.entity, m.entity, f.entity);
    }
  }

  ghost predicate AllCoherent(values: Values, parents: Links)
    requires Forest(parents)
  {
    forall x :: x in values ==> Coherent(values, parents, x)
  }

  /** Values that were coherent and still are, with the same flattening, have not changed. */
  lemma CoherentSame(v: Values, w: Values, now: Values, parents: Links)
    requires Forest(parents) && v.Keys <= w.Keys && v.Keys <= now.Keys
    requires forall x :: x in v ==> w[x] == v[x] && Coherent(w, parents, x)
    requires forall x :: x in v ==> now[x].value == v[x].value && now[x].version == v[x].version
    requires forall x :: x in v ==> Coherent(now, parents, x)
    requires forall x :: Flattened(w, parents, x) == Flattened(now, parents, x)
    ensures forall x :: x in v ==> now[x] == v[x]
  {
  }

  /** Flattening one value again makes it coherent and leaves the others so. */
  lemma ReindexCoheres(v: Values, w: Values, parents: Links, id: Id)
    requires Forest(parents) && id in v && w == v[id := v[id].(merged := Flattened(v, parents, id))]
    ensures Coherent(w, parents, id)
    ensures forall x :: x in w && x in v && Coherent(v, parents, x) ==> Coherent(w, parents, x)
  {
    FlattenedSame(v, w, parents);
  }

  /** The new value takes its place in the graph without disturbing any other. */
  lemma AddKeepsForest(ids: set<Id>, p: Links, q: Links, newId: Id, parent: Option<Id>)
    requires Forest(p) && EdgesStored(ids, p) && newId !in ids
    requires parent.Some? ==> parent.value in ids && parent.value < newId
    requires forall x: Id :: At(q, x) == if x == newId && parent.Some? then {parent.value} else At(p, x)
    ensures Forest(q) && EdgesStored(ids + {newId}, q)
  {
    if x: Id :| x in At(p, newId) { assert false; }
  }

  lemma AddKeepsOther(v: Values, w: Values, p: Links, q: Links, newId: Id, x: Id)
    requires Forest(p) && Forest(q) && EdgesStored(v.Keys, p) && newId !in v
    requires x in v && Coherent(v, p, x)
    requires forall y :: y in v ==> y in w && w[y] == v[y]
    requires forall y: Id :: y != newId ==> At(q, y) == At(p, y)
    ensures Coherent(w, q, x)
  {
    ChainStored(v.Keys, p, x);
    OutsideSubtree(v, w, p, q, newId, x);
  }

  lemma AddKeepsOthers(v: Values, w: Values, p: Links, q: Links, newId: Id)
    requires Forest(p) && Forest(q) && EdgesStored(v.Keys, p) && newId !in v && AllCoherent(v, p)
    requires forall x :: x in v ==> x in w && w[x] == v[x]
    requires forall x: Id :: x != newId ==> At(q, x) == At(p, x)
    ensures forall x :: x in v ==> Coherent(w, q, x)
  {
    hide Coherent, EdgesStored, Forest;
    forall x | x in v ensures Coherent(w, q, x) {
      AddKeepsOther(v, w, p, q, newId, x);
    }
  }

  lemma UpdateKeepsOther(v: Values, w: Values, p: Links, id: Id, x: Id)
    requires Forest(p) && v.Keys == w.Keys && x in v && Coherent(v, p, x)
    requires forall y :: y in v && y != id ==> w[y] == v[y]
    requires x != id && id !in Chain(p, x)
    ensures Coherent(w, p, x)
  {
    forall y | y != id ensures MetaOf(v, y) == MetaOf(w, y) {
    }
    OutsideSubtree(v, w, p, p, id, x);
  }

  lemma UpdateKeepsOthers(v: Values, w: Values, p: Links, id: Id)
    requires Forest(p) && v.Keys == w.Keys && AllCoherent(v, p)
    requires forall x :: x in v && x != id ==> w[x] == v[x]
    ensures forall x :: x in v && x != id && id !in Chain(p, x) ==> Coherent(w, p, x)
  {
    forall x | x in v && x != id && id !in Chain(p, x) ensures Coherent(w, p, x) {
      UpdateKeepsOther(v, w, p, id, x);
    }
  }

  lemma RemoveKeepsForest(ids: set<Id>, p: Links, q: Links, id: Id)
    requires Forest(p) && EdgesStored(ids, p)
    requires forall x: Id :: At(q, x) == if x == id then {} else At(p, x) - {id}
    ensures Forest(q) && EdgesStored(ids - {id}, q)
  {
    assert forall x: Id, y: Id :: y in At(q, x) ==> y in At(p, x);
  }

  /** No value outside the subtree of `id` has `id` as a parent along its chain. */
  lemma {:induction false} ChainAvoids(parents: Links, id: Id, x: Id)
    requires Forest(parents) && id !in Chain(parents, x)
    ensures forall y :: y in Chain(parents, x) + [x] ==> id !in At(parents, y)
    decreases x
  {
    if At(parents, x) != {} {
      var p := TheParent(parents, x);
      ChainAvoids(parents, id, p);
      forall y | y in Chain(parents, x) + [x] ensures id !in At(parents, y) {
        assert y == x || y in Chain(parents, p) + [p];
      }
    }
  }

  lemma RemoveKeepsOther(v: Values, w: Values, p: Links, q: Links, id: Id, x: Id)
    requires Forest(p) && Forest(q) && x in v && Coherent(v, p, x) && w == v - {id}
    requires forall y: Id :: At(q, y) == if y == id then {} else At(p, y) - {id}
    requires x != id && id !in Chain(p, x)
    ensures Coherent(w, q, x)
  {
    ChainAvoids(p, id, x);
    forall y | y in Chain(p, x) + [x] && y != id ensures MetaOf(v, y) == MetaOf(w, y) && At(p, y) == At(q, y) {
    }
    OutsideSubtree(v, w, p, q, id, x);
  }

  lemma RemoveKeepsOthers(v: Values, w: Values, p: Links, q: Links, id: Id)
    requires Forest(p) && Forest(q) && AllCoherent(v, p) && w == v - {id}
    requires forall x: Id :: At(q, x) == if x == id then {} else At(p, x) - {id}
    ensures forall x :: x in w && id !in Chain(p, x) ==> Coherent(w, q, x)
  {
    forall x | x in w && id !in Chain(p, x) ensures Coherent(w, q, x) {
      RemoveKeepsOther(v, w, p, q, id, x);
    }
  }

  lemma NothingMerged(values: Values)
    ensures MergeAlong(values, []) == NO_METADATA
  {
  }

  lemma OneMoreMerged(values: Values, ids: seq<Id>, i: nat)
    requires i < |ids|
    ensures MergeAlong(values, ids[..i + 1]) == MergeMetadata(MetaOf(values, ids[i]), MergeAlong(values, ids[..i]))
  {
    assert ids[..i + 1][..i] == ids[..i];
  }

  /** In a forest the values that have `id` as an ancestor are those with it in their chain. */
  lemma DescendantsByChain(parents: Links, id: Id, r: set<Id>)
    requires Forest(parents) && forall y: Id :: y in r <==> IsAncestor(parents, y, id)
    ensures forall y: Id :: y in r <==> id in Chain(parents, y)
  {
    forall y: Id ensures y in r <==> id in Chain(parents, y) {
      ChainIsAncestors(parents, y, id);
    }
  }

  lemma NoParents(values: Values, parents: Links, x: Id)
    requires EdgesStored(values.Keys, parents) && x !in values
    ensures At(parents, x) == {}
  {
    if p :| p in At(parents, x) {
      assert false;
    }
  }

  /** Who has been told of a replacement: every query that lists the value before or after, or lists another value
      no more or anew. */
  ghost predicate ReplacementTold(s: Subscription, now: Subscription, before: Values, after: Values, id: Id) {
    if Lists(before, s.query, id) || Lists(after, s.query, id)
       || exists x :: x != id && Lists(before, s.query, x) != Lists(after, s.query, x)
    then OneMoreUpdate(s, now, after)
    else now.updates == s.updates
  }

  lemma ReplacementTells(subs: Subscriptions, now: Subscriptions, before: Values, after: Values, id: Id)
    requires before.Keys == after.Keys && id in before && before[id].version != after[id].version
    requires forall x :: x in before && x != id ==> before[x].version == after[x].version
    requires AllTold(subs, now, before, after)
    ensures forall i :: i in now ==> ReplacementTold(subs[i], now[i], before, after, id)
  {
    hide Lists, ListingChanged, OneMoreUpdate, Records;
    forall i | i in now ensures ReplacementTold(subs[i], now[i], before, after, id) {
      ReplacementListed(before, after, id, subs[i].query);
    }
  }

  class ContextRepository {
    var values: Values
    const graph: ContextGraph
    const index: ContextIndex
    var subscriptions: Subscriptions
    var nextId: Id
    var nextSubscription: SubscriptionId

    ghost predicate Shape()
      reads this, graph
    {
      && graph.Valid() && Forest(graph.parents) && EdgesStored(values.Keys, graph.parents)
      && (forall x :: x in values ==> x < nextId)
    }

    /** The index holds no posting but of a value's own terms, other than `stale`, which it holds although
        no metadata gives that value the term; and only values in `pending` may lack some of theirs. */
    ghost predicate IndexSound(pending: seq<Id>, stale: Option<(Term, Id)>)
      reads this`values, index
    {
      && (forall k, id :: id in index.Postings(k) ==>
           id in values && (k in Terms(values[id].value.t, values[id].merged) || stale == Some((k, id))))
      && (forall k, id :: id in values && id !in pending && k in Terms(values[id].value.t, values[id].merged) ==>
           id in index.Postings(k))
      && (stale.Some? ==>
           && stale.value.1 in values && stale.value.1 in index.Postings(stale.value.0)
           && forall m :: stale.value.0 !in Terms(values[stale.value.1].value.t, m))
    }

    ghost predicate IndexExact()
      reads this`values, index
    {
      IndexSound([], None)
    }

    /** The index lists stored values only. */
    ghost predicate PostingsStored()
      reads this`values, index
    {
      forall k, id :: id in index.Postings(k) ==> id in values
    }

    /** All three caches agree with what is computed from scratch. */
    ghost predicate Valid()
      reads this, graph, index
    {
      && Shape()
      && AllCoherent(values, graph.parents)
      && IndexExact()
      && (forall i :: i in subscriptions ==> subscriptions[i].lastUpdate == Matching(values, subscriptions[i].query))
    }

    constructor ()
      ensures Valid() && fresh(graph) && fresh(index)
      ensures values == map[] && subscriptions == map[] && nextId == 0
    {
      values, subscriptions, nextId, nextSubscription := map[], map[], 0, 0;
      graph := new ContextGraph();
      index := new ContextIndex();
    }

    /** Index refines scan: an exact index gives exactly the stored values that match. */
    method Select(sel: Selector) returns (r: set<Id>)
      requires PostingsStored()
      modifies index
      ensures forall k :: index.Postings(k) == old(index.Postings(k))
      ensures IndexExact() == old(IndexExact())
      ensures r <= values.Keys
      ensures IndexExact() ==> forall id :: id in r <==> id in values && Hits(values[id], sel)
    {
      hide Terms, TypeTerm, Matches;
      r := index.Query(sel.t, sel.meta, {});
      TypeTermIn(sel.t, sel.meta, sel.t);
      forall id | IndexExact() ensures id in r <==> id in values && Hits(values[id], sel) {
        if id in values {
          TermsDecideMatch(values[id].value.t, values[id].merged, sel.t, sel.meta);
        }
      }
    }

    function Get(id: Id): Option<ContextValue>
      reads this
    {
      if id in values then Some(values[id].value) else None
    }

    function GetMerged(id: Id): Option<ContextValue>
      reads this
    {
      if id in values then Some(MergedValue(values[id])) else None
    }

    /** The matches of one selector, as ids with versions and as merged values. */
    method Collect(sel: Selector) returns (hits: set<(Id, nat)>, found: map<Id, ContextValue>)
      requires PostingsStored()
      modifies index
      ensures forall k :: index.Postings(k) == old(index.Postings(k))
      ensures IndexExact() == old(IndexExact())
      ensures IndexExact() ==> hits == HitsOf(values, sel) && found == ContentOf(values, sel)
      ensures IndexExact() ==> forall id: Id, n: nat :: (id, n) in hits <==>
        id in values && Matches(values[id].value.t, values[id].merged, sel.t, sel.meta) && n == values[id].version
      ensures IndexExact() ==> forall id ::
        id in found <==> id in values && Matches(values[id].value.t, values[id].merged, sel.t, sel.meta)
      ensures IndexExact() ==> forall id :: id in found ==>
        found[id] == ContextValue(values[id].value.t, values[id].value.content, values[id].merged)
    {
      hide Matches, IndexSound;
      var ids := Select(sel);
      hits, found := {}, map[];
      var left := ids;
      while left != {}
        invariant left <= ids
        invariant forall h :: h in hits <==> h.0 in ids - left && h.0 in values && h.1 == values[h.0].version
        invariant forall id :: id in found <==> id in ids - left
        invariant forall id :: id in found ==> id in values && found[id] == MergedValue(values[id])
        decreases left
      {
        var id :| id in left;
        hits := hits + {(id, values[id].version)};
        found := found[id := GetMerged(id).value];
        left := left - {id};
      }
    }

    method QueryAndMaybeNotify(i: SubscriptionId, force: bool)
      requires PostingsStored() && i in subscriptions
      modifies this`subscriptions, index
      ensures forall k :: index.Postings(k) == old(index.Postings(k))
      ensures IndexExact() == old(IndexExact())
      ensures i in subscriptions && subscriptions == old(subscriptions)[i := subscriptions[i]]
      ensures subscriptions[i].query == old(subscriptions)[i].query
      ensures IndexExact() ==> subscriptions[i] == Refreshed(old(subscriptions)[i], values, force)
      ensures IndexExact() ==> var s := old(subscriptions)[i];
        && Records(subscriptions[i].lastUpdate, values, s.query)
        && if force || !Records(s.lastUpdate, values, s.query) then OneMoreUpdate(s, subscriptions[i], values)
           else subscriptions[i].updates == s.updates
    {
      hide Matches, Records, Describes;
      hide IndexSound;
      var subscription := subscriptions[i];
      var query := subscription.query;
      var matching: set<(Id, nat)> := {};
      var update: ContextUpdate := map[];
      var left := query.Keys;
      while left != {}
        invariant left <= query.Keys && PostingsStored() && subscriptions == old(subscriptions)
        invariant forall k :: index.Postings(k) == old(index.Postings(k))
        invariant IndexExact() == old(IndexExact())
        invariant forall k :: k in update <==> k in query.Keys - left
        invariant IndexExact() ==> forall h ::
          h in matching <==> exists k :: k in query.Keys - left && h in HitsOf(values, query[k])
        invariant IndexExact() ==> forall k :: k in update ==> k in query && update[k] == ContentOf(values, query[k])
        decreases left
      {
        var key :| key in left;
        var hits, found := Collect(query[key]);
        ghost var before := matching;
        matching := matching + hits;
        update := update[key := found];
        forall h | IndexExact()
          ensures h in matching <==> exists k :: k in query.Keys - (left - {key}) && h in HitsOf(values, query[k])
        {
          if h in hits {
            assert key in query.Keys - (left - {key}) && h in HitsOf(values, query[key]);
          }
          if h in before {
            var k :| k in query.Keys - left && h in HitsOf(values, query[k]);
            assert k in query.Keys - (left - {key});
          }
        }
        left := left - {key};
      }
      assert IndexExact() ==> matching == Matching(values, query) && update == Content(values, query);
      MatchingRecords(matching, values, query);
      MatchingRecords(subscription.lastUpdate, values, query);
      ContentDescribes(values, query);
      if !force && matching == subscription.lastUpdate {
        assert subscriptions == subscriptions[i := subscription];
        return;
      }
      subscriptions := subscriptions[i :=
        subscription.(lastUpdate := matching, updates := subscription.updates + [update])];
    }

    /** Takes a value's old terms out of the index, flattens it again and puts its new terms in. */
    method Reindex(id: Id, ghost pending: seq<Id>, ghost stale: Option<(Term, Id)>)
      requires Shape() && IndexSound([id] + pending, stale) && id in values
      modifies this`values, index
      ensures Shape() && IndexSound(pending, stale)
      ensures values == old(values)[id := old(values)[id].(merged := Flattened(old(values), graph.parents, id))]
    {
      hide Terms, Flattened, Chain, IndexSound;
      Unlist(id, pending, stale);
      RecomputeMergedMetadata(id);
      List(id, pending, stale);
    }

    /** The postings of other values, and perhaps the stale one, but none of the value's own. */
    ghost predicate SoundWithout(id: Id, pending: seq<Id>, stale: Option<(Term, Id)>)
      reads this`values, index
    {
      && PostingsStored()
      && (forall k, x :: x in index.Postings(k) ==>
           (x != id && k in Terms(values[x].value.t, values[x].merged)) || stale == Some((k, x)))
      && (forall k, x :: x in values && x !in pending && x != id && k in Terms(values[x].value.t, values[x].merged) ==>
           x in index.Postings(k))
      && (stale.Some? ==>
           && stale.value.1 in values && stale.value.1 in index.Postings(stale.value.0)
           && forall m :: stale.value.0 !in Terms(values[stale.value.1].value.t, m))
    }

    method Unlist(id: Id, ghost pending: seq<Id>, ghost stale: Option<(Term, Id)>)
      requires IndexSound([id] + pending, stale) && id in values
      modifies index
      ensures SoundWithout(id, pending, stale)
    {
      hide Terms;
      index.Remove(id, values[id].value.t, values[id].merged);
    }

    method List(id: Id, ghost pending: seq<Id>, ghost stale: Option<(Term, Id)>)
      requires SoundWithout(id, pending, stale) && id in values
      modifies index
      ensures IndexSound(pending, stale)
    {
      hide Terms;
      index.Add(id, values[id].value.t, values[id].merged);
    }

    method RecomputeMergedMetadata(id: Id)
      requires Shape() && id in values
      modifies this`values
      ensures Shape()
      ensures values == old(values)[id := old(values)[id].(merged := Flattened(old(values), graph.parents, id))]
    {
      hide MergeMetadata, MergeAlong, Chain;
      var merged := NO_METADATA;
      var ancestors := graph.GetAncestors(id);
      ChainStored(values.Keys, graph.parents, id);
      NothingMerged(values);
      for i := 0 to |ancestors|
        invariant merged == MergeAlong(values, ancestors[..i]) && values == old(values)
      {
        OneMoreMerged(values, ancestors, i);
        assert ancestors[i] in ancestors;
        merged := MergeMetadata(values[ancestors[i]].value.meta, merged);
      }
      assert ancestors[..|ancestors|] == ancestors;
      OneMoreMerged(values, ancestors + [id], |ancestors|);
      assert (ancestors + [id])[..|ancestors|] == ancestors;
      assert (ancestors + [id])[..|ancestors| + 1] == ancestors + [id];
      merged := MergeMetadata(values[id].value.meta, merged);
      values := values[id := values[id].(merged := merged)];
      assert values.Keys == old(values.Keys);
    }

    /** Brings the index, the flattened metadata and the subscriptions up to date after a change that
        touched the metadata of `updated` values and took out at most one value. */
    method ReindexAndNotify(updated: seq<Id>, removed: Option<(Id, Stored)>, ghost stale: Option<(Term, Id)>)
      requires Shape() && forall x :: x in updated ==> x in values
      requires forall x :: x in values && x !in updated ==> Coherent(values, graph.parents, x)
      requires removed.Some? ==> removed.value.0 !in values
      requires removed.None? ==> IndexSound(updated, stale)
      requires removed.Some? ==> stale == None && forall k, id :: id in index.Postings(k) <==>
        || (id in values && k in Terms(values[id].value.t, values[id].merged))
        || (id == removed.value.0 && k in Terms(removed.value.1.value.t, removed.value.1.merged))
      modifies this`values, this`subscriptions, index
      ensures Shape() && AllCoherent(values, graph.parents) && IndexSound([], stale)
      ensures stale.None? ==> Valid() && subscriptions == RefreshedAll(old(subscriptions), values)
      ensures values.Keys == old(values.Keys)
      ensures forall x :: x in values ==>
        values[x].value == old(values)[x].value && values[x].version == old(values)[x].version
    {
      hide Terms, Matching, Content, Flattened, Chain, IndexSound;
      if removed.Some? {
        TakeOut(removed.value.0, removed.value.1);
        PendingGrows([], updated, None);
      }
      ReindexAll(updated, stale);
      NotifyAll(stale);
    }

    method TakeOut(id: Id, s: Stored)
      requires id !in values
      requires forall k, x :: x in index.Postings(k) <==>
        || (x in values && k in Terms(values[x].value.t, values[x].merged))
        || (x == id && k in Terms(s.value.t, s.merged))
      modifies index
      ensures IndexExact()
    {
      hide Terms;
      index.Remove(id, s.value.t, s.merged);
    }

    method ReindexAll(updated: seq<Id>, ghost stale: Option<(Term, Id)>)
      requires Shape() && IndexSound(updated, stale) && forall x :: x in updated ==> x in values
      requires forall x :: x in values && x !in updated ==> Coherent(values, graph.parents, x)
      modifies this`values, index
      ensures Shape() && IndexSound([], stale) && AllCoherent(values, graph.parents)
      ensures values.Keys == old(values.Keys)
      ensures forall x :: x in values ==>
        values[x].value == old(values)[x].value && values[x].version == old(values)[x].version
    {
      hide Terms, Flattened, Chain, Coherent;
      for i := 0 to |updated|
        invariant Shape() && IndexSound(updated[i..], stale)
        invariant values.Keys == old(values.Keys)
        invariant forall x :: x in values ==>
          values[x].value == old(values)[x].value && values[x].version == old(values)[x].version
        invariant forall x :: x in values && x !in updated[i..] ==> Coherent(values, graph.parents, x)
      {
        ghost var before := values;
        assert updated[i..] == [updated[i]] + updated[i + 1..];
        Reindex(updated[i], updated[i + 1..], stale);
        ReindexCoheres(before, values, graph.parents, updated[i]);
      }
    }

    method NotifyAll(ghost stale: Option<(Term, Id)>)
      requires IndexSound([], stale)
      modifies this`subscriptions, index
      ensures IndexSound([], stale) && (IndexExact() <==> old(IndexExact()))
      ensures IndexExact() ==> subscriptions == RefreshedAll(old(subscriptions), values)
    {
      hide Terms, Matching, Content;
      var left := subscriptions.Keys;
      while left != {}
        invariant left <= old(subscriptions).Keys == subscriptions.Keys && PostingsStored()
        invariant forall k :: index.Postings(k) == old(index.Postings(k))
        invariant IndexExact() == old(IndexExact())
        invariant IndexExact() ==> forall i :: i in subscriptions ==>
          subscriptions[i] ==
            if i in left then old(subscriptions)[i] else Refreshed(old(subscriptions)[i], values, false)
        decreases left
      {
        var i :| i in left;
        QueryAndMaybeNotify(i, false);
        left := left - {i};
      }
    }

    /** Adds a value, in the scope of `parent` if one is given. */
    method Add(parent: Option<Id>, value: ContextValue) returns (newId: Id)
      requires Valid() && (parent.Some? ==> parent.value in values) && nextId < UINT32
      modifies this`values, this`subscriptions, this`nextId, graph, index
      ensures Valid()
      ensures newId == old(nextId) && newId !in old(values) && nextId == newId + 1
      ensures values.Keys == old(values.Keys) + {newId}
      ensures values[newId].value == value && values[newId].version == 0
      ensures forall x :: x in old(values) ==> values[x] == old(values)[x]
      ensures forall x ::
        At(graph.parents, x) == if x == newId && parent.Some? then {parent.value} else old(At(graph.parents, x))
      ensures subscriptions == RefreshedAll(old(subscriptions), values)
      ensures AllTold(old(subscriptions), subscriptions, old(values), values)
    {
      hide Terms, Matching, Content, Flattened, Chain, Coherent, EdgesStored, Forest, AllTold;
      newId := nextId;
      nextId := nextId + 1;
      ghost var v, p := values, graph.parents;
      values := values[newId := Stored(value, NO_METADATA, 0)];
      if parent.Some? {
        NoParents(v, p, newId);
        graph.AddEdge(parent.value, newId);
      }
      AddKeepsForest(v.Keys, p, graph.parents, newId, parent);
      AddKeepsOthers(v, values, p, graph.parents, newId);
      assert values.Keys == v.Keys + {newId};
      ghost var w := values;
      ReindexAndNotify([newId], None, None);
      FlattenedSame(w, values, graph.parents);
      CoherentSame(v, w, values, graph.parents);
      RefreshAllTells(old(subscriptions), v, values);
    }

    /** Replaces a value. The index stays exact if and only if the type stays; otherwise the value is left
        listed under its old type, and that is all that is wrong with it. */
    method Update(id: Id, value: ContextValue)
      requires Valid() && id in values
      modifies this`values, this`subscriptions, index
      ensures Shape() && AllCoherent(values, graph.parents)
      ensures IndexExact() <==> value.t == old(values)[id].value.t
      ensures value.t == old(values)[id].value.t ==>
        Valid() && subscriptions == RefreshedAll(old(subscriptions), values)
      ensures value.t != old(values)[id].value.t ==>
        IndexSound([], Some((TypeTerm(old(values)[id].value.t), id)))
      ensures values.Keys == old(values.Keys)
      ensures values[id].value == value && values[id].version == (old(values)[id].version + 1) % UINT32
      ensures forall x :: x in values && x != id ==>
        values[x].value == old(values)[x].value && values[x].version == old(values)[x].version
      ensures forall x :: x in values && x != id && id !in Chain(graph.parents, x) ==> values[x] == old(values)[x]
      ensures value.t == old(values)[id].value.t ==> AllTold(old(subscriptions), subscriptions, old(values), values)
      ensures value.t == old(values)[id].value.t ==> forall i :: i in old(subscriptions) && i in subscriptions ==>
        ReplacementTold(old(subscriptions)[i], subscriptions[i], old(values), values, id)
    {
      hide Terms, Matching, Content, Flattened, Chain, IndexSound, TypeTerm, AllTold, Lists, ListingChanged;
      hide ReplacementTold, KeptTold;
      ghost var v := values;
      ghost var stale := ReplaceValue(id, value);
      ForestRanked(graph.parents);
      var children := graph.GetChildrenRecursive(id, x => x);
      DescendantsByChain(graph.parents, id, children);
      var list := Elements(children);
      forall x | x in list ensures x in values {
        ChainStored(values.Keys, graph.parents, x);
      }
      UpdateKeepsOthers(v, values, graph.parents, id);
      ghost var w := values;
      PendingGrows([id], [id] + list, stale);
      ReindexAndNotify([id] + list, None, stale);
      if stale.Some? { StaleIsInexact(stale); }
      FlattenedSame(w, values, graph.parents);
      forall x | x in values && x != id && id !in Chain(graph.parents, x) ensures values[x] == v[x] {
        assert Coherent(values, graph.parents, x) && Coherent(w, graph.parents, x);
      }
      if stale.None? {
        RefreshAllTells(old(subscriptions), v, values);
        ReplacementTells(old(subscriptions), subscriptions, v, values, id);
      }
    }

    /** The value itself, before anything is brought up to date. */
    method ReplaceValue(id: Id, value: ContextValue) returns (ghost stale: Option<(Term, Id)>)
      requires Shape() && IndexExact() && id in values
      modifies this`values
      ensures Shape() && values.Keys == old(values.Keys)
      ensures values == old(values)[id := Stored(value, old(values)[id].merged, (old(values)[id].version + 1) % UINT32)]
      ensures stale ==
        if value.t == old(values)[id].value.t then None else Some((TypeTerm(old(values)[id].value.t), id))
      ensures IndexSound([id], stale)
    {
      hide Terms, TypeTerm, Forest;
      TypeTerms(values[id].value.t, value.t, values[id].merged);
      stale := if value.t == values[id].value.t then None else Some((TypeTerm(values[id].value.t), id));
      values := values[id := Stored(value, values[id].merged, (values[id].version + 1) % UINT32)];
      assert values.Keys == old(values.Keys);
    }

    lemma PendingGrows(few: seq<Id>, many: seq<Id>, stale: Option<(Term, Id)>)
      requires IndexSound(few, stale) && forall x :: x in few ==> x in many
      ensures IndexSound(many, stale)
    {
    }

    lemma StaleIsInexact(stale: Option<(Term, Id)>)
      requires stale.Some? && IndexSound([], stale)
      ensures !IndexExact()
    {
      assert stale.value.1 in index.Postings(stale.value.0);
    }

    /** Takes a value out; its children stay, without it as an ancestor. */
    method Remove(id: Id)
      requires Valid()
      modifies this`values, this`subscriptions, graph, index
      ensures Valid()
      ensures id !in old(values) ==> values == old(values) && subscriptions == old(subscriptions) && unchanged(graph)
      ensures values.Keys == old(values.Keys) - {id}
      ensures forall x :: x in values ==>
        values[x].value == old(values)[x].value && values[x].version == old(values)[x].version
      ensures id in old(values) ==> forall x ::
          At(graph.parents, x) == if x == id then {} else old(At(graph.parents, x)) - {id}
      ensures id in old(values) ==> subscriptions == RefreshedAll(old(subscriptions), values)
      ensures id in old(values) ==> AllTold(old(subscriptions), subscriptions, old(values), values)
    {
      hide Terms, Matching, Content, Flattened, Chain, AllTold;
      if id !in values {
        return;
      }
      ghost var v, p := values, graph.parents;
      var removed := Some((id, values[id]));
      ForestRanked(graph.parents);
      var children := graph.GetChildrenRecursive(id, x => x);
      DescendantsByChain(graph.parents, id, children);
      var list := Elements(children);
      ChainIsOlder(p, id);
      forall x | x in list ensures x in values && x != id {
        ChainStored(v.Keys, p, x);
      }
      values := values - {id};
      graph.Remove(id);
      RemoveKeepsForest(v.Keys, p, graph.parents, id);
      RemoveKeepsOthers(v, values, p, graph.parents, id);
      ReindexAndNotify(list, removed, None);
      RefreshAllTells(old(subscriptions), v, values);
    }

    /** A new subscription is told the current matches at once. Its id must be free, which the code checks,
        since the counter wraps. */
    method AddSubscription(query: Query) returns (i: SubscriptionId)
      requires Valid() && nextSubscription !in subscriptions
      modifies this`subscriptions, this`nextSubscription, index
      ensures Valid() && i == old(nextSubscription) && nextSubscription == (i + 1) % UINT32
      ensures subscriptions ==
        old(subscriptions)[i := Subscription(query, Matching(values, query), [Content(values, query)])]
      ensures Records(subscriptions[i].lastUpdate, values, query)
      ensures |subscriptions[i].updates| == 1 && Describes(subscriptions[i].updates[0], values, query)
    {
      hide Terms, Matching, Content, Flattened, Chain, Records, Describes;
      i := nextSubscription;
      nextSubscription := (nextSubscription + 1) % UINT32;
      subscriptions := subscriptions[i := Subscription(query, {}, [])];
      QueryAndMaybeNotify(i, true);
      assert [] + [Content(values, query)] == [Content(values, query)];
    }

    method RemoveSubscription(i: SubscriptionId)
      requires Valid() && i in subscriptions
      modifies this`subscriptions
      ensures Valid() && subscriptions == old(subscriptions) - {i}
    {
      subscriptions := subscriptions - {i};
    }
  }
}
