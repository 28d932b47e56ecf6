/** One device's copy of a link: the document, the newest key applied to it, and the local changes
    that the ledger has not confirmed yet. */
module Link {
  import opened KeyOrder
  import opened KeyGeneration
  import opened LinkJson
  import opened ChangeLog
  import opened Options

  datatype LinkState = LinkState(doc: Json, latestKey: Key, pendingOps: seq<Change>)

  /** Rebuilding the document from the ledger's changes and the pending ones, the ledger's copy
      winning. With nothing to replay the latest key stays. */
  ghost function Replayed(s: LinkState, changes: seq<Change>): LinkState {
    var m := ToSet(s.pendingOps) + ToSet(changes);
    s.(doc := Meaning(m), latestKey := if m == map[] then s.latestKey else Latest(m))
  }

  /** A keyed change arrives: in key order it is applied in place, otherwise the history is replayed
      from what the ledger holds. */
  ghost function Integrated(s: LinkState, c: Change, ledger: seq<Change>): LinkState {
    if Less(c.key, s.latestKey) then Replayed(s, ledger)
    else s.(doc := Apply(s.doc, c), latestKey := c.key)
  }

  predicate Acknowledges(s: LinkState, key: Key) {
    s.pendingOps != [] && key == s.pendingOps[0].key
  }

  /** The ledger reports a change, which may be the acknowledgement of the oldest pending one. */
  ghost function Delivered(s: LinkState, c: Change, ledger: seq<Change>): LinkState {
    if Acknowledges(s, c.key) then s.(pendingOps := s.pendingOps[1..]) else Integrated(s, c, ledger)
  }

  /** A local change that has just been given its key and written to the ledger. */
  ghost function Submitted(s: LinkState, c: Change, ledger: seq<Change>): LinkState {
    Integrated(s.(pendingOps := s.pendingOps + [c]), c, ledger)
  }

  predicate FollowsAll(pending: seq<Change>, key: Key) {
    forall p :: p in pending ==> Less(p.key, key)
  }

  /** A change at the end of an ascending list keeps it ascending exactly when it follows all others. */
  lemma SortedOneMore(pending: seq<Change>, c: Change)
    requires Sorted(pending)
    ensures Sorted(pending + [c]) <==> FollowsAll(pending, c.key)
  {
    hide Less;
    var more := pending + [c];
    if Sorted(more) {
      forall p | p in pending ensures Less(p.key, c.key) {
        var i :| 0 <= i < |pending| && pending[i] == p;
        assert more[i] == p && more[|pending|] == c;
      }
    }
    if FollowsAll(pending, c.key) {
      forall i, j | 0 <= i < j < |more| ensures Less(more[i].key, more[j].key) {
        assert more[i] == pending[i];
      }
    }
  }

  /** With an orderly clock, a key that no pending one exceeds is followed by the next. */
  lemma OrderlyFollows(pending: seq<Change>, s: Stamp, clock: nat, random: nat)
    requires WellFormed(s) && s.time < TIME_RANGE && Orderly(s, clock)
    requires forall p :: p in pending ==> !Less(KeyOf(s), p.key)
    ensures FollowsAll(pending, KeyOf(Advance(s, clock, random)))
  {
    hide KeyOf, Advance;
    NextKeyGreater(s, clock, random);
    StrictTotalOrder();
  }

  /** A replay: each key of either list once, the ledger's copy of it where it has one, in ascending order, each
      change performed on the document that the one before left and the first on an empty one. */
  ghost predicate Replays(applied: seq<Change>, docs: seq<Json>, changes: seq<Change>, pending: seq<Change>) {
    && Sorted(applied)
    && (forall c :: c in applied <==> c in changes || (c in pending && forall d :: d in changes ==> d.key != c.key))
    && |docs| == |applied| + 1 && docs[0] == Null
    && forall i :: 0 <= i < |applied| ==> Performs(docs[i], docs[i + 1], applied[i])
  }

  /** The state at the end of a replay; one that replays nothing leaves the latest key. */
  ghost predicate ReplayedTo(before: Key, doc: Json, latestKey: Key, changes: seq<Change>, pending: seq<Change>) {
    exists applied: seq<Change>, docs: seq<Json> ::
      && Replays(applied, docs, changes, pending) && doc == docs[|applied|]
      && latestKey == if applied == [] then before else applied[|applied| - 1].key
  }

  lemma {:induction false} FoldSteps(log: seq<Change>) returns (docs: seq<Json>)
    ensures |docs| == |log| + 1 && docs[0] == Null && docs[|log|] == Fold(log)
    ensures forall i :: 0 <= i < |log| ==> Performs(docs[i], docs[i + 1], log[i])
    decreases |log|
  {
    hide Performs, Apply;
    if log == [] {
      docs := [Null];
    } else {
      var n := |log| - 1;
      docs := FoldSteps(log[..n]);
      docs := docs + [Fold(log)];
      ApplyPerforms(Fold(log[..n]), Fold(log), log[n]);
      forall i | 0 <= i < |log| ensures Performs(docs[i], docs[i + 1], log[i]) {
        if i < n { assert log[..n][i] == log[i]; }
      }
    }
  }

  lemma KeyedUnion(changes: seq<Change>, pending: seq<Change>)
    requires Sorted(changes) && Sorted(pending)
    ensures Keyed(ToSet(pending) + ToSet(changes))
  {
    ToSetDomain(changes);
    ToSetDomain(pending);
  }

  /** What a replay of two lists goes through. */
  lemma UnionLog(c: Change, changes: seq<Change>, pending: seq<Change>)
    requires Sorted(changes) && Sorted(pending)
    ensures c in SortedLog(ToSet(pending) + ToSet(changes)) <==>
      c in changes || (c in pending && forall d :: d in changes ==> d.key != c.key)
  {
    KeyedUnion(changes, pending);
    SortedLogHas(ToSet(pending) + ToSet(changes), c);
    ToSetDomain(changes);
    ToSetDomain(pending);
    hide ToSet, SortedLog;
  }

  /** `Replayed` is such a replay. */
  lemma ReplayedIs(s: LinkState, changes: seq<Change>)
    requires Sorted(changes) && Sorted(s.pendingOps)
    ensures var after := Replayed(s, changes);
      ReplayedTo(s.latestKey, after.doc, after.latestKey, changes, s.pendingOps) && after.pendingOps == s.pendingOps
  {
    hide ToSet, Performs, Fold, Sorted, SortedLog, Max;
    var m := ToSet(s.pendingOps) + ToSet(changes);
    var log := SortedLog(m);
    KeyedUnion(changes, s.pendingOps);
    SortedLogSorts(m);
    SortedLogLast(m);
    var docs := FoldSteps(log);
    forall c ensures c in log <==> c in changes || (c in s.pendingOps && forall d :: d in changes ==> d.key != c.key) {
      UnionLog(c, changes, s.pendingOps);
    }
    assert Replays(log, docs, changes, s.pendingOps);
  }

  // ---------------------------------------------------------------- refinement

  /** The state stands for a set of known changes: the document is that set's sorted fold, the
      latest key its maximum, and the pending changes are an ascending part of it. */
  ghost predicate Represents(s: LinkState, known: ChangeSet) {
    && Keyed(known)
    && s.doc == Meaning(known)
    && s.latestKey == Latest(known)
    && Sorted(s.pendingOps)
    && forall c :: c in s.pendingOps ==> c.key in known && known[c.key] == c
  }

  /** The set of known changes after a delivery or a submission. */
  ghost function Learned(s: LinkState, known: ChangeSet, c: Change, ledger: seq<Change>): ChangeSet {
    if Less(c.key, s.latestKey) then ToSet(s.pendingOps) + ToSet(ledger) else known[c.key := c]
  }

  /** A key names the same change wherever it is found. */
  ghost predicate Agree(pending: seq<Change>, ledger: seq<Change>) {
    forall p, d :: p in pending && d in ledger && p.key == d.key ==> p == d
  }

  lemma ReplayRepresents(s: LinkState, ledger: seq<Change>)
    requires Sorted(s.pendingOps) && Sorted(ledger) && ledger != []
    requires Agree(s.pendingOps, ledger)
    ensures Represents(Replayed(s, ledger), ToSet(s.pendingOps) + ToSet(ledger))
  {
    ToSetDomain(s.pendingOps);
    ToSetDomain(ledger);
    LastIsMax(ledger);
    var m := ToSet(s.pendingOps) + ToSet(ledger);
    assert ledger[|ledger| - 1].key in m;
    forall c | c in s.pendingOps ensures c.key in m && m[c.key] == c {
      if c.key in ToSet(ledger) {
        assert ToSet(ledger)[c.key] in ledger;
      }
    }
  }

  /** The fast path is exact: applying a change in place gives what sorting and folding the larger
      set gives, unless the change is the latest one again and appends to an array. */
  lemma InPlaceExact(s: LinkState, known: ChangeSet, c: Change)
    requires Represents(s, known) && !Less(c.key, s.latestKey)
    requires c.key in known ==> known[c.key] == c
    ensures Apply(s.doc, c) == Meaning(known[c.key := c])
       <==> !(c.key in known && AppendsTo(Meaning(known - {c.key}), c))
    ensures Latest(known[c.key := c]) == c.key
  {
    StrictTotalOrder();
    if c.key in known {
      assert Max(known) == c.key;
      assert known[c.key := c] == known;
      ReapplyLatest(known);
    } else {
      assert forall k :: k in known ==> k == Latest(known) || Less(k, Latest(known));
      Extend(known, c);
    }
  }

  /** The change is the newest one known, met again, and appends to what came before it. */
  ghost predicate AppendsAgain(s: LinkState, known: ChangeSet, c: Change) {
    c.key in known && c.key == s.latestKey && AppendsTo(Meaning(known - {c.key}), c)
  }

  lemma RepeatableNeverAgain(s: LinkState, known: ChangeSet, c: Change)
    requires Repeatable(c)
    ensures !AppendsAgain(s, known, c)
  {
    RepeatableNeverAppends(Meaning(known - {c.key}), c);
  }

  /** Any keyed change, in or out of order, takes the state to the one that represents the larger set,
      unless it is the newest one and appends again; then it does not. */
  lemma IntegrateRepresents(s: LinkState, known: ChangeSet, c: Change, ledger: seq<Change>)
    requires Represents(s, known) && Sorted(ledger) && c in ledger
    requires c.key in known ==> known[c.key] == c
    requires Agree(s.pendingOps, ledger)
    ensures Represents(Integrated(s, c, ledger), Learned(s, known, c, ledger)) <==> !AppendsAgain(s, known, c)
  {
    if Less(c.key, s.latestKey) {
      Irreflexive(c.key);
      ReplayRepresents(s, ledger);
    } else {
      InPlaceExact(s, known, c);
      if c.key in known {
        StrictTotalOrder();
        assert c.key == s.latestKey;
      }
    }
  }

  lemma DeliverRepresents(s: LinkState, known: ChangeSet, c: Change, ledger: seq<Change>)
    requires Represents(s, known) && Sorted(ledger) && c in ledger
    requires c.key in known ==> known[c.key] == c
    requires Agree(s.pendingOps, ledger)
    ensures var after := if Acknowledges(s, c.key) then known else Learned(s, known, c, ledger);
      Represents(Delivered(s, c, ledger), after) <==> Acknowledges(s, c.key) || !AppendsAgain(s, known, c)
  {
    if Acknowledges(s, c.key) {
      assert forall p :: p in s.pendingOps[1..] ==> p in s.pendingOps;
    } else {
      IntegrateRepresents(s, known, c, ledger);
    }
  }

  /** A local change, even one that appends: its key is new and greater than those of the other pending
      changes, but it may be older than changes other devices have made. */
  lemma SubmitRepresents(s: LinkState, known: ChangeSet, c: Change, ledger: seq<Change>)
    requires Represents(s, known) && Sorted(ledger) && c in ledger
    requires c.key !in known && forall p :: p in s.pendingOps ==> Less(p.key, c.key)
    requires Agree(s.pendingOps, ledger)
    ensures var pending := s.(pendingOps := s.pendingOps + [c]);
      Represents(Submitted(s, c, ledger), Learned(pending, known, c, ledger))
  {
    var pending := s.(pendingOps := s.pendingOps + [c]);
    StrictTotalOrder();
    assert Sorted(pending.pendingOps);
    if Less(c.key, s.latestKey) {
      ToSetDomain(ledger);
      assert Agree(pending.pendingOps, ledger);
      ReplayRepresents(pending, ledger);
    } else {
      InPlaceExact(s, known, c);
    }
  }

  // ---------------------------------------------------------------- watchers

  const WATCH_ALL: nat := 0
  const ON_CHANGE: nat := 1

  /** `received` is the document the watcher was last told. */
  datatype Watcher = Watcher(conn: nat, received: Json)

  /** What the watchers have received after an operation of connection `src`. */
  function NotifyAll(watchers: seq<Watcher>, before: Json, after: Json, src: nat): (r: seq<Watcher>)
    ensures |r| == |watchers|
  {
    seq(|watchers|, i requires 0 <= i < |watchers| =>
      if before != after && watchers[i].conn != src then Watcher(watchers[i].conn, after) else watchers[i])
  }

  /** Everyone outside the connection has been given the document, and nobody else anything. */
  predicate Told(before: seq<Watcher>, after: seq<Watcher>, doc: Json, src: nat) {
    && |after| == |before|
    && forall i :: 0 <= i < |after| ==>
         after[i] == if before[i].conn != src then Watcher(before[i].conn, doc) else before[i]
  }

  /** A keyed change as the code takes it in: one that is not older than the newest known is performed on the
      document as it stands, an older one makes the history be replayed. If that changes the document, watchers
      hear of it, all but those of the connection that asked, or all clients' after a replay. */
  ghost predicate Integrates(before: LinkState, after: LinkState, watchers: seq<Watcher>, told: seq<Watcher>,
                             c: Change, src: nat, ledger: seq<Change>) {
    var older := Less(c.key, before.latestKey);
    && after.pendingOps == before.pendingOps
    && (older ==> ReplayedTo(before.latestKey, after.doc, after.latestKey, ledger, before.pendingOps))
    && (!older ==> after.latestKey == c.key && Performs(before.doc, after.doc, c))
    && if after.doc == before.doc then told == watchers
       else Told(watchers, told, after.doc, if older then ON_CHANGE else src)
  }

  /** Every watcher of all connections has the document. */
  ghost predicate AllFresh(watchers: seq<Watcher>, doc: Json) {
    forall i :: 0 <= i < |watchers| && watchers[i].conn == WATCH_ALL ==> watchers[i].received == doc
  }

  /** An operation keeps the watchers of all connections up to date exactly when it changes nothing, or is
      not the seeding of the link, or there are none of them. */
  lemma NotifyKeepsFresh(watchers: seq<Watcher>, before: Json, after: Json, src: nat)
    requires AllFresh(watchers, before)
    ensures AllFresh(NotifyAll(watchers, before, after, src), after) <==>
      before == after || src != WATCH_ALL || forall i :: 0 <= i < |watchers| ==> watchers[i].conn != WATCH_ALL
  {
    var now := NotifyAll(watchers, before, after, src);
    if before != after && src == WATCH_ALL {
      forall i | 0 <= i < |watchers| && watchers[i].conn == WATCH_ALL ensures now[i].received != after {
        assert now[i] == watchers[i];
      }
    }
  }

  /** What concerns watchers: one is registered, or an operation of a connection leaves a document. */
  datatype WatchEvent = Register(conn: nat) | Changed(doc: Json, src: nat)

  /** The watchers and the document after a run of a link that started with the given document. */
  function Watched(initial: Json, events: seq<WatchEvent>): (seq<Watcher>, Json) {
    if events == [] then ([], initial)
    else
      var (watchers, doc) := Watched(initial, events[..|events| - 1]);
      match events[|events| - 1]
      case Register(conn) => (watchers + [Watcher(conn, doc)], doc)
      case Changed(after, src) => (NotifyAll(watchers, doc, after, src), after)
  }

  function DocAt(initial: Json, events: seq<WatchEvent>, n: nat): Json
    requires n <= |events|
  {
    Watched(initial, events[..n]).1
  }

  /** The event changes the document, and was not asked for by the connection. */
  predicate ChangedByOther(initial: Json, events: seq<WatchEvent>, j: nat, conn: nat)
    requires j < |events|
  {
    events[j].Changed? && events[j].doc != DocAt(initial, events, j) && events[j].src != conn
  }

  /** Over any run: what a watcher has is what the document was at some point, since when nothing but its
      own connection has changed it. */
  lemma {:induction false} WatcherLag(initial: Json, events: seq<WatchEvent>, i: nat) returns (n: nat)
    requires i < |Watched(initial, events).0|
    ensures n <= |events| && Watched(initial, events).0[i].received == DocAt(initial, events, n)
    ensures forall j :: n <= j < |events| ==> !ChangedByOther(initial, events, j, Watched(initial, events).0[i].conn)
    decreases |events|
  {
    var last := |events| - 1;
    var init := events[..last];
    var (watchers, doc) := Watched(initial, init);
    assert events[..|events|] == events;
    if i == |watchers| {
      assert events[last].Register?;
      return |events|;
    }
    var conn := watchers[i].conn;
    if ChangedByOther(initial, events, last, conn) {
      return |events|;
    }
    n := WatcherLag(initial, init, i);
    assert init[..n] == events[..n];
    forall j | n <= j < |events| ensures !ChangedByOther(initial, events, j, conn) {
      if j < last {
        assert init[..j] == events[..j] && !ChangedByOther(initial, init, j, conn);
      }
    }
  }

  /** Over any run whose changes all come from clients or the ledger, a watcher of all connections is
      always up to date. */
  lemma {:induction false} WatchAllFresh(initial: Json, events: seq<WatchEvent>)
    requires forall j :: 0 <= j < |events| && events[j].Changed? ==> events[j].src != WATCH_ALL
    ensures AllFresh(Watched(initial, events).0, Watched(initial, events).1)
    decreases |events|
  {
    if events != [] {
      var init := events[..|events| - 1];
      WatchAllFresh(initial, init);
      var (watchers, doc) := Watched(initial, init);
      if events[|events| - 1].Changed? {
        NotifyKeepsFresh(watchers, doc, events[|events| - 1].doc, events[|events| - 1].src);
      }
    }
  }

  /** A change as it arrives: from a client without a key, from the ledger with one. */
  datatype LinkData = LinkData(key: Option<Key>, op: Op, path: Path, text: Text)

  /** The connection a change is attributed to: one that forces a reload counts as the ledger's. */
  function Source(key: Key, latestKey: Key, src: nat): nat {
    if Less(key, latestKey) then ON_CHANGE else src
  }

  // ---------------------------------------------------------------- the merge loop

  /** What the loop has merged so far, as a set. */
  ghost function SoFar(changes: seq<Change>, i: nat, pending: seq<Change>, j: nat): ChangeSet
    requires i <= |changes| && j <= |pending|
  {
    ToSet(pending[..j]) + ToSet(changes[..i])
  }

  /** `applied` is the ascending merge of the first `i` ledger changes and the first `j` pending ones,
      and everything not yet merged comes after it. */
  ghost predicate Merged(applied: seq<Change>, changes: seq<Change>, i: nat, pending: seq<Change>, j: nat)
    requires i <= |changes| && j <= |pending|
  {
    && Sorted(applied)
    && ToSet(applied) == SoFar(changes, i, pending, j)
    && (forall c, k :: c in applied && i <= k < |changes| ==> Less(c.key, changes[k].key))
    && (forall c, k :: c in applied && j <= k < |pending| ==> Less(c.key, pending[k].key))
  }

  /** The change the loop picks, and how far it moves each iterator. */
  function Pick(changes: seq<Change>, i: nat, pending: seq<Change>, j: nat): (r: (Change, nat, nat))
    requires i <= |changes| && j <= |pending| && (i < |changes| || j < |pending|)
  {
    if j == |pending| then (changes[i], i + 1, j)
    else if i == |changes| then (pending[j], i, j + 1)
    else if changes[i].key == pending[j].key then (changes[i], i + 1, j + 1)
    else if Less(changes[i].key, pending[j].key) then (changes[i], i + 1, j)
    else (pending[j], i, j + 1)
  }

  lemma MergeStart(changes: seq<Change>, pending: seq<Change>)
    ensures Merged([], changes, 0, pending, 0) && Fold([]) == Null
  {
  }

  lemma FoldLast(log: seq<Change>, c: Change)
    ensures Fold(log + [c]) == Apply(Fold(log), c)
  {
    assert (log + [c])[..|log|] == log;
  }

  lemma PrefixGrows(log: seq<Change>, i: nat)
    requires i < |log|
    ensures ToSet(log[..i + 1]) == ToSet(log[..i])[log[i].key := log[i]]
  {
    assert log[..i + 1][..i] == log[..i];
  }

  lemma MergeLedger(changes: seq<Change>, i: nat, pending: seq<Change>, j: nat)
    requires i < |changes| && j <= |pending|
    ensures SoFar(changes, i + 1, pending, j) == SoFar(changes, i, pending, j)[changes[i].key := changes[i]]
  {
    PrefixGrows(changes, i);
    hide ToSet;
  }

  lemma MergeBoth(changes: seq<Change>, i: nat, pending: seq<Change>, j: nat)
    requires i < |changes| && j < |pending| && changes[i].key == pending[j].key
    ensures SoFar(changes, i + 1, pending, j + 1) == SoFar(changes, i, pending, j)[changes[i].key := changes[i]]
  {
    PrefixGrows(changes, i);
    PrefixGrows(pending, j);
    hide ToSet;
  }

  lemma MergePending(changes: seq<Change>, i: nat, pending: seq<Change>, j: nat)
    requires i <= |changes| && j < |pending| && pending[j].key !in SoFar(changes, i, pending, j)
    ensures SoFar(changes, i, pending, j + 1) == SoFar(changes, i, pending, j)[pending[j].key := pending[j]]
  {
    PrefixGrows(pending, j);
    hide ToSet;
  }

  /** The change picked is the only one that comes in. */
  lemma MergeSets(changes: seq<Change>, i: nat, pending: seq<Change>, j: nat)
    requires i <= |changes| && j <= |pending| && (i < |changes| || j < |pending|)
    requires Pick(changes, i, pending, j).0.key !in SoFar(changes, i, pending, j)
    ensures var (c, i', j') := Pick(changes, i, pending, j);
      SoFar(changes, i', pending, j') == SoFar(changes, i, pending, j)[c.key := c]
  {
    hide SoFar;
    if i < |changes| { MergeLedger(changes, i, pending, j); }
    if i < |changes| && j < |pending| && changes[i].key == pending[j].key {
      MergeBoth(changes, i, pending, j);
    } else if j < |pending| && Pick(changes, i, pending, j).0 == pending[j] {
      MergePending(changes, i, pending, j);
    }
  }

  lemma PickIsNext(changes: seq<Change>, i: nat, pending: seq<Change>, j: nat)
    requires i <= |changes| && j <= |pending| && (i < |changes| || j < |pending|)
    requires Sorted(changes) && Sorted(pending)
    ensures var (c, i', j') := Pick(changes, i, pending, j);
      && (forall k :: i' <= k < |changes| ==> Less(c.key, changes[k].key))
      && (forall k :: j' <= k < |pending| ==> Less(c.key, pending[k].key))
  {
    StrictTotalOrder();
    if i < |changes| && j < |pending| {
      assert forall k :: i < k < |changes| ==> Less(changes[i].key, changes[k].key);
      assert forall k :: j < k < |pending| ==> Less(pending[j].key, pending[k].key);
    }
  }

  lemma AllBefore(applied: seq<Change>, c: Change, rest: seq<Change>, i: nat)
    requires forall d, k :: d in applied && i <= k < |rest| ==> Less(d.key, rest[k].key)
    requires forall k :: i <= k < |rest| ==> Less(c.key, rest[k].key)
    ensures forall d, k :: d in applied + [c] && i <= k < |rest| ==> Less(d.key, rest[k].key)
  {
    hide Less;
  }

  lemma MergeStep(applied: seq<Change>, changes: seq<Change>, i: nat, pending: seq<Change>, j: nat)
    requires i <= |changes| && j <= |pending| && (i < |changes| || j < |pending|)
    requires Sorted(changes) && Sorted(pending) && Merged(applied, changes, i, pending, j)
    ensures var (c, i', j') := Pick(changes, i, pending, j);
      Merged(applied + [c], changes, i', pending, j')
  {
    hide ToSet, Sorted, Less;
    var (c, i', j') := Pick(changes, i, pending, j);
    assert i <= i' && j <= j';
    assert forall d :: d in applied ==> Less(d.key, c.key);
    AppendNewest(applied, c);
    MergeSets(changes, i, pending, j);
    PickIsNext(changes, i, pending, j);
    hide Pick;
    AllBefore(applied, c, changes, i');
    AllBefore(applied, c, pending, j');
  }

  lemma MergeDone(applied: seq<Change>, changes: seq<Change>, pending: seq<Change>)
    requires Merged(applied, changes, |changes|, pending, |pending|)
    ensures var m := ToSet(pending) + ToSet(changes);
      && Fold(applied) == Meaning(m)
      && (applied == [] <==> m == map[])
      && (applied != [] ==> Latest(m) == applied[|applied| - 1].key)
  {
    assert changes[..|changes|] == changes && pending[..|pending|] == pending;
    SortedUnique(applied);
    if applied != [] { LastIsMax(applied); }
  }

  // ---------------------------------------------------------------- the implementation

  /** A change in terms of what can be read off the document at its path and at all others. */
  lemma ChangePlaces(doc: Json, c: Change)
    ensures var after := Apply(doc, c);
      && Performs(doc, after, c)
      && (c.op == ERASE ==> !Erasable(after, c.path))
      && (c.op != ERASE && c.text.Parsed? && !Appends(doc, c.path) ==>
           var placed := Current(after, c.path);
           if c.op == SET then placed == c.text.json else Combines(placed, Current(doc, c.path), c.text.json))
      && SameElsewhere(doc, after, c.path)
  {
    ApplyPerforms(doc, Apply(doc, c), c);
    EraseRemoves(doc, c.path);
    if c.text.Parsed? && !Appends(doc, c.path) {
      var merged := Merge(Current(doc, c.path), c.text.json);
      CurrentOfPut(doc, c.path, c.text.json);
      CurrentOfPut(doc, c.path, merged);
      CombinesUnique(merged, Current(doc, c.path), c.text.json);
    }
    hide Put, Erase, Performs, Appends, Merge, Current;
    forall other, v | Apart(c.path, other) ensures StandsAt(Apply(doc, c), other, v) <==> StandsAt(doc, other, v) {
      EraseKeeps(doc, c.path, other, v);
      if c.text.Parsed? {
        PutKeeps(doc, c.path, c.text.json, other, v);
        PutKeeps(doc, c.path, Merge(Current(doc, c.path), c.text.json), other, v);
      }
    }
  }

  class LinkImpl {
    var doc: Json
    var latestKey: Key
    var pendingOps: seq<Change>
    var initialData: Option<Text>
    var watchers: seq<Watcher>
    const keyGenerator: KeyGenerator

    function State(): LinkState
      reads this
    {
      LinkState(doc, latestKey, pendingOps)
    }

    ghost predicate Valid()
      reads this, keyGenerator
    {
      && WellFormed(keyGenerator.Last())
      && Sorted(pendingOps)
    }

    constructor (initialData: Option<Text>)
      ensures Valid() && fresh(keyGenerator)
      ensures State() == LinkState(Null, "", []) && watchers == [] && this.initialData == initialData
      ensures keyGenerator.Last() == Stamp(0, 0)
      ensures Represents(State(), map[])
    {
      doc, latestKey, pendingOps, watchers := Null, "", [], [];
      this.initialData := initialData;
      keyGenerator := new KeyGenerator();
    }

    /** The key the next local change gets. */
    function NextKey(clock: nat, random: nat): Key
      reads keyGenerator
    {
      KeyOf(Advance(keyGenerator.Last(), clock, random))
    }

    method ApplyChange(change: Change) returns (applied: bool)
      modifies this`doc
      ensures doc == Apply(old(doc), change)
      ensures applied <==>
        if change.op == ERASE then change.path != [] && !Missing(old(doc), change.path) else change.text.Parsed?
      ensures Performs(old(doc), doc, change)
      ensures change.op == ERASE ==> !Erasable(doc, change.path)
      ensures change.op == SET && applied && !Appends(old(doc), change.path) ==>
        Current(doc, change.path) == change.text.json
      ensures change.op == UPDATE && applied && !Appends(old(doc), change.path) ==>
        Combines(Current(doc, change.path), Current(old(doc), change.path), change.text.json)
      ensures change.op != ERASE && !change.text.Parsed? ==> doc == old(doc)
      ensures forall other, v :: Apart(change.path, other) ==>
        (StandsAt(doc, other, v) <==> StandsAt(old(doc), other, v))
    {
      ChangePlaces(doc, change);
      ErasableStands(doc, change.path);
      hide Put, Erase, Performs, Appends, Merge;
      match change.op
      case SET =>
        if !change.text.Parsed? { return false; }
        doc := Put(doc, change.path, change.text.json);
        return true;
      case UPDATE =>
        if !change.text.Parsed? { return false; }
        var merged, _ := MergeObject(Current(doc, change.path), change.text.json);
        doc := Put(doc, change.path, merged);
        return true;
      case ERASE =>
        applied := Erasable(doc, change.path);
        doc := Erase(doc, change.path);
    }

    /** Merges two ascending lists of changes and applies every key once, in order. */
    method Replay(changes: seq<Change>)
      requires Sorted(changes) && Sorted(pendingOps)
      modifies this`doc, this`latestKey
      ensures State() == Replayed(old(State()), changes)
      ensures ReplayedTo(old(latestKey), doc, latestKey, changes, pendingOps)
    {
      hide ReplayedTo, ToSet, Sorted, Fold, Less, Merged, Apply, Meaning, Latest;
      ReplayedIs(State(), changes);
      MergeStart(changes, pendingOps);
      doc := Null;
      var i, j := 0, 0;
      var last: Option<Change> := None;
      ghost var applied: seq<Change> := [];
      while i < |changes| || j < |pendingOps|
        invariant i <= |changes| && j <= |pendingOps|
        invariant Merged(applied, changes, i, pendingOps, j)
        invariant doc == Fold(applied) && latestKey == old(latestKey)
        invariant last == if applied == [] then None else Some(applied[|applied| - 1])
        decreases |changes| - i + |pendingOps| - j
      {
        var change: Change;
        MergeStep(applied, changes, i, pendingOps, j);
        ghost var picked := Pick(changes, i, pendingOps, j);
        if j == |pendingOps| {
          change := changes[i];
          i := i + 1;
        } else if i == |changes| {
          change := pendingOps[j];
          j := j + 1;
        } else if changes[i].key == pendingOps[j].key {
          change := changes[i];
          i, j := i + 1, j + 1;
        } else if Less(changes[i].key, pendingOps[j].key) {
          change := changes[i];
          i := i + 1;
        } else {
          change := pendingOps[j];
          j := j + 1;
        }
        assert picked == (change, i, j);
        var _ := ApplyChange(change);
        last := Some(change);
        FoldLast(applied, change);
        applied := applied + [change];
      }
      if last.Some? {
        latestKey := last.value.key;
      }
      MergeDone(applied, changes, pendingOps);
    }

    /** An empty ledger is seeded with the initial data, if it has any and that parses. */
    predicate Seeds(changes: seq<Change>)
      reads this
    {
      changes == [] && initialData.Some? && !initialData.value.Malformed?
    }

    /** The next key is greater than those of all pending changes, as it is for as long as the clock is
        orderly. */
    predicate KeyFollows(clock: nat, random: nat)
      reads this, keyGenerator
    {
      FollowsAll(pendingOps, NextKey(clock, random))
    }

    /** Reloading from what the ledger holds; an empty ledger is seeded with the initial data. */
    method Reload(changes: seq<Change>, clock: nat, random: nat)
      requires Valid() && Sorted(changes)
      requires Seeds(changes) ==> clock < UINT64 && random < UINT64 && KeyFollows(clock, random)
      modifies this, keyGenerator
      ensures Valid() && initialData == if changes == [] then None else old(initialData)
      ensures !old(Seeds(changes)) ==> unchanged(keyGenerator) && watchers == old(watchers)
      ensures changes != [] ==>
        && State() == Replayed(old(State()), changes) && pendingOps == old(pendingOps)
        && ReplayedTo(old(latestKey), doc, latestKey, changes, old(pendingOps))
      ensures changes == [] && !old(Seeds(changes)) ==> State() == old(State())
      ensures old(Seeds(changes)) ==>
        var c := Change(old(NextKey(clock, random)), SET, [], old(initialData).value);
        && State() == Submitted(old(State()), c, [c])
        && keyGenerator.Last() == Advance(old(keyGenerator.Last()), clock, random)
        && watchers == NotifyAll(old(watchers), old(doc), doc, Source(c.key, old(latestKey), WATCH_ALL))
      decreases if changes == [] then 2 else 0, 0
    {
      if changes == [] {
        if initialData.Some? {
          var data := LinkData(None, SET, [], initialData.value);
          initialData := None;
          var ledger := [Change(NextKey(clock, random), SET, [], data.text)];
          var write := IncrementalChange(data, WATCH_ALL, clock, random, ledger);
        }
      } else {
        hide ReplayedTo, Performs;
        Replay(changes);
      }
    }

    /** `ledger` is what a read of the ledger would give in this operation, after its own write.
        Returns the change to write to the ledger, if any. */
    method IncrementalChange(data: LinkData, src: nat, clock: nat, random: nat, ledger: seq<Change>)
      returns (write: Option<Change>)
      requires Valid() && Sorted(ledger)
      requires data.key.Some? ==> src == ON_CHANGE
      requires data.key.Some? ==> Change(data.key.value, data.op, data.path, data.text) in ledger
      requires data.key.None? && !data.text.Malformed? ==>
        && clock < UINT64 && random < UINT64 && KeyFollows(clock, random)
        && Change(NextKey(clock, random), data.op, data.path, data.text) in ledger
      modifies this, keyGenerator
      ensures Valid() && initialData == old(initialData)
      ensures data.key.Some? ==>
        && write == None && unchanged(keyGenerator)
        && State() == Delivered(old(State()), Change(data.key.value, data.op, data.path, data.text), ledger)
      ensures data.key.Some? && old(pendingOps) != [] && old(pendingOps)[0].key == data.key.value ==>
        && pendingOps == old(pendingOps)[1..] && doc == old(doc)
        && latestKey == old(latestKey) && watchers == old(watchers)
      ensures data.key.Some? && !(old(pendingOps) != [] && old(pendingOps)[0].key == data.key.value) ==>
        var c := Change(data.key.value, data.op, data.path, data.text);
        Integrates(old(State()), State(), old(watchers), watchers, c, src, ledger)
      ensures data.key.None? && data.text.Malformed? ==>
        write == None && State() == old(State()) && unchanged(keyGenerator)
      ensures data.key.None? && !data.text.Malformed? ==>
        && keyGenerator.Last() == Advance(old(keyGenerator.Last()), clock, random)
        && write == Some(Change(old(NextKey(clock, random)), data.op, data.path, data.text))
        && State() == Submitted(old(State()), write.value, ledger)
      ensures data.key.None? && !data.text.Malformed? ==>
        var queued := LinkState(old(doc), old(latestKey), old(pendingOps) + [write.value]);
        Integrates(queued, State(), old(watchers), watchers, write.value, src, ledger)
      ensures var key := data.key.GetOr(old(NextKey(clock, random)));
        watchers == NotifyAll(old(watchers), old(doc), doc, Source(key, old(latestKey), src))
      decreases 1
    {
      hide Integrates, Less, Performs, ReplayedTo, KeyOf, Advance;
      write := None;
      var key: Key;
      if data.key.Some? {
        key := data.key.value;
        if pendingOps != [] && key == pendingOps[0].key {
          pendingOps := pendingOps[1..];
          return;
        }
      } else if data.text.Malformed? {
        return;
      } else {
        write := Enqueue(data, clock, random);
        key := write.value.key;
      }
      ApplyOrReload(Change(key, data.op, data.path, data.text), src, ledger);
    }

    /** Gives a local change its key and keeps it until the ledger confirms it. The pending changes stay in
        order if and only if the key follows those of all others. */
    method Enqueue(data: LinkData, clock: nat, random: nat) returns (write: Option<Change>)
      requires Valid() && clock < UINT64 && random < UINT64
      modifies this`pendingOps, keyGenerator
      ensures Valid() <==> old(KeyFollows(clock, random))
      ensures keyGenerator.Last() == Advance(old(keyGenerator.Last()), clock, random)
      ensures write == Some(Change(old(NextKey(clock, random)), data.op, data.path, data.text))
      ensures pendingOps == old(pendingOps) + [write.value]
    {
      hide Sorted, Advance, KeyOf, Less;
      var key := keyGenerator.Create(clock, random);
      write := Some(Change(key, data.op, data.path, data.text));
      SortedOneMore(pendingOps, write.value);
      pendingOps := pendingOps + [write.value];
    }

    method ApplyOrReload(change: Change, src: nat, ledger: seq<Change>)
      requires Valid() && Sorted(ledger) && change in ledger
      modifies this, keyGenerator
      ensures Valid() && initialData == old(initialData) && unchanged(keyGenerator)
      ensures State() == Integrated(old(State()), change, ledger)
      ensures watchers == NotifyAll(old(watchers), old(doc), doc, Source(change.key, old(latestKey), src))
      ensures Integrates(old(State()), State(), old(watchers), watchers, change, src, ledger)
      decreases 0, 1
    {
      hide ReplayedTo, Performs, Told, Less;
      var oldJson := doc;
      if Less(change.key, latestKey) {
        Reload(ledger, 0, 0);
        NotifyIfChanged(oldJson, ON_CHANGE);
      } else {
        var applied := ApplyChange(change);
        latestKey := change.key;
        NotifyIfChanged(oldJson, src);
      }
    }

    /** The end of every change: watchers hear of it when the document differs from before. */
    method NotifyIfChanged(oldJson: Json, src: nat)
      modifies this`watchers
      ensures watchers == NotifyAll(old(watchers), oldJson, doc, src)
      ensures if oldJson == doc then watchers == old(watchers) else Told(old(watchers), watchers, doc, src)
    {
      if oldJson != doc {
        NotifyWatchers(src);
      }
    }

    method NotifyWatchers(src: nat)
      modifies this`watchers
      ensures Told(old(watchers), watchers, doc, src)
    {
      var i := 0;
      while i < |watchers|
        invariant 0 <= i <= |watchers| == |old(watchers)|
        invariant forall k :: i <= k < |watchers| ==> watchers[k] == old(watchers)[k]
        invariant forall k :: 0 <= k < i ==>
          watchers[k] == if old(watchers)[k].conn != src then Watcher(old(watchers)[k].conn, doc) else old(watchers)[k]
      {
        if watchers[i].conn != src {
          watchers := watchers[i := Watcher(watchers[i].conn, doc)];
        }
        i := i + 1;
      }
    }

    /** A new watcher is told the current document at once. */
    method Watch(conn: nat)
      modifies this`watchers
      ensures watchers == old(watchers) + [Watcher(conn, doc)]
    {
      watchers := watchers + [Watcher(conn, doc)];
    }
  }
}
