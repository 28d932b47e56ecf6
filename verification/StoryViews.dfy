/** The order in which a story's module views reach the story shell: a view is only sent once the view it
    is anchored to is taken to be known there. A story that is stopped and started again gets a new shell,
    while the record of the views sent is kept. */
module StoryViews {
  import opened Options

  /** A module path; a running module never has the empty one. */
  type ModulePath = seq<string>

  /** A running module. Modules embedded in another have no surface relation. */
  datatype Connection = Connection(path: ModulePath, surface: Option<int>)

  /** A ConnectView call to the story shell; root views have no anchor. */
  datatype Shown = Shown(view: ModulePath, anchor: Option<ModulePath>, owner: int, surface: Option<int>)

  predicate NoEmptyPath(conns: seq<Connection>) {
    forall c :: c in conns ==> c.path != []
  }

  function Parent(path: ModulePath): ModulePath {
    if path == [] then [] else path[..|path| - 1]
  }

  /** The first connection with the path. */
  predicate FirstAt(conns: seq<Connection>, path: ModulePath, i: nat) {
    i < |conns| && conns[i].path == path && forall j :: 0 <= j < i ==> conns[j].path != path
  }

  /** The module runs, embedded in another. */
  predicate Embedded(conns: seq<Connection>, path: ModulePath) {
    exists i :: 0 <= i < |conns| && FirstAt(conns, path, i) && conns[i].surface.None?
  }

  /** The module runs and has a surface relation. */
  predicate Surfaced(conns: seq<Connection>, path: ModulePath) {
    exists i :: 0 <= i < |conns| && FirstAt(conns, path, i) && conns[i].surface.Some?
  }

  function Find(conns: seq<Connection>, path: ModulePath): (r: Option<Connection>)
    ensures r.Some? ==> r.value in conns && r.value.path == path
  {
    if conns == [] then None
    else if conns[0].path == path then Some(conns[0])
    else Find(conns[1..], path)
  }

  lemma {:induction false} FindIsFirst(conns: seq<Connection>, path: ModulePath)
    ensures Find(conns, path).None? <==> forall c :: c in conns ==> c.path != path
    ensures Find(conns, path).Some? ==>
      exists i :: 0 <= i < |conns| && FirstAt(conns, path, i) && conns[i] == Find(conns, path).value
  {
    if conns != [] {
      FindIsFirst(conns[1..], path);
      if conns[0].path == path {
        assert FirstAt(conns, path, 0);
      } else if Find(conns, path).Some? {
        var i :| 0 <= i < |conns| - 1 && FirstAt(conns[1..], path, i) && conns[1..][i] == Find(conns, path).value;
        assert FirstAt(conns, path, i + 1);
      }
    }
  }

  lemma FoundRelation(conns: seq<Connection>, path: ModulePath)
    ensures Embedded(conns, path) <==> Find(conns, path).Some? && Find(conns, path).value.surface.None?
    ensures Surfaced(conns, path) <==> Find(conns, path).Some? && Find(conns, path).value.surface.Some?
  {
    FindIsFirst(conns, path);
    hide Find;
    assert forall i, j :: FirstAt(conns, path, i) && FirstAt(conns, path, j) ==> i == j;
  }

  /** Going up from `path`: the first module that is not embedded, if only running ones are met. */
  function Ascend(conns: seq<Connection>, path: ModulePath): (r: Option<ModulePath>)
    decreases |path|
  {
    if Surfaced(conns, path) then Some(path)
    else if Embedded(conns, path) && path != [] then Ascend(conns, Parent(path))
    else None
  }

  function Anchor(conns: seq<Connection>, path: ModulePath): Option<ModulePath> {
    Ascend(conns, Parent(path))
  }

  /** `a` is the nearest proper ancestor of `path` with a surface relation, and every module between
      them is running and embedded. */
  ghost predicate IsAnchor(conns: seq<Connection>, path: ModulePath, a: ModulePath) {
    && |a| < |path| && a == path[..|a|]
    && Surfaced(conns, a)
    && forall n :: |a| < n < |path| ==> Embedded(conns, path[..n])
  }

  lemma {:induction false} AscendFinds(conns: seq<Connection>, path: ModulePath, a: ModulePath)
    ensures Ascend(conns, path) == Some(a) <==>
      && |a| <= |path| && a == path[..|a|] && Surfaced(conns, a)
      && forall n :: |a| < n <= |path| ==> Embedded(conns, path[..n])
    decreases |path|
  {
    assert path[..|path|] == path;
    if Surfaced(conns, path) {
      assert !Embedded(conns, path);
    } else if Embedded(conns, path) && path != [] {
      var up := Parent(path);
      AscendFinds(conns, up, a);
      assert forall n :: 0 <= n <= |up| ==> up[..n] == path[..n];
    }
  }

  lemma AnchorIsNearest(conns: seq<Connection>, path: ModulePath, a: ModulePath)
    requires path != []
    ensures Anchor(conns, path) == Some(a) <==> IsAnchor(conns, path, a)
  {
    var up := Parent(path);
    AscendFinds(conns, up, a);
    assert forall n :: 0 <= n <= |up| ==> up[..n] == path[..n];
  }

  lemma AnchorIsShorter(conns: seq<Connection>, path: ModulePath)
    requires path != [] && Anchor(conns, path).Some?
    ensures |Anchor(conns, path).value| < |path|
  {
    AnchorIsNearest(conns, path, Anchor(conns, path).value);
  }

  // ---------------------------------------------------------------- the fixpoint

  /** A waiting view of a running module whose chain of waiting anchors ends at a shown view. */
  ghost predicate Connectable(
      conns: seq<Connection>, waiting: set<ModulePath>, shown: set<ModulePath>, path: ModulePath)
    decreases |path|
  {
    && path in waiting && path != [] && Find(conns, path).Some?
    && Anchor(conns, path).Some?
    && (AnchorIsShorter(conns, path);
        var a := Anchor(conns, path).value;
        a in shown || Connectable(conns, waiting, shown, a))
  }

  ghost predicate Ready(conns: seq<Connection>, shown: set<ModulePath>, path: ModulePath) {
    Find(conns, path).Some? && Anchor(conns, path).Some? && Anchor(conns, path).value in shown
  }

  /** Closed under showing: no waiting view is ready that is not in the set. */
  ghost predicate Closed(conns: seq<Connection>, waiting: set<ModulePath>, s: set<ModulePath>) {
    forall path :: path in waiting && Ready(conns, s, path) ==> path in s
  }

  /** What ends up shown: the shown views and the connectable ones. */
  ghost function Fixpoint(conns: seq<Connection>, waiting: set<ModulePath>, shown: set<ModulePath>): set<ModulePath> {
    shown + set p | p in waiting && Connectable(conns, waiting, shown, p)
  }

  lemma {:induction false} ConnectableInClosed(
      conns: seq<Connection>, waiting: set<ModulePath>, shown: set<ModulePath>, s: set<ModulePath>, p: ModulePath)
    requires shown <= s && Closed(conns, waiting, s) && Connectable(conns, waiting, shown, p)
    ensures p in s
    decreases |p|
  {
    AnchorIsShorter(conns, p);
    var a := Anchor(conns, p).value;
    if a !in shown { ConnectableInClosed(conns, waiting, shown, s, a); }
    assert Ready(conns, s, p);
  }

  /** That is the least set that holds the shown views and is closed. */
  lemma FixpointIsLeast(conns: seq<Connection>, waiting: set<ModulePath>, shown: set<ModulePath>)
    requires [] !in waiting
    ensures shown <= Fixpoint(conns, waiting, shown) && Closed(conns, waiting, Fixpoint(conns, waiting, shown))
    ensures forall s :: shown <= s && Closed(conns, waiting, s) ==> Fixpoint(conns, waiting, shown) <= s
  {
    forall s, p | shown <= s && Closed(conns, waiting, s) && p in Fixpoint(conns, waiting, shown) ensures p in s {
      if p !in shown { ConnectableInClosed(conns, waiting, shown, s, p); }
    }
  }

  /** Showing a view that is ready changes nothing about what can be shown in the end. */
  lemma FixpointAfterShowing(
      conns: seq<Connection>, waiting: set<ModulePath>, shown: set<ModulePath>, more: set<ModulePath>)
    requires [] !in waiting && shown <= more <= Fixpoint(conns, waiting, shown)
    ensures Fixpoint(conns, waiting, more) == Fixpoint(conns, waiting, shown)
  {
    FixpointIsLeast(conns, waiting, shown);
    FixpointIsLeast(conns, waiting, more);
    assert Closed(conns, waiting, Fixpoint(conns, waiting, more)) && shown <= Fixpoint(conns, waiting, more);
    assert Closed(conns, waiting, Fixpoint(conns, waiting, shown)) && more <= Fixpoint(conns, waiting, shown);
  }

  /** The views of the list can be shown one after the other, and then none is left to show. */
  ghost predicate ShowsAll(
      conns: seq<Connection>, waiting: set<ModulePath>, shown: set<ModulePath>, order: seq<ModulePath>)
    decreases |order|
  {
    if order == [] then Closed(conns, waiting, shown)
    else
      && order[0] in waiting && Ready(conns, shown, order[0])
      && ShowsAll(conns, waiting, shown + {order[0]}, order[1..])
  }

  lemma ReadyGrows(conns: seq<Connection>, shown: set<ModulePath>, more: set<ModulePath>, path: ModulePath)
    requires Ready(conns, shown, path) && shown <= more
    ensures Ready(conns, more, path)
  {
  }

  /** In whatever order ready views are shown, once none is left the same set has been reached. */
  lemma {:induction false} AnyOrderReaches(
      conns: seq<Connection>, waiting: set<ModulePath>, shown: set<ModulePath>, order: seq<ModulePath>)
    requires [] !in waiting && ShowsAll(conns, waiting, shown, order)
    ensures shown + (set p | p in order) == Fixpoint(conns, waiting, shown)
    decreases |order|
  {
    hide Fixpoint, Ready;
    FixpointIsLeast(conns, waiting, shown);
    if order != [] {
      var more := shown + {order[0]};
      assert order == [order[0]] + order[1..];
      ReadyGrows(conns, shown, Fixpoint(conns, waiting, shown), order[0]);
      FixpointAfterShowing(conns, waiting, shown, more);
      AnyOrderReaches(conns, waiting, more, order[1..]);
    }
  }

  lemma {:induction false} ConnectableGrows(
      conns: seq<Connection>, waiting: set<ModulePath>, shown: set<ModulePath>, more: set<ModulePath>, path: ModulePath)
    requires Connectable(conns, waiting, shown, path) && shown <= more
    ensures Connectable(conns, waiting, more, path)
    decreases |path|
  {
    AnchorIsShorter(conns, path);
    var a := Anchor(conns, path).value;
    if a !in shown { ConnectableGrows(conns, waiting, shown, more, a); }
  }

  /** A waiting view whose anchor ends up shown is connectable. */
  lemma ReadyIsConnectable(conns: seq<Connection>, waiting: set<ModulePath>, shown: set<ModulePath>, path: ModulePath)
    requires path in waiting && path != []
    ensures Connectable(conns, waiting, shown, path) <==> Ready(conns, Fixpoint(conns, waiting, shown), path)
  {
  }

  // ---------------------------------------------------------------- the order of calls

  ghost predicate ShownBefore(calls: seq<Shown>, n: nat, view: ModulePath)
    requires n <= |calls|
  {
    exists j :: 0 <= j < n && calls[j].view == view
  }

  /** Every call for a view with an anchor follows a call for that anchor. */
  ghost predicate AnchorsFirst(calls: seq<Shown>) {
    forall i :: 0 <= i < |calls| && calls[i].anchor.Some? ==> ShownBefore(calls, i, calls[i].anchor.value)
  }

  ghost function Views(calls: seq<Shown>): set<ModulePath> {
    set i | 0 <= i < |calls| :: calls[i].view
  }

  lemma OneMoreCall(calls: seq<Shown>, c: Shown)
    requires AnchorsFirst(calls) && (c.anchor.Some? ==> c.anchor.value in Views(calls))
    ensures AnchorsFirst(calls + [c]) && Views(calls + [c]) == Views(calls) + {c.view}
  {
    var longer := calls + [c];
    forall i | 0 <= i < |longer| && longer[i].anchor.Some? ensures ShownBefore(longer, i, longer[i].anchor.value) {
      if i < |calls| {
        assert ShownBefore(calls, i, calls[i].anchor.value);
        var j :| 0 <= j < i && calls[j].view == calls[i].anchor.value;
        assert longer[j] == calls[j];
      } else {
        var j :| 0 <= j < |calls| && calls[j].view == c.anchor.value;
        assert longer[j] == calls[j];
      }
    }
    assert longer[|calls|] == c;
    forall v | v in Views(calls) ensures v in Views(longer) {
      var j :| 0 <= j < |calls| && calls[j].view == v;
      assert longer[j] == calls[j];
    }
  }

  /** The calls made for waiting views: each view once, with its owner, its anchor and its relation. */
  ghost predicate Describes(calls: seq<Shown>, conns: seq<Connection>, waiting: map<ModulePath, int>) {
    && (forall c :: c in calls ==>
         && c.view in waiting && c.owner == waiting[c.view]
         && c.anchor == Anchor(conns, c.view)
         && Find(conns, c.view).Some? && c.surface == Find(conns, c.view).value.surface)
    && (forall i, j :: 0 <= i < j < |calls| ==> calls[i].view != calls[j].view)
  }

  lemma ViewsConcat(a: seq<Shown>, b: seq<Shown>)
    ensures Views(a + b) == Views(a) + Views(b)
  {
    forall v ensures v in Views(a + b) <==> v in Views(a) || v in Views(b) {
      if v in Views(a) {
        var i :| 0 <= i < |a| && a[i].view == v;
        assert (a + b)[i].view == v;
      }
      if v in Views(b) {
        var i :| 0 <= i < |b| && b[i].view == v;
        assert (a + b)[|a| + i].view == v;
      }
    }
  }

  lemma ViewsOneMore(calls: seq<Shown>, c: Shown)
    ensures Views(calls + [c]) == Views(calls) + {c.view}
  {
    ViewsConcat(calls, [c]);
    assert Views([c]) == {c.view} by { assert [c][0].view in Views([c]); }
  }

  lemma AnchorsFirstOneMore(calls: seq<Shown>, c: Shown)
    ensures AnchorsFirst(calls + [c]) <==> AnchorsFirst(calls) && (c.anchor.Some? ==> c.anchor.value in Views(calls))
    ensures Views(calls + [c]) == Views(calls) + {c.view}
  {
    var longer := calls + [c];
    ViewsOneMore(calls, c);
    if AnchorsFirst(calls) && (c.anchor.Some? ==> c.anchor.value in Views(calls)) {
      OneMoreCall(calls, c);
    }
    if AnchorsFirst(longer) {
      forall i | 0 <= i < |calls| && calls[i].anchor.Some? ensures ShownBefore(calls, i, calls[i].anchor.value) {
        assert longer[i] == calls[i] && ShownBefore(longer, i, longer[i].anchor.value);
        var j :| 0 <= j < i && longer[j].view == calls[i].anchor.value;
        assert calls[j] == longer[j];
      }
      if c.anchor.Some? {
        assert longer[|calls|] == c && ShownBefore(longer, |calls|, c.anchor.value);
        var j :| 0 <= j < |calls| && longer[j].view == c.anchor.value;
        assert calls[j].view == c.anchor.value;
      }
    }
  }

  /** Every view that can be shown can be so without counting views that only an earlier shell was sent:
      `shown` are all views taken to be known, `sent` those the current shell has been sent. */
  ghost predicate NeedsNoLeftover(
      conns: seq<Connection>, waiting: set<ModulePath>, shown: set<ModulePath>, sent: set<ModulePath>) {
    forall p :: p in waiting && Connectable(conns, waiting, shown, p) ==> Connectable(conns, waiting, sent, p)
  }

  /** A pass keeps anchors first at the current shell. */
  ghost predicate OrderlyPass(
      calls: seq<Shown>, conns: seq<Connection>, waiting: set<ModulePath>, shown: set<ModulePath>) {
    AnchorsFirst(calls) && NeedsNoLeftover(conns, waiting, shown, Views(calls))
  }

  /** A path comes after those it extends, as it does in a map keyed by the joined path. */
  predicate ComesFirst(path: ModulePath, left: set<ModulePath>) {
    path in left && forall p :: p in left ==> !(p < path)
  }

  lemma {:induction false} SomeComesFirst(left: set<ModulePath>, path: ModulePath)
    requires path in left
    ensures exists p :: ComesFirst(p, left)
    decreases |path|
  {
    if !ComesFirst(path, left) {
      var p :| p in left && p < path;
      SomeComesFirst(left, p);
    }
  }

  ghost function Among(
      conns: seq<Connection>, waiting: set<ModulePath>, shown: set<ModulePath>, paths: set<ModulePath>): set<ModulePath>
  {
    set p | p in paths && Connectable(conns, waiting, shown, p)
  }

  ghost predicate AllConnectable(
      conns: seq<Connection>, waiting: set<ModulePath>, shown: set<ModulePath>, paths: set<ModulePath>) {
    forall p :: p in paths ==> Connectable(conns, waiting, shown, p)
  }

  lemma OneMoreAmong(
      conns: seq<Connection>, waiting: set<ModulePath>, shown: set<ModulePath>, paths: set<ModulePath>, p: ModulePath)
    ensures Among(conns, waiting, shown, paths + {p})
         == Among(conns, waiting, shown, paths) + if Connectable(conns, waiting, shown, p) then {p} else {}
    ensures AllConnectable(conns, waiting, shown, paths + {p})
       <==> AllConnectable(conns, waiting, shown, paths) && Connectable(conns, waiting, shown, p)
  {
    hide Connectable;
  }

  /** What extends a path that is left is left. */
  ghost predicate HasExtensions(left: set<ModulePath>, waiting: set<ModulePath>) {
    forall p, q :: p in left && q in waiting && p < q ==> q in left
  }

  lemma TakeFirst(left: set<ModulePath>, waiting: set<ModulePath>, key: ModulePath)
    requires HasExtensions(left, waiting) && ComesFirst(key, left)
    ensures HasExtensions(left - {key}, waiting)
  {
  }

  /** One pass in that order, up to `left`: what it has shown, and whether anchors have come first. */
  ghost predicate Passing(
      conns: seq<Connection>, waiting: set<ModulePath>, shown: set<ModulePath>, sent: set<ModulePath>,
      left: set<ModulePath>, added: set<ModulePath>, ordered: bool)
  {
    && left <= waiting
    && HasExtensions(left, waiting)
    && added == Among(conns, waiting, shown, waiting - left)
    && (ordered <==> AllConnectable(conns, waiting, sent, added))
  }

  lemma ShownByTurn(conns: seq<Connection>, waiting: set<ModulePath>, shown: set<ModulePath>, sent: set<ModulePath>,
                    left: set<ModulePath>, added: set<ModulePath>, ordered: bool, key: ModulePath)
    requires [] !in waiting && sent <= shown && Passing(conns, waiting, shown, sent, left, added, ordered)
    requires ComesFirst(key, left)
    ensures Connectable(conns, waiting, shown, key) <==> Ready(conns, shown + added, key)
    ensures Ready(conns, shown + added, key) && ordered ==>
      (Connectable(conns, waiting, sent, key) <==> Anchor(conns, key).value in sent + added)
  {
    if Find(conns, key).Some? && Anchor(conns, key).Some? {
      var a := Anchor(conns, key).value;
      AnchorIsShorter(conns, key);
      AnchorIsNearest(conns, key, a);
      assert a < key && a !in left;
      hide Find, Anchor;
      if Connectable(conns, waiting, sent, a) { ConnectableGrows(conns, waiting, sent, shown, a); }
    }
  }

  /** In that order a waiting view is connectable exactly when its anchor has been shown by its turn; and it
      is so without leftovers exactly when the current shell has been sent the anchor by then. */
  lemma PassStep(conns: seq<Connection>, waiting: set<ModulePath>, shown: set<ModulePath>, sent: set<ModulePath>,
                 left: set<ModulePath>, added: set<ModulePath>, ordered: bool, key: ModulePath)
    requires [] !in waiting && sent <= shown && Passing(conns, waiting, shown, sent, left, added, ordered)
    requires ComesFirst(key, left)
    ensures Connectable(conns, waiting, shown, key) <==> Ready(conns, shown + added, key)
    ensures !Ready(conns, shown + added, key) ==> Passing(conns, waiting, shown, sent, left - {key}, added, ordered)
    ensures Ready(conns, shown + added, key) ==>
      Passing(conns, waiting, shown, sent, left - {key}, added + {key},
              ordered && Anchor(conns, key).value in sent + added)
  {
    ShownByTurn(conns, waiting, shown, sent, left, added, ordered, key);
    TakeFirst(left, waiting, key);
    OneMoreAmong(conns, waiting, shown, waiting - left, key);
    OneMoreAmong(conns, waiting, sent, added, key);
    assert waiting - (left - {key}) == (waiting - left) + {key};
    hide Connectable, Ready, Anchor, Find, HasExtensions, ComesFirst, Among, AllConnectable;
  }

  lemma PassDone(conns: seq<Connection>, waiting: set<ModulePath>, shown: set<ModulePath>, sent: set<ModulePath>,
                 added: set<ModulePath>, ordered: bool)
    requires [] !in waiting && Passing(conns, waiting, shown, sent, {}, added, ordered)
    ensures shown + added == Fixpoint(conns, waiting, shown)
    ensures ordered <==> NeedsNoLeftover(conns, waiting, shown, sent)
    ensures forall p :: p in waiting - added ==> !Ready(conns, shown + added, p)
  {
    forall p | p in waiting - added ensures !Ready(conns, shown + added, p) {
      ReadyIsConnectable(conns, waiting, shown, p);
    }
  }

  /** What processing does: every view that can be shown is, once, with its owner, its anchor and its
      relation; none that is ready waits any longer; and anchors come first at the current shell exactly when
      they did before and no leftover is needed. */
  ghost predicate Processed(
      conns: seq<Connection>, waiting: map<ModulePath, int>, shown: set<ModulePath>, earlier: seq<Shown>,
      left: map<ModulePath, int>, now: set<ModulePath>, calls: seq<Shown>) {
    && |earlier| <= |calls| && calls[..|earlier|] == earlier
    && Describes(calls[|earlier|..], conns, waiting)
    && now == Fixpoint(conns, waiting.Keys, shown)
    && now == shown + Views(calls[|earlier|..])
    && left == waiting - Views(calls[|earlier|..])
    && (forall p :: p in left ==> !Ready(conns, now, p))
    && (AnchorsFirst(calls) <==> OrderlyPass(earlier, conns, waiting.Keys, shown))
  }

  datatype StoryState = INITIAL | STARTING | RUNNING | DONE | STOPPED | ERROR
  datatype ModuleState = ModuleStarting | ModuleRunning | ModuleUnlinked | ModuleDone | ModuleStopped | ModuleError

  predicate IsRunning(state: StoryState) {
    state in {STARTING, RUNNING, DONE}
  }

  /** Sending a view keeps anchors first at the current shell: the shell has been sent the view's anchor,
      and what can follow the view needs no leftover either. */
  ghost predicate Orderly(calls: seq<Shown>, anchor: Option<ModulePath>, path: ModulePath,
                          conns: seq<Connection>, waiting: set<ModulePath>, shown: set<ModulePath>) {
    && AnchorsFirst(calls)
    && (anchor.Some? ==> anchor.value in Views(calls))
    && NeedsNoLeftover(conns, waiting, shown + {path}, Views(calls) + {path})
  }

  lemma OrderlyWithoutLeftovers(conns: seq<Connection>, waiting: set<ModulePath>, shown: set<ModulePath>)
    ensures NeedsNoLeftover(conns, waiting, shown, shown)
  {
  }

  // ---------------------------------------------------------------- a second shell

  /** Only the views of two modules run, one extending the other, while the root they hang under does not. */
  lemma OrphanedPair(a: string, b: string, c: string)
    ensures var conns := [Connection([a, b], Some(0)), Connection([a, b, c], Some(0))];
      && Find(conns, [a]) == None && Find(conns, [a, b]) == Some(conns[0]) && Find(conns, [a, b, c]) == Some(conns[1])
      && Anchor(conns, [a, b]) == None && Anchor(conns, [a, b, c]) == Some([a, b])
  {
    var conns := [Connection([a, b], Some(0)), Connection([a, b, c], Some(0))];
    assert conns[1..] == [conns[1]] && conns[1..][1..] == [];
    assert |[a]| == 1 && |[a, b]| == 2 && |[a, b, c]| == 3;
    assert Parent([a, b]) == [a] && Parent([a, b, c]) == [a, b];
  }

  /** When that pair runs and both views above it are left over from an earlier shell, the lower view needs
      a leftover: it is sent although its anchor is not, and cannot be. */
  lemma LeftoverNeeded(a: string, b: string, c: string, shown: set<ModulePath>)
    requires [a, b] in shown
    ensures var conns := [Connection([a, b], Some(0)), Connection([a, b, c], Some(0))];
      && Ready(conns, shown, [a, b, c]) && !Ready(conns, shown, [a, b])
      && forall waiting :: !Orderly([], Some([a, b]), [a, b, c], conns, waiting, shown)
  {
    OrphanedPair(a, b, c);
    assert Views([]) == {};
  }

  lemma OneRuns(path: ModulePath)
    ensures Find([Connection(path, Some(0))], path) == Some(Connection(path, Some(0)))
  {
  }

  lemma OrphanWaits(a: string, b: string)
    ensures Anchor([Connection([a, b], Some(0))], [a, b]) == None
  {
    var conns := [Connection([a, b], Some(0))];
    assert |[a]| == 1 && |[a, b]| == 2 && Parent([a, b]) == [a] && conns[1..] == [];
    assert Find(conns, [a]) == None;
  }

  lemma RootAndChild(a: string, b: string)
    ensures var conns := [Connection([a], Some(0)), Connection([a, b], Some(0))];
      Find(conns, [a, b]) == Some(conns[1]) && Anchor(conns, [a, b]) == Some([a])
  {
    var conns := [Connection([a], Some(0)), Connection([a, b], Some(0))];
    assert |[a]| == 1 && |[a, b]| == 2 && Parent([a, b]) == [a];
    assert conns[1..] == [conns[1]];
    assert Find(conns, [a]) == Some(conns[0]);
  }

  lemma NothingWaiting(conns: seq<Connection>, waiting: set<ModulePath>, shown: set<ModulePath>)
    requires waiting == {}
    ensures Fixpoint(conns, waiting, shown) == shown
  {
  }

  // ---------------------------------------------------------------- steps of the proofs

  lemma PassStart(conns: seq<Connection>, waiting: set<ModulePath>, shown: set<ModulePath>, sent: set<ModulePath>)
    ensures Passing(conns, waiting, shown, sent, waiting, {}, true)
  {
  }

  lemma {:induction false} ConnectableHasReady(
      conns: seq<Connection>, waiting: set<ModulePath>, shown: set<ModulePath>, path: ModulePath)
    requires Connectable(conns, waiting, shown, path)
    ensures exists p :: p in waiting && Ready(conns, shown, p)
    decreases |path|
  {
    AnchorIsShorter(conns, path);
    var a := Anchor(conns, path).value;
    if a in shown {
      assert Ready(conns, shown, path);
    } else {
      ConnectableHasReady(conns, waiting, shown, a);
    }
  }

  lemma TakenTwice<T>(m: map<ModulePath, T>, a: set<ModulePath>, b: set<ModulePath>)
    ensures m - a - b == m - (a + b)
  {
  }

  /** With no view ready, nothing can be shown and no leftover is needed. */
  lemma NothingLeftToShow(conns: seq<Connection>, waiting: set<ModulePath>, shown: set<ModulePath>, calls: seq<Shown>)
    requires forall p :: p in waiting ==> !Ready(conns, shown, p)
    ensures Fixpoint(conns, waiting, shown) == shown
    ensures OrderlyPass(calls, conns, waiting, shown) <==> AnchorsFirst(calls)
  {
    forall p | p in waiting ensures !Connectable(conns, waiting, shown, p) {
      if Connectable(conns, waiting, shown, p) { ConnectableHasReady(conns, waiting, shown, p); }
    }
  }

  lemma DescribesBoth(
      a: seq<Shown>, b: seq<Shown>, c: seq<Shown>, conns: seq<Connection>, waiting: map<ModulePath, int>)
    requires |a| <= |b| <= |c| && b[..|a|] == a && c[..|b|] == b
    requires Describes(b[|a|..], conns, waiting)
    requires Describes(c[|b|..], conns, waiting - Views(b[|a|..]))
    ensures Describes(c[|a|..], conns, waiting) && c[..|a|] == a
    ensures Views(c[|a|..]) == Views(b[|a|..]) + Views(c[|b|..])
  {
    var first, second := b[|a|..], c[|b|..];
    assert c[|a|..] == first + second;
    ViewsConcat(first, second);
    forall i, j | 0 <= i < |first| && 0 <= j < |second| ensures first[i].view != second[j].view {
      assert first[i].view in Views(first) && second[j] in second;
    }
  }

  /** Processing again does not change what processing has done. */
  lemma ProcessedOn(
      conns: seq<Connection>, waiting: map<ModulePath, int>, shown: set<ModulePath>, earlier: seq<Shown>,
      left: map<ModulePath, int>, now: set<ModulePath>, pass: seq<Shown>,
      left': map<ModulePath, int>, now': set<ModulePath>, calls: seq<Shown>)
    requires Processed(conns, waiting, shown, earlier, left, now, pass)
    requires Processed(conns, left, now, pass, left', now', calls)
    ensures Processed(conns, waiting, shown, earlier, left', now', calls)
  {
    hide Fixpoint, Describes, AnchorsFirst, Views, Ready, OrderlyPass;
    NothingLeftToShow(conns, left.Keys, now, pass);
    DescribesBoth(earlier, pass, calls, conns, waiting);
    TakenTwice(waiting, Views(pass[|earlier|..]), Views(calls[|pass|..]));
  }

  lemma NothingShown(conns: seq<Connection>, waiting: map<ModulePath, int>)
    ensures Describes([], conns, waiting) && Views([]) == {}
  {
  }

  lemma DescribesCall(c: Shown, conns: seq<Connection>, waiting: map<ModulePath, int>)
    requires c.view in waiting && c.owner == waiting[c.view] && c.anchor == Anchor(conns, c.view)
    requires Find(conns, c.view).Some? && c.surface == Find(conns, c.view).value.surface
    ensures Describes([c], conns, waiting)
  {
  }

  lemma DescribesOneMore(calls: seq<Shown>, c: Shown, conns: seq<Connection>, waiting: map<ModulePath, int>)
    requires Describes(calls, conns, waiting) && c.view !in Views(calls)
    requires Describes([c], conns, waiting)
    ensures Describes(calls + [c], conns, waiting)
  {
    assert c in [c];
    forall i | 0 <= i < |calls| ensures calls[i].view != c.view {
      assert calls[i].view in Views(calls);
    }
  }

  class StoryController {
    var connections: seq<Connection>
    var pendingViews: map<ModulePath, int>
    var connectedViews: set<ModulePath>
    var storyShell: bool
    var state: StoryState
    var trackRoot: bool

    /** The ConnectView calls made to the current shell. */
    ghost var calls: seq<Shown>

    ghost predicate Valid()
      reads this
    {
      && NoEmptyPath(connections)
      && [] !in pendingViews
      && Views(calls) <= connectedViews
    }

    /** All views taken to be known have been sent to the current shell. */
    ghost predicate NoLeftovers()
      reads this
    {
      connectedViews == Views(calls)
    }

    constructor ()
      ensures Valid() && connections == [] && pendingViews == map[] && connectedViews == {} && calls == []
      ensures !storyShell && state == INITIAL
    {
      connections, pendingViews, connectedViews, storyShell, calls := [], map[], {}, false, [];
      state, trackRoot := INITIAL, false;
    }

    /** A story that is running ignores this. One that is not gets a new shell, even if its modules still run;
        what is taken to be known is kept. */
    method Start()
      requires Valid()
      modifies this`storyShell, this`calls, this`state, this`trackRoot
      ensures Valid()
      ensures old(state) in {STARTING, RUNNING, DONE} ==> unchanged(this)
      ensures old(state) !in {STARTING, RUNNING, DONE} ==>
        && storyShell && trackRoot && state == STARTING
        && calls == [] && AnchorsFirst(calls)
        && (NoLeftovers() <==> connectedViews == {})
    {
      if IsRunning(state) {
        return;
      }
      trackRoot := true;
      storyShell := true;
      calls := [];
      state := STARTING;
    }

    /** The root module's state becomes the story's, while that is tracked. So a story whose root has stopped can
        be started again with the rest of its modules running. */
    method OnRootStateChange(m: ModuleState)
      modifies this`state
      ensures !trackRoot ==> state == old(state)
      ensures trackRoot ==> match m
        case ModuleStarting => state == STARTING
        case ModuleRunning => state == RUNNING
        case ModuleUnlinked => state == RUNNING
        case ModuleStopped => state == STOPPED
        case ModuleDone => state == DONE
        case ModuleError => state == ERROR
      ensures trackRoot ==> (IsRunning(state) <==> m != ModuleStopped && m != ModuleError)
    {
      if !trackRoot {
        return;
      }
      match m
      case ModuleStarting => state := STARTING;
      case ModuleRunning => state := RUNNING;
      case ModuleUnlinked => state := RUNNING;
      case ModuleStopped => state := STOPPED;
      case ModuleDone => state := DONE;
      case ModuleError => state := ERROR;
    }

    /** Every module stops, then the shell does. */
    method Stop()
      requires Valid()
      modifies this`connections, this`pendingViews, this`storyShell, this`state, this`trackRoot
      ensures Valid() && connections == [] && !storyShell && state == STOPPED && !trackRoot
      ensures pendingViews == old(pendingViews) - set c | c in old(connections) :: c.path
    {
      trackRoot := false;
      ghost var gone: set<ModulePath> := {};
      while connections != []
        invariant Valid() && !trackRoot && pendingViews == old(pendingViews) - gone
        invariant gone + (set c | c in connections :: c.path) == set c | c in old(connections) :: c.path
        decreases |connections|
      {
        gone := gone + {connections[0].path};
        assert connections == [connections[0]] + connections[1..];
        ReleaseModule(0);
      }
      storyShell := false;
      state := STOPPED;
    }

    method FindConnection(path: ModulePath) returns (r: Option<Connection>)
      ensures r == Find(connections, path)
      ensures r.None? <==> forall c :: c in connections ==> c.path != path
      ensures r.Some? ==> exists i :: 0 <= i < |connections| && connections[i] == r.value && r.value.path == path
                                      && forall j :: 0 <= j < i ==> connections[j].path != path
    {
      for i := 0 to |connections|
        invariant Find(connections, path) == Find(connections[i..], path)
        invariant forall j :: 0 <= j < i ==> connections[j].path != path
      {
        assert connections[i..][1..] == connections[i + 1..];
        if connections[i].path == path {
          return Some(connections[i]);
        }
      }
      return None;
    }

    method FindAnchor(connection: Connection) returns (r: Option<Connection>)
      requires NoEmptyPath(connections)
      ensures r.Some? <==> Anchor(connections, connection.path).Some?
      ensures r.Some? ==> Anchor(connections, connection.path) == Some(r.value.path)
      ensures r.Some? ==> r == Find(connections, r.value.path) && r.value.surface.Some?
      ensures r.Some? ==> IsAnchor(connections, connection.path, r.value.path)
      ensures r.None? ==> forall a :: !IsAnchor(connections, connection.path, a)
    {
      forall a ensures Anchor(connections, connection.path) == Some(a) <==> IsAnchor(connections, connection.path, a) {
        if connection.path != [] { AnchorIsNearest(connections, connection.path, a); }
      }
      hide IsAnchor, Surfaced, Embedded;
      ghost var at := Parent(connection.path);
      r := FindConnection(Parent(connection.path));
      FoundRelation(connections, at);
      while r.Some? && r.value.surface.None?
        invariant r == Find(connections, at)
        invariant Surfaced(connections, at) <==> r.Some? && r.value.surface.Some?
        invariant Embedded(connections, at) <==> r.Some? && r.value.surface.None?
        invariant Anchor(connections, connection.path) == Ascend(connections, at)
        decreases |at|
      {
        at := Parent(r.value.path);
        r := FindConnection(Parent(r.value.path));
        FoundRelation(connections, at);
      }
    }

    /** Shows every waiting view that can be shown. */
    method ProcessPendingViews()
      requires Valid()
      modifies this`pendingViews, this`connectedViews, this`calls
      ensures Valid()
      ensures !storyShell ==> unchanged(this)
      ensures storyShell ==> Processed(connections, old(pendingViews), old(connectedViews), old(calls),
                                       pendingViews, connectedViews, calls)
      decreases |pendingViews|
    {
      hide Processed, Views, NoEmptyPath;
      if !storyShell {
        return;
      }
      ghost var earlier, shown, waiting := calls, connectedViews, pendingViews;
      var added := ShowReadyViews();
      if added != {} {
        pendingViews := pendingViews - added;
        ghost var left, now, pass := pendingViews, connectedViews, calls;
        ProcessPendingViews();
        ProcessedOn(connections, waiting, shown, earlier, left, now, pass, pendingViews, connectedViews, calls);
      } else {
        assert pendingViews - added == pendingViews;
      }
    }

    /** One pass over the waiting views; views shown early in the pass count for later ones. */
    method ShowReadyViews() returns (added: set<ModulePath>)
      requires Valid()
      modifies this`connectedViews, this`calls
      ensures Valid()
      ensures added <= pendingViews.Keys
      ensures Processed(connections, pendingViews, old(connectedViews), old(calls),
                        pendingViews - added, connectedViews, calls)
    {
      hide Fixpoint, Describes, AnchorsFirst, Views, Anchor, Find, Connectable, Passing, NeedsNoLeftover;
      ghost var waiting, shown, sent := pendingViews.Keys, connectedViews, Views(calls);
      ghost var made: seq<Shown>, ordered := [], true;
      NothingShown(connections, pendingViews);
      PassStart(connections, waiting, shown, sent);
      added := {};
      var left := pendingViews.Keys;
      assert calls == old(calls) + made;
      while left != {}
        invariant Valid() && left <= waiting
        invariant calls == old(calls) + made
        invariant Describes(made, connections, pendingViews)
        invariant added == Views(made) && added <= waiting - left
        invariant connectedViews == shown + added && Views(calls) == sent + added
        invariant Passing(connections, waiting, shown, sent, left, added, ordered)
        invariant AnchorsFirst(calls) <==> old(AnchorsFirst(calls)) && ordered
        decreases left
      {
        ghost var some :| some in left;
        SomeComesFirst(left, some);
        var key :| ComesFirst(key, left);
        PassStep(connections, waiting, shown, sent, left, added, ordered, key);
        left := left - {key};
        var connection := FindConnection(key);
        if connection.None? {
          continue;
        }
        var anchor := FindAnchor(connection.value);
        if anchor.None? || anchor.value.path !in connectedViews {
          continue;
        }
        var call := Shown(key, Some(anchor.value.path), pendingViews[key], connection.value.surface);
        DescribesCall(call, connections, pendingViews);
        DescribesOneMore(made, call, connections, pendingViews);
        AnchorsFirstOneMore(calls, call);
        ViewsOneMore(made, call);
        ordered := ordered && anchor.value.path in sent + added;
        calls := calls + [call];
        made := made + [call];
        connectedViews := connectedViews + {key};
        added := added + {key};
      }
      assert calls[|old(calls)|..] == made;
      PassDone(connections, waiting, shown, sent, added, ordered);
    }

    /** A module starts running. */
    method StartModule(connection: Connection)
      requires Valid() && connection.path != []
      modifies this`connections
      ensures Valid() && connections == old(connections) + [connection]
    {
      connections := connections + [connection];
    }

    /** A started module's view goes to the shell if its anchor is taken to be known there, and waits
        otherwise. A view already waiting under the same path keeps its place. */
    method ShowModule(path: ModulePath, owner: int, surface: Option<int>)
      requires Valid() && path != [] && Find(connections, path).Some?
      modifies this`pendingViews, this`connectedViews, this`calls
      ensures Valid()
      ensures |old(calls)| <= |calls| && calls[..|old(calls)|] == old(calls)
      ensures !storyShell ==> unchanged(this)
      ensures storyShell && (|path| == 1 || Ready(connections, old(connectedViews), path)) ==>
        var anchor := if |path| == 1 then None else Anchor(connections, path);
        && connectedViews == Fixpoint(connections, old(pendingViews).Keys, old(connectedViews) + {path})
        && |calls| > |old(calls)|
        && calls[|old(calls)|] == Shown(path, anchor, owner, surface)
        && pendingViews == old(pendingViews) - Views(calls[|old(calls)| + 1..])
        && (forall p :: p in pendingViews ==> !Ready(connections, connectedViews, p))
        && (AnchorsFirst(calls) <==>
             Orderly(old(calls), anchor, path, connections, old(pendingViews).Keys, old(connectedViews)))
      ensures storyShell && |path| != 1 && !Ready(connections, old(connectedViews), path) ==>
        && calls == old(calls) && connectedViews == old(connectedViews)
        && pendingViews == if path in old(pendingViews) then old(pendingViews) else old(pendingViews)[path := owner]
      ensures old(NoLeftovers()) ==> NoLeftovers() && (old(AnchorsFirst(calls)) ==> AnchorsFirst(calls))
    {
      hide Fixpoint, Describes, AnchorsFirst, Views, Find, Anchor, Orderly;
      if !storyShell {
        return;
      }
      if |path| == 1 {
        ConnectView(path, owner, None, surface);
        return;
      }
      var connection := FindConnection(path);
      var anchor := FindAnchor(connection.value);
      if anchor.Some? && anchor.value.path in connectedViews {
        ConnectView(path, owner, Some(anchor.value.path), surface);
        return;
      }
      if path !in pendingViews {
        pendingViews := pendingViews[path := owner];
      }
    }

    method ConnectView(path: ModulePath, owner: int, anchor: Option<ModulePath>, surface: Option<int>)
      requires Valid() && storyShell && path != []
      requires anchor.Some? ==> anchor.value in connectedViews
      modifies this`pendingViews, this`connectedViews, this`calls
      ensures Valid()
      ensures |old(calls)| < |calls| && calls[..|old(calls)|] == old(calls)
      ensures calls[|old(calls)|] == Shown(path, anchor, owner, surface)
      ensures connectedViews == Fixpoint(connections, old(pendingViews).Keys, old(connectedViews) + {path})
      ensures pendingViews == old(pendingViews) - Views(calls[|old(calls)| + 1..])
      ensures forall p :: p in pendingViews ==> !Ready(connections, connectedViews, p)
      ensures AnchorsFirst(calls) <==>
        Orderly(old(calls), anchor, path, connections, old(pendingViews).Keys, old(connectedViews))
      ensures old(NoLeftovers()) ==> NoLeftovers() && (old(AnchorsFirst(calls)) ==> AnchorsFirst(calls))
    {
      hide Fixpoint, Describes, AnchorsFirst, Views, Find, Anchor, NeedsNoLeftover, Ready;
      ghost var call := Shown(path, anchor, owner, surface);
      ghost var before := calls;
      AnchorsFirstOneMore(calls, call);
      OrderlyWithoutLeftovers(connections, pendingViews.Keys, connectedViews + {path});
      calls := calls + [call];
      connectedViews := connectedViews + {path};
      ghost var now := calls;
      ProcessPendingViews();
      assert calls[..|before|] == now[..|before|];
      assert calls[|before|] == calls[..|now|][|before|];
      assert calls == now + calls[|now|..];
      ViewsConcat(now, calls[|now|..]);
    }

    /** A module stops: it no longer waits and no longer runs, but its view stays known to the shell. */
    method ReleaseModule(i: nat)
      requires Valid() && i < |connections|
      modifies this`connections, this`pendingViews
      ensures Valid()
      ensures connections == old(connections)[..i] + old(connections)[i + 1..]
      ensures pendingViews == old(pendingViews) - {old(connections)[i].path}
    {
      pendingViews := pendingViews - {connections[i].path};
      connections := connections[..i] + connections[i + 1..];
    }
  }

  /** The story's first shell, up to the stop of its root module. */
  method StoppedRoot(a: string, b: string) returns (story: StoryController)
    ensures fresh(story) && story.Valid() && story.storyShell
    ensures story.connections == [Connection([a, b], Some(0))] && [a, b] in story.connectedViews
    ensures AnchorsFirst(story.calls) && story.NoLeftovers()
  {
    hide AnchorsFirst, Fixpoint, Find, Anchor, Orderly, Views;
    story := new StoryController();
    story.Start();
    story.StartModule(Connection([a], Some(0)));
    assert story.connections == [Connection([a], Some(0))];
    NothingWaiting(story.connections, story.pendingViews.Keys, story.connectedViews + {[a]});
    OneRuns([a]);
    story.ShowModule([a], 1, Some(0));
    story.StartModule(Connection([a, b], Some(0)));
    assert story.connections == [Connection([a], Some(0)), Connection([a, b], Some(0))];
    RootAndChild(a, b);
    NothingWaiting(story.connections, story.pendingViews.Keys, story.connectedViews + {[a, b]});
    story.ShowModule([a, b], 2, Some(0));
    story.ReleaseModule(0);
  }

  /** A story that gets there: a module and its child are shown, the module is stopped, the story is
      stopped and started again. The child's child is then sent to the new shell with an anchor that shell
      was never sent. */
  method RestartedStory(a: string, b: string, c: string) returns (story: StoryController)
    ensures fresh(story) && story.Valid() && story.storyShell
    ensures |story.calls| > 0 && story.calls[0] == Shown([a, b, c], Some([a, b]), 3, Some(0))
    ensures !AnchorsFirst(story.calls)
  {
    hide AnchorsFirst, Fixpoint, Find, Anchor, Orderly, Views;
    story := StoppedRoot(a, b);
    story.Stop();
    story.Start();
    story.StartModule(Connection([a, b], Some(0)));
    assert story.connections == [Connection([a, b], Some(0))];
    OneRuns([a, b]);
    OrphanWaits(a, b);
    story.ShowModule([a, b], 2, Some(0));
    story.StartModule(Connection([a, b, c], Some(0)));
    assert story.connections == [Connection([a, b], Some(0)), Connection([a, b, c], Some(0))];
    OrphanedPair(a, b, c);
    LeftoverNeeded(a, b, c, story.connectedViews);
    story.ShowModule([a, b, c], 3, Some(0));
  }
}
