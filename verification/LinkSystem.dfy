/** Several devices sharing one link through a ledger that only grows. */
module LinkSystem {
  import opened KeyOrder
  import opened KeyGeneration
  import opened LinkJson
  import opened ChangeLog
  import opened Link

  type DeviceId = nat

  /** `replica` is the part of the ledger the device's store holds, `notified` the keys it has been
      told of, `known` the changes its document accounts for. */
  datatype Device = Device(
    link: LinkState, stamp: Stamp, replica: ChangeSet, notified: set<Key>, known: ChangeSet)

  datatype System = System(ledger: ChangeSet, devices: map<DeviceId, Device>)

  datatype Event =
    | Start(id: DeviceId, contents: ChangeSet)
    | Sync(id: DeviceId, key: Key)
    | Notify(id: DeviceId, key: Key)
    | Edit(id: DeviceId, op: Op, path: Path, text: Text, clock: nat, random: nat)

  function Empty(): LinkState {
    LinkState(Null, "", [])
  }

  ghost predicate Part(a: ChangeSet, b: ChangeSet) {
    forall k :: k in a ==> k in b && b[k] == a[k]
  }

  /** The change an edit turns into. */
  function EditChange(d: Device, e: Event): Change
    requires e.Edit?
  {
    Change(KeyOf(Advance(d.stamp, e.clock, e.random)), e.op, e.path, e.text)
  }

  /** When each event can happen. A key is made once across all devices. */
  ghost predicate Enabled(s: System, e: Event) {
    match e
    case Start(id, contents) => id !in s.devices && Part(contents, s.ledger)
    case Sync(id, key) => id in s.devices && key in s.ledger
    case Notify(id, key) => id in s.devices && key in s.devices[id].replica
    case Edit(id, op, path, text, clock, random) =>
      && id in s.devices
      && !text.Malformed?
      && clock < UINT64 && random < UINT64
      && EditChange(s.devices[id], e).key !in s.ledger
  }

  /** A device reads its replica, in key order. */
  ghost function ReadAll(replica: ChangeSet): seq<Change> {
    SortedLog(replica)
  }

  ghost function Started(contents: ChangeSet): Device {
    Device(if contents == map[] then Empty() else Replayed(Empty(), ReadAll(contents)),
           Stamp(0, 0), contents, {}, contents)
  }

  ghost function Synced(d: Device, key: Key, ledger: ChangeSet): Device
    requires key in ledger
  {
    d.(replica := d.replica[key := ledger[key]])
  }

  ghost function Told(d: Device, c: Change): Device {
    d.(link := Delivered(d.link, c, ReadAll(d.replica)),
       notified := d.notified + {c.key},
       known := if Acknowledges(d.link, c.key) then d.known else Learned(d.link, d.known, c, ReadAll(d.replica)))
  }

  ghost function Edited(d: Device, c: Change, stamp: Stamp): Device {
    var replica := d.replica[c.key := c];
    d.(link := Submitted(d.link, c, ReadAll(replica)),
       stamp := stamp,
       replica := replica,
       known := Learned(d.link.(pendingOps := d.link.pendingOps + [c]), d.known, c, ReadAll(replica)))
  }

  ghost function Next(s: System, e: Event): System
    requires Enabled(s, e)
  {
    match e
    case Start(id, contents) => s.(devices := s.devices[id := Started(contents)])
    case Sync(id, key) => s.(devices := s.devices[id := Synced(s.devices[id], key, s.ledger)])
    case Notify(id, key) =>
      var d := s.devices[id];
      s.(devices := s.devices[id := Told(d, d.replica[key])])
    case Edit(id, _, _, _, clock, random) =>
      var d := s.devices[id];
      var c := EditChange(d, e);
      System(s.ledger[c.key := c], s.devices[id := Edited(d, c, Advance(d.stamp, clock, random))])
  }

  /** What holds of one device between its operations. */
  ghost predicate DeviceInv(d: Device, ledger: ChangeSet) {
    && Represents(d.link, d.known)
    && Part(d.replica, ledger)
    && Part(d.known, d.replica)
    && d.notified <= d.known.Keys
  }

  ghost predicate Inv(s: System) {
    && Keyed(s.ledger)
    && forall id :: id in s.devices ==> DeviceInv(s.devices[id], s.ledger)
  }

  lemma ReadAllSorted(replica: ChangeSet)
    requires Keyed(replica)
    ensures Sorted(ReadAll(replica)) && ToSet(ReadAll(replica)) == replica
    ensures forall c :: c in ReadAll(replica) <==> c.key in replica && replica[c.key] == c
  {
    SortedLogSorts(replica);
    ToSetDomain(ReadAll(replica));
  }

  lemma EmptyRepresents()
    ensures Represents(Empty(), map[])
  {
  }

  lemma ReplayedStart(contents: ChangeSet, ledger: ChangeSet)
    requires Keyed(ledger) && Part(contents, ledger) && contents != map[]
    ensures Represents(Replayed(Empty(), ReadAll(contents)), contents)
  {
    hide Fold, Meaning, SortedLog;
    ReadAllSorted(contents);
    var log := ReadAll(contents);
    assert ToSet([]) == map[];
    assert log != [];
    ReplayRepresents(Empty(), log);
    assert ToSet(Empty().pendingOps) + ToSet(log) == contents;
  }

  lemma StartInv(contents: ChangeSet, ledger: ChangeSet)
    requires Keyed(ledger) && Part(contents, ledger)
    ensures DeviceInv(Started(contents), ledger)
  {
    hide Fold, Meaning, SortedLog;
    assert ToSet(Empty().pendingOps) == map[];
    if contents == map[] {
      EmptyRepresents();
    } else {
      ReplayedStart(contents, ledger);
    }
  }

  /** After a reload the known changes are the replica's. */
  lemma ReloadKnowsReplica(pending: seq<Change>, replica: ChangeSet)
    requires Sorted(pending) && Keyed(replica)
    requires forall c :: c in pending ==> c.key in replica && replica[c.key] == c
    ensures ToSet(pending) + ToSet(ReadAll(replica)) == replica
  {
    hide SortedLog, ToSet, Sorted;
    ReadAllSorted(replica);
    ToSetDomain(pending);
    var mine := ToSet(pending);
    forall k | k in mine ensures k in replica && mine[k] == replica[k] {
      assert mine[k] in pending && mine[k].key == k;
    }
    assert mine + replica == replica;
  }

  /** A notification is harmless unless it makes the device append its newest change again. */
  ghost predicate HarmlessTo(d: Device, c: Change) {
    Acknowledges(d.link, c.key) || !AppendsAgain(d.link, d.known, c)
  }

  lemma PendingInReplica(pending: seq<Change>, known: ChangeSet, replica: ChangeSet)
    requires Part(known, replica) && Keyed(replica)
    requires forall p :: p in pending ==> p.key in known && known[p.key] == p
    ensures forall p :: p in pending ==> p.key in replica && replica[p.key] == p
    ensures Agree(pending, ReadAll(replica))
  {
    ReadAllSorted(replica);
  }

  lemma NotifyRepresents(d: Device, key: Key, ledger: ChangeSet)
    requires DeviceInv(d, ledger) && Keyed(ledger) && key in d.replica
    ensures var e := Told(d, d.replica[key]);
      Represents(e.link, e.known) <==> HarmlessTo(d, d.replica[key])
  {
    hide Fold, Meaning, SortedLog, ToSet, Learned, Delivered;
    var c := d.replica[key];
    ReadAllSorted(d.replica);
    PendingInReplica(d.link.pendingOps, d.known, d.replica);
    DeliverRepresents(d.link, d.known, c, ReadAll(d.replica));
  }

  lemma NotifyKnown(d: Device, key: Key, ledger: ChangeSet)
    requires DeviceInv(d, ledger) && Keyed(ledger) && key in d.replica
    ensures var e := Told(d, d.replica[key]);
      Part(e.known, e.replica) && e.notified <= e.known.Keys
  {
    hide Fold, Meaning, SortedLog, ToSet, Sorted, Less;
    var c := d.replica[key];
    PendingInReplica(d.link.pendingOps, d.known, d.replica);
    ReloadKnowsReplica(d.link.pendingOps, d.replica);
    if Acknowledges(d.link, c.key) {
      assert d.link.pendingOps[0] in d.link.pendingOps;
    }
  }

  lemma NotifyPendingOps(d: Device, c: Change)
    ensures forall p :: p in Told(d, c).link.pendingOps ==> p in d.link.pendingOps
  {
  }

  lemma NotifyInv(d: Device, key: Key, ledger: ChangeSet)
    requires DeviceInv(d, ledger) && Keyed(ledger) && key in d.replica
    ensures DeviceInv(Told(d, d.replica[key]), ledger) <==> HarmlessTo(d, d.replica[key])
  {
    hide Represents, Delivered, Learned, AppendsAgain;
    NotifyRepresents(d, key, ledger);
    NotifyKnown(d, key, ledger);
    NotifyPendingOps(d, d.replica[key]);
  }

  lemma EditRepresents(d: Device, c: Change, ledger: ChangeSet)
    requires DeviceInv(d, ledger) && Keyed(ledger) && c.key !in ledger
    requires FollowsAll(d.link.pendingOps, c.key)
    ensures var e := Edited(d, c, d.stamp);
      Represents(e.link, e.known)
  {
    hide ToSet, SortedLog, Fold, Meaning;
    var replica := d.replica[c.key := c];
    ReadAllSorted(replica);
    PendingInReplica(d.link.pendingOps, d.known, replica);
    SubmitRepresents(d.link, d.known, c, ReadAll(replica));
  }

  lemma EditKnown(d: Device, c: Change, ledger: ChangeSet)
    requires DeviceInv(d, ledger) && Keyed(ledger) && c.key !in ledger && Sorted(d.link.pendingOps + [c])
    ensures var e := Edited(d, c, d.stamp);
      Part(e.known, e.replica) && d.known.Keys <= e.known.Keys
  {
    hide ToSet, SortedLog, Fold, Meaning, Sorted, Less, ReadAll, Submitted;
    var replica := d.replica[c.key := c];
    assert c.key !in d.replica;
    PendingInReplica(d.link.pendingOps, d.known, replica);
    ReloadKnowsReplica(d.link.pendingOps + [c], replica);
    assert Part(d.known[c.key := c], replica);
  }

  lemma EditPendingOps(d: Device, c: Change)
    ensures Edited(d, c, d.stamp).link.pendingOps == d.link.pendingOps + [c]
  {
  }

  /** An edit keeps the invariant exactly when its key follows those of the device's pending changes. */
  lemma EditInv(d: Device, c: Change, stamp: Stamp, ledger: ChangeSet)
    requires DeviceInv(d, ledger) && Keyed(ledger) && c.key !in ledger
    ensures DeviceInv(Edited(d, c, stamp), ledger[c.key := c]) <==> FollowsAll(d.link.pendingOps, c.key)
  {
    EditPendingOps(d, c);
    SortedOneMore(d.link.pendingOps, c);
    if FollowsAll(d.link.pendingOps, c.key) {
      EditRepresents(d, c, ledger);
      EditKnown(d, c, ledger);
      hide Represents, Submitted, Learned, Sorted, Less, Keyed;
      assert Part(d.replica[c.key := c], ledger[c.key := c]);
    } else {
      hide Submitted, Learned, Sorted, Less, Keyed, Meaning, Latest;
      assert !Represents(Edited(d, c, stamp).link, Edited(d, c, stamp).known);
    }
  }

  /** Replacing one device while the ledger grows. */
  lemma ReplaceDevice(s: System, id: DeviceId, d: Device, ledger: ChangeSet)
    requires Inv(s) && Keyed(ledger) && Part(s.ledger, ledger)
    ensures Inv(System(ledger, s.devices[id := d])) <==> DeviceInv(d, ledger)
  {
    var t := System(ledger, s.devices[id := d]);
    forall other | other in s.devices ensures DeviceInv(s.devices[other], ledger) {
      assert DeviceInv(s.devices[other], s.ledger);
    }
    assert id in t.devices && t.devices[id] == d;
  }

  ghost predicate Harmless(s: System, e: Event)
    requires Enabled(s, e)
  {
    match e
    case Notify(id, key) => HarmlessTo(s.devices[id], s.devices[id].replica[key])
    case Edit(id, _, _, _, _, _) => FollowsAll(s.devices[id].link.pendingOps, EditChange(s.devices[id], e).key)
    case _ => true
  }

  lemma SyncInv(d: Device, key: Key, ledger: ChangeSet)
    requires DeviceInv(d, ledger) && key in ledger
    ensures DeviceInv(Synced(d, key, ledger), ledger)
  {
  }

  /** Every event keeps the invariant, except exactly a notification that makes a device append its newest
      change again, and an edit whose key does not follow the device's pending ones. */
  lemma NextInv(s: System, e: Event)
    requires Inv(s) && Enabled(s, e)
    ensures Inv(Next(s, e)) <==> Harmless(s, e)
  {
    hide DeviceInv, HarmlessTo, FollowsAll;
    if e.id in s.devices {
      assert DeviceInv(s.devices[e.id], s.ledger);
    }
    match e
    case Start(id, contents) =>
      StartInv(contents, s.ledger);
      ReplaceDevice(s, id, Started(contents), s.ledger);
    case Sync(id, key) =>
      SyncInv(s.devices[id], key, s.ledger);
      ReplaceDevice(s, id, Synced(s.devices[id], key, s.ledger), s.ledger);
    case Notify(id, key) =>
      var d := s.devices[id];
      NotifyInv(d, key, s.ledger);
      ReplaceDevice(s, id, Told(d, d.replica[key]), s.ledger);
    case Edit(id, _, _, _, clock, random) =>
      var d := s.devices[id];
      var c := EditChange(d, e);
      EditInv(d, c, Advance(d.stamp, clock, random), s.ledger);
      ReplaceDevice(s, id, Edited(d, c, Advance(d.stamp, clock, random)), s.ledger[c.key := c]);
  }

  /** The system after a run of events. */
  ghost predicate Reaches(s: System, events: seq<Event>, t: System)
    decreases |events|
  {
    if events == [] then s == t
    else Enabled(s, events[0]) && Reaches(Next(s, events[0]), events[1..], t)
  }

  /** Every event of the run is harmless. */
  ghost predicate HarmlessRun(s: System, events: seq<Event>)
    decreases |events|
  {
    events == [] ||
    (Enabled(s, events[0]) && Harmless(s, events[0]) && HarmlessRun(Next(s, events[0]), events[1..]))
  }

  /** The invariant holds all along the run. */
  ghost predicate AlwaysInv(s: System, events: seq<Event>)
    decreases |events|
  {
    Inv(s) && (events == [] || (Enabled(s, events[0]) && AlwaysInv(Next(s, events[0]), events[1..])))
  }

  /** The invariant holds all along a run exactly when the run is harmless. */
  lemma {:induction false} RunInv(s: System, events: seq<Event>, t: System)
    requires Inv(s) && Reaches(s, events, t)
    ensures AlwaysInv(s, events) <==> HarmlessRun(s, events)
    ensures HarmlessRun(s, events) ==> Inv(t)
    decreases |events|
  {
    hide Inv, Enabled, Harmless, Next;
    if events != [] {
      NextInv(s, events[0]);
      var u := Next(s, events[0]);
      if Inv(u) {
        RunInv(u, events[1..], t);
      }
    }
  }

  /** The edits of the run have no append token, erase, or have no text. */
  ghost predicate RepeatableEdits(events: seq<Event>) {
    forall i :: 0 <= i < |events| && events[i].Edit? ==>
      events[i].op == ERASE || !events[i].text.Parsed? || APPEND !in events[i].path
  }

  ghost predicate AllRepeatable(m: ChangeSet) {
    forall k :: k in m ==> Repeatable(m[k])
  }

  /** Every edit of the run finds its device's clock orderly. */
  ghost predicate OrderlyClocks(s: System, events: seq<Event>)
    decreases |events|
  {
    events == [] ||
    (var e := events[0];
     && Enabled(s, e)
     && (e.Edit? ==> s.devices[e.id].stamp.time < TIME_RANGE && Orderly(s.devices[e.id].stamp, e.clock))
     && OrderlyClocks(Next(s, e), events[1..]))
  }

  ghost predicate Ahead(d: Device) {
    WellFormed(d.stamp) && forall c :: c in d.link.pendingOps ==> !Less(KeyOf(d.stamp), c.key)
  }

  /** No pending change has a key beyond the one its device has made last. */
  ghost predicate StampsAhead(s: System) {
    forall id :: id in s.devices ==> Ahead(s.devices[id])
  }

  lemma EditAhead(d: Device, c: Change, clock: nat, random: nat)
    requires Ahead(d) && d.stamp.time < TIME_RANGE && Orderly(d.stamp, clock) && random < UINT64
    requires c.key == KeyOf(Advance(d.stamp, clock, random))
    ensures FollowsAll(d.link.pendingOps, c.key)
    ensures Ahead(Edited(d, c, Advance(d.stamp, clock, random)))
  {
    hide KeyOf, Less;
    OrderlyFollows(d.link.pendingOps, d.stamp, clock, random);
    EditPendingOps(d, c);
    StrictTotalOrder();
  }

  lemma StartAhead(contents: ChangeSet)
    ensures Ahead(Started(contents))
  {
  }

  lemma SyncAhead(d: Device, key: Key, ledger: ChangeSet)
    requires Ahead(d) && key in ledger
    ensures Ahead(Synced(d, key, ledger))
  {
  }

  lemma NotifyAhead(d: Device, c: Change)
    requires Ahead(d)
    ensures Ahead(Told(d, c))
  {
    hide KeyOf, Less;
    NotifyPendingOps(d, c);
  }

  lemma NextAhead(s: System, e: Event)
    requires StampsAhead(s) && Enabled(s, e)
    requires e.Edit? ==> s.devices[e.id].stamp.time < TIME_RANGE && Orderly(s.devices[e.id].stamp, e.clock)
    ensures StampsAhead(Next(s, e))
    ensures e.Edit? ==> FollowsAll(s.devices[e.id].link.pendingOps, EditChange(s.devices[e.id], e).key)
  {
    hide Ahead, Orderly, FollowsAll;
    match e
    case Start(id, contents) => StartAhead(contents);
    case Sync(id, key) => SyncAhead(s.devices[id], key, s.ledger);
    case Notify(id, key) => NotifyAhead(s.devices[id], s.devices[id].replica[key]);
    case Edit(id, _, _, _, clock, random) =>
      EditAhead(s.devices[id], EditChange(s.devices[id], e), clock, random);
  }

  lemma RepeatableHarmless(s: System, e: Event)
    requires Inv(s) && AllRepeatable(s.ledger) && Enabled(s, e)
    requires e.Edit? ==> FollowsAll(s.devices[e.id].link.pendingOps, EditChange(s.devices[e.id], e).key)
    ensures Harmless(s, e)
  {
    hide FollowsAll;
    if e.Notify? {
      var d := s.devices[e.id];
      assert DeviceInv(d, s.ledger);
      RepeatableNeverAgain(d.link, d.known, d.replica[e.key]);
    }
  }

  /** So a run whose edits have no append token and whose clocks are orderly is harmless. */
  lemma {:induction false} RepeatableRunHarmless(s: System, events: seq<Event>, t: System)
    requires Inv(s) && AllRepeatable(s.ledger) && StampsAhead(s) && Reaches(s, events, t)
    requires RepeatableEdits(events) && OrderlyClocks(s, events)
    ensures HarmlessRun(s, events) && AllRepeatable(t.ledger)
    decreases |events|
  {
    hide Inv, StampsAhead, Ahead, FollowsAll, Orderly;
    if events != [] {
      var e := events[0];
      NextAhead(s, e);
      RepeatableHarmless(s, e);
      NextInv(s, e);
      assert AllRepeatable(Next(s, e).ledger);
      assert RepeatableEdits(events[1..]);
      RepeatableRunHarmless(Next(s, e), events[1..], t);
    }
  }

  const NOTHING: System := System(map[], map[])

  /** Log refinement over whole runs: whatever the interleaving of edits, synchronisation and
      notifications, every device's document is the key-ordered fold of the changes it knows, and
      those are ledger changes including all it was told of and all its pending ones. */
  lemma LogRefinement(events: seq<Event>, t: System, id: DeviceId)
    requires Reaches(NOTHING, events, t) && HarmlessRun(NOTHING, events) && id in t.devices
    ensures var d := t.devices[id];
      && d.link.doc == Meaning(d.known)
      && d.link.latestKey == Latest(d.known)
      && Part(d.known, t.ledger)
      && d.notified <= d.known.Keys
      && (forall c :: c in d.link.pendingOps ==> c.key in d.known && d.known[c.key] == c)
      && Sorted(d.link.pendingOps)
  {
    RunInv(NOTHING, events, t);
    assert DeviceInv(t.devices[id], t.ledger);
  }

  /** Convergence: devices that know the same keys agree, whatever order each met them in. */
  lemma Convergence(events: seq<Event>, t: System, a: DeviceId, b: DeviceId)
    requires Reaches(NOTHING, events, t) && HarmlessRun(NOTHING, events) && a in t.devices && b in t.devices
    requires t.devices[a].known.Keys == t.devices[b].known.Keys
    ensures t.devices[a].link.doc == t.devices[b].link.doc
    ensures t.devices[a].link.latestKey == t.devices[b].link.latestKey
  {
    LogRefinement(events, t, a);
    LogRefinement(events, t, b);
    assert t.devices[a].known == t.devices[b].known;
  }

  /** A device that has been told of every change in its store holds the meaning of that store. */
  lemma CaughtUpDevice(events: seq<Event>, t: System, id: DeviceId)
    requires Reaches(NOTHING, events, t) && HarmlessRun(NOTHING, events) && id in t.devices
    requires t.devices[id].notified == t.devices[id].replica.Keys
    ensures t.devices[id].link.doc == Meaning(t.devices[id].replica)
    ensures t.devices[id].link.latestKey == Latest(t.devices[id].replica)
  {
    hide Meaning, Sorted, SortedLog, Reaches, HarmlessRun;
    RunInv(NOTHING, events, t);
    var d := t.devices[id];
    assert DeviceInv(d, t.ledger);
    assert d.known.Keys == d.replica.Keys;
    assert d.known == d.replica;
  }

  /** Once everything has been synchronised and notified, every device holds the meaning of the whole
      ledger, so all devices agree. */
  lemma QuiescentDevice(events: seq<Event>, t: System, id: DeviceId)
    requires Reaches(NOTHING, events, t) && HarmlessRun(NOTHING, events) && id in t.devices
    requires t.devices[id].notified == t.ledger.Keys
    ensures t.devices[id].link.doc == Meaning(t.ledger)
    ensures t.devices[id].link.latestKey == Latest(t.ledger)
  {
    LogRefinement(events, t, id);
    assert t.devices[id].known == t.ledger;
  }

  lemma NothingInv()
    ensures Inv(NOTHING) && Reaches(NOTHING, [], NOTHING)
  {
  }

  // ---------------------------------------------------------------- runs that settle

  lemma {:induction false} ReachesThrough(s: System, a: seq<Event>, t: System, b: seq<Event>, u: System)
    requires Reaches(s, a, t) && Reaches(t, b, u)
    ensures Reaches(s, a + b, u)
    decreases |a|
  {
    hide Enabled, Next;
    if a == [] {
      assert a + b == b;
    } else {
      assert (a + b)[0] == a[0] && (a + b)[1..] == a[1..] + b;
      ReachesThrough(Next(s, a[0]), a[1..], t, b, u);
    }
  }

  /** The run only brings devices what the ledger has. */
  predicate Deliveries(events: seq<Event>) {
    forall i :: 0 <= i < |events| ==> events[i].Sync? || events[i].Notify?
  }

  /** Only the one device may have changed. */
  ghost predicate SameBut(s: System, t: System, id: DeviceId) {
    && t.ledger == s.ledger && t.devices.Keys == s.devices.Keys
    && forall other :: other in s.devices && other != id ==> t.devices[other] == s.devices[other]
  }

  /** A device is brought one change of the ledger and told of it. */
  lemma Deliver(s: System, id: DeviceId, key: Key) returns (events: seq<Event>, t: System)
    requires Inv(s) && AllRepeatable(s.ledger) && id in s.devices && key in s.ledger
    ensures Reaches(s, events, t) && Deliveries(events)
    ensures Inv(t) && SameBut(s, t, id)
    ensures t.devices[id].notified == s.devices[id].notified + {key}
  {
    hide DeviceInv, HarmlessTo, Delivered, Learned;
    var u := Next(s, Sync(id, key));
    assert u.devices[id].replica[key] == s.ledger[key] && s.ledger[key].key == key;
    events, t := [Sync(id, key), Notify(id, key)], Next(u, Notify(id, key));
    RepeatableHarmless(s, Sync(id, key));
    NextInv(s, Sync(id, key));
    RepeatableHarmless(u, Notify(id, key));
    NextInv(u, Notify(id, key));
    hide Next, Enabled;
    assert events[1..] == [Notify(id, key)] && [Notify(id, key)][1..] == [];
    assert Reaches(t, [], t) && Reaches(u, [Notify(id, key)], t);
  }

  /** A device is brought everything it has not been told of. */
  lemma {:induction false} SettleDevice(s: System, id: DeviceId) returns (events: seq<Event>, t: System)
    requires Inv(s) && AllRepeatable(s.ledger) && id in s.devices
    ensures Reaches(s, events, t) && Deliveries(events)
    ensures Inv(t) && SameBut(s, t, id) && s.ledger.Keys <= t.devices[id].notified
    decreases |s.ledger.Keys - s.devices[id].notified|
  {
    hide Inv, AllRepeatable, Next, Enabled;
    var left := s.ledger.Keys - s.devices[id].notified;
    if left == {} {
      assert forall k :: k in s.ledger.Keys ==> k in left || k in s.devices[id].notified;
      return [], s;
    }
    var key :| key in left;
    var first, u := Deliver(s, id, key);
    assert s.ledger.Keys - u.devices[id].notified == left - {key};
    var rest;
    rest, t := SettleDevice(u, id);
    ReachesThrough(s, first, u, rest, t);
    events := first + rest;
  }

  /** One device after the other. */
  lemma {:induction false} SettleDevices(s: System, ids: set<DeviceId>) returns (events: seq<Event>, t: System)
    requires Inv(s) && AllRepeatable(s.ledger) && ids <= s.devices.Keys
    ensures Reaches(s, events, t) && Deliveries(events)
    ensures Inv(t) && t.ledger == s.ledger && t.devices.Keys == s.devices.Keys
    ensures forall id :: id in ids ==> s.ledger.Keys <= t.devices[id].notified
    ensures forall id :: id in s.devices && id !in ids ==> t.devices[id] == s.devices[id]
    decreases ids
  {
    hide Inv, AllRepeatable;
    if ids == {} {
      return [], s;
    }
    var id :| id in ids;
    var first, u := SettleDevice(s, id);
    var rest;
    rest, t := SettleDevices(u, ids - {id});
    ReachesThrough(s, first, u, rest, t);
    events := first + rest;
  }

  lemma SettledDevice(t: System, id: DeviceId)
    requires Inv(t) && id in t.devices && t.ledger.Keys <= t.devices[id].notified
    ensures t.devices[id].link.doc == Meaning(t.ledger) && t.devices[id].link.latestKey == Latest(t.ledger)
  {
    assert DeviceInv(t.devices[id], t.ledger);
    assert t.devices[id].known == t.ledger;
  }

  /** Eventual consistency: wherever a run of orderly clocks and edits without append tokens has got to, bringing
      the devices what the ledger has, and nothing else, makes every one of them hold the meaning of the whole
      ledger. */
  lemma AllSettle(events: seq<Event>, s: System) returns (more: seq<Event>, t: System)
    requires Reaches(NOTHING, events, s) && RepeatableEdits(events) && OrderlyClocks(NOTHING, events)
    ensures Reaches(NOTHING, events + more, t) && Deliveries(more)
    ensures t.ledger == s.ledger && t.devices.Keys == s.devices.Keys
    ensures forall id :: id in t.devices ==>
      t.devices[id].link.doc == Meaning(s.ledger) && t.devices[id].link.latestKey == Latest(s.ledger)
  {
    hide Inv, OrderlyClocks, RepeatableEdits, Meaning, Latest;
    NothingInv();
    RepeatableRunHarmless(NOTHING, events, s);
    RunInv(NOTHING, events, s);
    more, t := SettleDevices(s, s.devices.Keys);
    ReachesThrough(NOTHING, events, s, more, t);
    forall id | id in t.devices
      ensures t.devices[id].link.doc == Meaning(s.ledger) && t.devices[id].link.latestKey == Latest(s.ledger)
    {
      SettledDevice(t, id);
    }
  }

  // ---------------------------------------------------------------- a run that diverges

  lemma {:induction false} ReachesOn(s: System, events: seq<Event>, t: System, e: Event)
    requires Reaches(s, events, t) && Enabled(t, e)
    ensures Reaches(s, events + [e], Next(t, e))
    decreases |events|
  {
    hide Enabled, Next;
    if events == [] {
      assert events + [e] == [e] && [e][1..] == [];
    } else {
      assert (events + [e])[1..] == events[1..] + [e];
      ReachesOn(Next(s, events[0]), events[1..], t, e);
    }
  }

  predicate IsBase(base: Change) {
    base.op == SET && base.path == [] && base.text == Parsed(Arr([]))
  }

  predicate IsAppend(c: Change) {
    c.op == SET && c.path == [APPEND] && c.text.Parsed?
  }

  /** The meaning of a base change and one that appends to it. */
  lemma AppendAgain(m: ChangeSet, base: Change, c: Change)
    requires m == map[base.key := base, c.key := c] && Less(base.key, c.key)
    requires IsBase(base) && IsAppend(c)
    ensures Latest(m) == c.key && AppendsTo(Meaning(m - {c.key}), c)
    ensures Apply(Meaning(m), c) != Meaning(m)
  {
    Irreflexive(c.key);
    MaxUnique(m, c.key);
    var rest := m - {c.key};
    assert rest == map[base.key := base];
    assert rest == ToSet([base]) by { assert [base][..0] == []; }
    SortedUnique([base]);
    assert Meaning(rest) == Fold([base]);
    assert Fold([base]) == base.text.json by { assert [base][..0] == []; }
    ReapplyLatest(m);
  }

  /** A device that starts from the whole ledger and is then told once more of the newest change, when
      that appends, no longer holds the ledger's meaning. */
  lemma ToldTwice(s: System, id: DeviceId, key: Key) returns (t: System)
    requires Inv(s) && id !in s.devices && key in s.ledger && Latest(s.ledger) == key
    requires AppendsTo(Meaning(s.ledger - {key}), s.ledger[key])
    ensures Enabled(s, Start(id, s.ledger)) && Enabled(Next(s, Start(id, s.ledger)), Notify(id, key))
    ensures t == Next(Next(s, Start(id, s.ledger)), Notify(id, key))
    ensures t.ledger == s.ledger && t.devices.Keys == s.devices.Keys + {id}
    ensures forall other :: other in s.devices ==> t.devices[other] == s.devices[other]
    ensures t.devices[id].known == s.ledger && t.devices[id].link.doc != Meaning(s.ledger)
  {
    hide Fold, Meaning, SortedLog, ToSet;
    var m := s.ledger;
    StartInv(m, m);
    var d := Started(m);
    t := Next(Next(s, Start(id, m)), Notify(id, key));
    Irreflexive(key);
    assert m[key := m[key]] == m && m[key].key == key;
    ReapplyLatest(m);
  }

  /** The first device edits twice. */
  lemma TwoEdits(value: Json) returns (events: seq<Event>, t: System, base: Change, c: Change)
    ensures Reaches(NOTHING, events, t) && Inv(t) && t.devices.Keys == {0}
    ensures t.ledger == map[base.key := base, c.key := c] && t.devices[0].known == t.ledger
    ensures Less(base.key, c.key) && IsBase(base) && IsAppend(c)
  {
    hide Fold, Meaning, SortedLog, ToSet, KeyOf, Inv, Reaches;
    var st, stamp := Stamp(1, 0), Stamp(2, 0);
    var e1 := Edit(0, SET, [], Parsed(Arr([])), 1, 0);
    var e2 := Edit(0, SET, [APPEND], Parsed(value), 2, 0);
    base, c := Change(KeyOf(st), SET, [], Parsed(Arr([]))), Change(KeyOf(stamp), SET, [APPEND], Parsed(value));
    NextKeyGreater(Stamp(0, 0), 1, 0);
    NextKeyGreater(st, 2, 0);
    StrictTotalOrder();
    NothingInv();

    var s1 := Next(NOTHING, Start(0, map[]));
    assert s1.devices == map[0 := Started(map[])];
    var s2 := Next(s1, e1);
    assert EditChange(s1.devices[0], e1) == base;
    assert s2.devices == map[0 := Edited(Started(map[]), base, st)] && s2.ledger == map[base.key := base];
    t := Next(s2, e2);
    assert EditChange(s2.devices[0], e2) == c;
    assert t.ledger == map[base.key := base, c.key := c];
    NextInv(NOTHING, Start(0, map[]));
    NextInv(s1, e1);
    NextInv(s2, e2);

    ReachesOn(NOTHING, [], NOTHING, Start(0, map[]));
    ReachesOn(NOTHING, [] + [Start(0, map[])], s1, e1);
    ReachesOn(NOTHING, [] + [Start(0, map[])] + [e1], s2, e2);
    events := [] + [Start(0, map[])] + [e1] + [e2];
  }

  /** Two devices that know the same changes and differ: the second starts from what the first has
      written, and is then told of the newest change once more, which appends again. */
  lemma AppendDiverges(value: Json) returns (events: seq<Event>, t: System)
    ensures Reaches(NOTHING, events, t) && t.devices.Keys == {0, 1}
    ensures t.devices[0].known.Keys == t.devices[1].known.Keys == t.ledger.Keys
    ensures t.devices[0].link.doc == Meaning(t.ledger) != t.devices[1].link.doc
  {
    hide Fold, Meaning, SortedLog, ToSet, Enabled, Next, Reaches;
    var base: Change;
    var c: Change;
    var s: System;
    events, s, base, c := TwoEdits(value);
    AppendAgain(s.ledger, base, c);
    assert DeviceInv(s.devices[0], s.ledger);
    t := ToldTwice(s, 1, c.key);
    ReachesOn(NOTHING, events, s, Start(1, s.ledger));
    events := events + [Start(1, s.ledger)];
    ReachesOn(NOTHING, events, Next(s, Start(1, s.ledger)), Notify(1, c.key));
    events := events + [Notify(1, c.key)];
  }
}
