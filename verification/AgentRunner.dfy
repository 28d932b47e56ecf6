/** Starting agents on demand: connections and tasks for an agent wait while its previous instance is
    terminating, and are handed to the next one in the order they came. */
module AgentRunners {
  import opened Options

  type Url = string

  /** Connections and tasks, by number. */
  type Request = int

  datatype Phase = INITIALIZING | RUNNING | TERMINATING

  /** What waits in an agent's operation queue. The head is the one being worked on. */
  datatype AgentOp = Initialize | Connect(conn: Request) | RunTask(task: Request) | Stop
  datatype Agent = Agent(phase: Phase, queue: seq<AgentOp>, bindings: nat, incompleteTasks: nat)

  /** What is to be done once an agent has been started. */
  datatype Callback = ForwardConnections | NewTask(task: Request)

  /** A request that has left the queue, and whether the agent was given it or it was dropped because
      the agent went away first. */
  datatype Settled = Settled(request: Request, given: bool)

  /** The requests for one agent: all accepted ones, and those that have left every queue. */
  datatype Account = Account(conns: seq<Request>, connsSettled: seq<Settled>,
                             tasks: seq<Request>, tasksSettled: seq<Settled>)

  const NO_ACCOUNT: Account := Account([], [], [], [])

  function Get<T>(m: map<Url, seq<T>>, url: Url): seq<T> {
    if url in m then m[url] else []
  }

  function Requests(settled: seq<Settled>): seq<Request> {
    seq(|settled|, i requires 0 <= i < |settled| => settled[i].request)
  }

  function Conns(queue: seq<AgentOp>): seq<Request> {
    if queue == [] then []
    else (if queue[0].Connect? then [queue[0].conn] else []) + Conns(queue[1..])
  }

  function Tasks(queue: seq<AgentOp>): seq<Request> {
    if queue == [] then []
    else (if queue[0].RunTask? then [queue[0].task] else []) + Tasks(queue[1..])
  }

  function CallbackTasks(callbacks: seq<Callback>): seq<Request> {
    if callbacks == [] then []
    else (if callbacks[0].NewTask? then [callbacks[0].task] else []) + CallbackTasks(callbacks[1..])
  }

  function AsConnects(conns: seq<Request>): seq<AgentOp> {
    seq(|conns|, i requires 0 <= i < |conns| => Connect(conns[i]))
  }

  function AllDropped(requests: seq<Request>): seq<Settled> {
    seq(|requests|, i requires 0 <= i < |requests| => Settled(requests[i], false))
  }

  lemma {:induction false} ConnsConcat(p: seq<AgentOp>, q: seq<AgentOp>)
    ensures Conns(p + q) == Conns(p) + Conns(q)
  {
    if p == [] {
      assert p + q == q;
    } else {
      var head := if p[0].Connect? then [p[0].conn] else [];
      assert (p + q)[1..] == p[1..] + q;
      ConnsConcat(p[1..], q);
      assert head + (Conns(p[1..]) + Conns(q)) == head + Conns(p[1..]) + Conns(q);
    }
  }

  lemma {:induction false} TasksConcat(p: seq<AgentOp>, q: seq<AgentOp>)
    ensures Tasks(p + q) == Tasks(p) + Tasks(q)
  {
    if p == [] {
      assert p + q == q;
    } else {
      var head := if p[0].RunTask? then [p[0].task] else [];
      assert (p + q)[1..] == p[1..] + q;
      TasksConcat(p[1..], q);
      assert head + (Tasks(p[1..]) + Tasks(q)) == head + Tasks(p[1..]) + Tasks(q);
    }
  }

  lemma QueueConcat(p: seq<AgentOp>, q: seq<AgentOp>)
    ensures Conns(p + q) == Conns(p) + Conns(q)
    ensures Tasks(p + q) == Tasks(p) + Tasks(q)
  {
    ConnsConcat(p, q);
    TasksConcat(p, q);
  }

  lemma {:induction false} ConnectsConns(conns: seq<Request>)
    ensures Conns(AsConnects(conns)) == conns && Tasks(AsConnects(conns)) == []
  {
    if conns != [] {
      assert AsConnects(conns)[1..] == AsConnects(conns[1..]);
      ConnectsConns(conns[1..]);
    }
  }

  lemma {:induction false} CallbackTasksConcat(p: seq<Callback>, q: seq<Callback>)
    ensures CallbackTasks(p + q) == CallbackTasks(p) + CallbackTasks(q)
  {
    if p == [] {
      assert p + q == q;
    } else {
      var head := if p[0].NewTask? then [p[0].task] else [];
      assert (p + q)[1..] == p[1..] + q;
      CallbackTasksConcat(p[1..], q);
      assert head + (CallbackTasks(p[1..]) + CallbackTasks(q)) == head + CallbackTasks(p[1..]) + CallbackTasks(q);
    }
  }

  /** An agent works on its queue only as its phase allows: first it initializes, and a stop under way
      keeps the rest of the queue from being worked on. */
  predicate Orderly(a: Agent) {
    match a.phase
    case INITIALIZING => a.queue != [] && a.queue[0] == Initialize && Initialize !in a.queue[1..]
    case RUNNING => Initialize !in a.queue
    case TERMINATING => a.queue != [] && a.queue[0] == Stop && Initialize !in a.queue
  }

  /** Every accepted request is in one place: settled, in the agent's queue, or waiting, in the order
      of acceptance. */
  ghost predicate Conserved(account: Account, agent: Option<Agent>, pending: seq<Request>, callbacks: seq<Callback>) {
    var queue := if agent.Some? then agent.value.queue else [];
    && account.conns == Requests(account.connsSettled) + Conns(queue) + pending
    && account.tasks == Requests(account.tasksSettled) + Tasks(queue) + CallbackTasks(callbacks)
  }

  /** Requests only wait for an agent that is terminating, and then a callback waits for its restart. */
  ghost predicate WaitsForRestart(agent: Option<Agent>, pending: seq<Request>, callbacks: seq<Callback>) {
    && (pending != [] ==> ForwardConnections in callbacks)
    && (callbacks != [] ==> agent.Some? && agent.value.phase == TERMINATING)
  }

  /** The agent after a start callback: it queues the waiting connections, or its agent task. */
  function Served(a: Agent, pending: seq<Request>, cb: Callback): Agent {
    match cb
    case ForwardConnections => a.(queue := a.queue + AsConnects(pending))
    case NewTask(task) => a.(queue := a.queue + [RunTask(task)])
  }

  /** The agent, and the connections still waiting, after several callbacks. */
  function ServedAll(a: Agent, pending: seq<Request>, callbacks: seq<Callback>): (Agent, seq<Request>) {
    if callbacks == [] then (a, pending)
    else
      var (b, left) := ServedAll(a, pending, callbacks[..|callbacks| - 1]);
      var cb := callbacks[|callbacks| - 1];
      (Served(b, left, cb), if cb == ForwardConnections then [] else left)
  }

  lemma OrderlyLonger(a: Agent, more: seq<AgentOp>)
    requires Orderly(a) && Initialize !in more
    ensures Orderly(a.(queue := a.queue + more))
  {
    if a.queue != [] {
      assert (a.queue + more)[1..] == a.queue[1..] + more;
    }
  }

  lemma ServeConnections(account: Account, a: Agent, pending: seq<Request>, rest: seq<Callback>)
    requires Conserved(account, Some(a), pending, rest) && Orderly(a)
    ensures Conserved(account, Some(Served(a, pending, ForwardConnections)), [], rest)
    ensures Orderly(Served(a, pending, ForwardConnections))
  {
    ConnectsConns(pending);
    QueueConcat(a.queue, AsConnects(pending));
    OrderlyLonger(a, AsConnects(pending));
    hide Conns, Tasks, CallbackTasks, AsConnects;
    var before := Requests(account.connsSettled);
    assert before + Conns(a.queue) + pending == before + (Conns(a.queue) + pending) + [];
  }

  lemma ServeTask(account: Account, a: Agent, pending: seq<Request>, task: Request, rest: seq<Callback>)
    requires account.conns == Requests(account.connsSettled) + Conns(a.queue) + pending
    requires account.tasks == Requests(account.tasksSettled) + Tasks(a.queue) + ([task] + CallbackTasks(rest))
    requires Orderly(a)
    ensures Conserved(account, Some(Served(a, pending, NewTask(task))), pending, rest)
    ensures Orderly(Served(a, pending, NewTask(task)))
  {
    QueueConcat(a.queue, [RunTask(task)]);
    assert [RunTask(task)][1..] == [];
    assert Conns([RunTask(task)]) == [] && Tasks([RunTask(task)]) == [task];
    OrderlyLonger(a, [RunTask(task)]);
    hide Conns, Tasks, CallbackTasks, Requests, Orderly;
    assert Conns(a.queue) + [] == Conns(a.queue);
    var before := Requests(account.tasksSettled);
    assert before + Tasks(a.queue) + ([task] + CallbackTasks(rest))
        == before + (Tasks(a.queue) + [task]) + CallbackTasks(rest);
  }

  /** A callback moves requests from the waiting lists to the end of the agent's queue. */
  lemma ServeConserves(account: Account, a: Agent, pending: seq<Request>, cb: Callback, rest: seq<Callback>)
    requires Conserved(account, Some(a), pending, [cb] + rest) && Orderly(a)
    ensures Conserved(account, Some(Served(a, pending, cb)), if cb == ForwardConnections then [] else pending, rest)
    ensures Orderly(Served(a, pending, cb))
  {
    assert ([cb] + rest)[1..] == rest;
    match cb
    case ForwardConnections =>
      ServeConnections(account, a, pending, rest);
    case NewTask(task) =>
      ServeTask(account, a, pending, task, rest);
  }

  /** A new instance, about to initialize. */
  function NewAgent(): Agent {
    Agent(INITIALIZING, [Initialize], 0, 0)
  }

  lemma NewAgentConserves(account: Account, pending: seq<Request>, callbacks: seq<Callback>)
    requires Conserved(account, None, pending, callbacks)
    ensures Conserved(account, Some(NewAgent()), pending, callbacks) && Orderly(NewAgent())
  {
    assert [Initialize][1..] == [];
  }

  lemma SettleMoves(settled: seq<Settled>, x: Request, queued: seq<Request>, waiting: seq<Request>)
    ensures Requests(settled) + ([x] + queued) + waiting == Requests(settled + [Settled(x, true)]) + queued + waiting
  {
    assert Requests(settled + [Settled(x, true)]) == Requests(settled) + [x];
  }

  /** The agent's queue advances past its head. */
  lemma AdvanceConserves(account: Account, a: Agent, pending: seq<Request>, callbacks: seq<Callback>)
    requires Conserved(account, Some(a), pending, callbacks) && a.queue != []
    ensures var op, b := a.queue[0], a.(queue := a.queue[1..]);
      && (!op.Connect? && !op.RunTask? ==> Conserved(account, Some(b), pending, callbacks))
      && (op.Connect? ==>
           Conserved(account.(connsSettled := account.connsSettled + [Settled(op.conn, true)]),
                     Some(b), pending, callbacks))
      && (op.RunTask? ==>
           Conserved(account.(tasksSettled := account.tasksSettled + [Settled(op.task, true)]),
                     Some(b), pending, callbacks))
  {
    var op, rest := a.queue[0], a.queue[1..];
    if op.Connect? {
      assert Conns(a.queue) == [op.conn] + Conns(rest) && Tasks(a.queue) == [] + Tasks(rest);
      hide Conns, Tasks, CallbackTasks;
      SettleMoves(account.connsSettled, op.conn, Conns(rest), pending);
    } else if op.RunTask? {
      assert Conns(a.queue) == [] + Conns(rest) && Tasks(a.queue) == [op.task] + Tasks(rest);
      hide Conns, Tasks, CallbackTasks;
      SettleMoves(account.tasksSettled, op.task, Tasks(rest), CallbackTasks(callbacks));
    } else {
      assert Conns(a.queue) == [] + Conns(rest) && Tasks(a.queue) == [] + Tasks(rest);
    }
  }

  /** The account once the agent and what its queue still held are gone. */
  function Dropped(account: Account, a: Agent): Account {
    account.(connsSettled := account.connsSettled + AllDropped(Conns(a.queue)),
             tasksSettled := account.tasksSettled + AllDropped(Tasks(a.queue)))
  }

  lemma DropConserves(account: Account, a: Agent, pending: seq<Request>, callbacks: seq<Callback>)
    requires Conserved(account, Some(a), pending, callbacks)
    ensures Conserved(Dropped(account, a), None, pending, callbacks)
  {
    var conns, tasks := Conns(a.queue), Tasks(a.queue);
    assert Requests(account.connsSettled + AllDropped(conns)) == Requests(account.connsSettled) + conns;
    assert Requests(account.tasksSettled + AllDropped(tasks)) == Requests(account.tasksSettled) + tasks;
  }

  lemma QueueStop(account: Account, a: Agent, pending: seq<Request>, callbacks: seq<Callback>)
    requires Conserved(account, Some(a), pending, callbacks) && Orderly(a)
    ensures var b := a.(queue := a.queue + [Stop]);
      Conserved(account, Some(b), pending, callbacks) && Orderly(b)
  {
    QueueConcat(a.queue, [Stop]);
    assert [Stop][1..] == [];
    assert a.queue != [] ==> (a.queue + [Stop])[1..] == a.queue[1..] + [Stop];
  }

  /** Everything kept for one agent. */
  datatype Slot = Slot(agent: Option<Agent>, callbacks: seq<Callback>, pending: seq<Request>, account: Account)

  ghost predicate ValidSlot(s: Slot) {
    && (s.agent.Some? ==> Orderly(s.agent.value))
    && WaitsForRestart(s.agent, s.pending, s.callbacks)
    && Conserved(s.account, s.agent, s.pending, s.callbacks)
  }

  /** The runner's maps. */
  datatype Maps = Maps(agents: map<Url, Agent>, callbacks: map<Url, seq<Callback>>,
                       pending: map<Url, seq<Request>>, accounts: map<Url, Account>)

  function SlotIn(m: Maps, url: Url): Slot {
    Slot(if url in m.agents then Some(m.agents[url]) else None,
         Get(m.callbacks, url), Get(m.pending, url),
         if url in m.accounts then m.accounts[url] else NO_ACCOUNT)
  }

  /** The maps without what they say of one agent. */
  function Others(m: Maps, url: Url): Maps {
    Maps(m.agents - {url}, m.callbacks - {url}, m.pending - {url}, m.accounts - {url})
  }

  /** Lists of callbacks are only kept while they hold something: their presence is what restarts an
      agent. */
  ghost predicate ValidBut(m: Maps, url: Url) {
    && (forall u :: u != url ==> ValidSlot(SlotIn(m, u)))
    && (forall u :: u in m.callbacks ==> m.callbacks[u] != [])
  }

  ghost predicate ValidMaps(m: Maps) {
    && (forall u :: ValidSlot(SlotIn(m, u)))
    && (forall u :: u in m.callbacks ==> m.callbacks[u] != [])
  }

  lemma SameAt<T>(a: map<Url, T>, b: map<Url, T>, url: Url, u: Url)
    requires a - {url} == b - {url} && u != url
    ensures u in a <==> u in b
    ensures u in a ==> a[u] == b[u]
  {
    assert u in a <==> u in a - {url};
    assert u in b <==> u in b - {url};
    if u in a {
      assert a[u] == (a - {url})[u] && b[u] == (b - {url})[u];
    }
  }

  lemma OthersSlot(m: Maps, n: Maps, url: Url, u: Url)
    requires Others(n, url) == Others(m, url) && u != url
    ensures SlotIn(n, u) == SlotIn(m, u)
    ensures u in n.callbacks <==> u in m.callbacks
    ensures u in n.callbacks ==> n.callbacks[u] == m.callbacks[u]
  {
    var p, q := Others(n, url), Others(m, url);
    SameAt(n.agents, m.agents, url, u);
    SameAt(n.callbacks, m.callbacks, url, u);
    SameAt(n.pending, m.pending, url, u);
    SameAt(n.accounts, m.accounts, url, u);
  }

  /** Changing one agent's slot leaves the others valid. */
  lemma OthersStayValid(m: Maps, n: Maps, url: Url)
    requires ValidBut(m, url) && Others(n, url) == Others(m, url)
    requires url in n.callbacks ==> n.callbacks[url] != []
    ensures ValidBut(n, url)
  {
    hide ValidSlot, Others, SlotIn;
    forall u | u != url ensures ValidSlot(SlotIn(n, u)) {
      OthersSlot(m, n, url, u);
      assert ValidSlot(SlotIn(m, u));
    }
    forall u | u in n.callbacks ensures n.callbacks[u] != [] {
      if u != url { OthersSlot(m, n, url, u); }
    }
  }

  lemma Conclude(m: Maps, n: Maps, url: Url)
    requires ValidBut(m, url) && Others(n, url) == Others(m, url)
    requires (url in n.callbacks ==> n.callbacks[url] != []) && ValidSlot(SlotIn(n, url))
    ensures ValidMaps(n)
  {
    hide ValidSlot, Others, SlotIn;
    OthersStayValid(m, n, url);
    forall u ensures ValidSlot(SlotIn(n, u)) {
      if u != url { assert ValidSlot(SlotIn(n, u)); }
    }
  }

  lemma FromAll(m: Maps, url: Url)
    requires ValidMaps(m)
    ensures ValidBut(m, url) && ValidSlot(SlotIn(m, url))
  {
    hide ValidSlot, SlotIn;
  }

  lemma Fields(m: Maps, url: Url)
    ensures var s := SlotIn(m, url);
      && (s.agent.Some? <==> url in m.agents) && (s.agent.Some? ==> s.agent.value == m.agents[url])
      && s.callbacks == Get(m.callbacks, url) && s.pending == Get(m.pending, url)
  {
  }

  lemma ForgetSet<T>(a: map<Url, T>, url: Url, x: T)
    ensures a[url := x] - {url} == a - {url}
    ensures a - {url} - {url} == a - {url}
  {
  }

  lemma SetAgent(m: Maps, url: Url, a: Agent)
    ensures var n := m.(agents := m.agents[url := a]);
      Others(n, url) == Others(m, url) && SlotIn(n, url) == SlotIn(m, url).(agent := Some(a))
  {
    ForgetSet(m.agents, url, a);
  }

  lemma UnsetAgent(m: Maps, url: Url)
    ensures var n := m.(agents := m.agents - {url});
      Others(n, url) == Others(m, url) && SlotIn(n, url) == SlotIn(m, url).(agent := None)
  {
    ForgetSet(m.agents, url, NewAgent());
  }

  lemma SetCallbacks(m: Maps, url: Url, c: seq<Callback>)
    ensures var n := m.(callbacks := m.callbacks[url := c]);
      Others(n, url) == Others(m, url) && SlotIn(n, url) == SlotIn(m, url).(callbacks := c)
  {
    ForgetSet(m.callbacks, url, c);
  }

  lemma UnsetCallbacks(m: Maps, url: Url)
    ensures var n := m.(callbacks := m.callbacks - {url});
      Others(n, url) == Others(m, url) && SlotIn(n, url) == SlotIn(m, url).(callbacks := [])
  {
    ForgetSet(m.callbacks, url, []);
  }

  lemma SetPending(m: Maps, url: Url, p: seq<Request>)
    ensures var n := m.(pending := m.pending[url := p]);
      Others(n, url) == Others(m, url) && SlotIn(n, url) == SlotIn(m, url).(pending := p)
  {
    ForgetSet(m.pending, url, p);
  }

  lemma UnsetPending(m: Maps, url: Url)
    ensures var n := m.(pending := m.pending - {url});
      Others(n, url) == Others(m, url) && SlotIn(n, url) == SlotIn(m, url).(pending := [])
  {
    ForgetSet(m.pending, url, []);
  }

  lemma SetAccount(m: Maps, url: Url, t: Account)
    ensures var n := m.(accounts := m.accounts[url := t]);
      Others(n, url) == Others(m, url) && SlotIn(n, url) == SlotIn(m, url).(account := t)
  {
    ForgetSet(m.accounts, url, t);
  }

  /** What a request does to a slot: it waits for the restart of a terminating agent, and otherwise all
      that waits goes to the agent, which is started if need be. */
  function Requested(s: Slot, done: Callback): Slot {
    if s.agent.Some? && s.agent.value.phase == TERMINATING then s.(callbacks := s.callbacks + [done])
    else Slot(Some(Served(s.agent.GetOr(NewAgent()), s.pending, done)), [], [], s.account)
  }

  function AcceptConn(s: Slot, conn: Request): Slot {
    s.(pending := s.pending + [conn], account := s.account.(conns := s.account.conns + [conn]))
  }

  function AcceptTask(s: Slot, task: Request): Slot {
    s.(account := s.account.(tasks := s.account.tasks + [task]))
  }

  /** A slot that is valid once the callback is taken into account. */
  ghost predicate ValidWith(s: Slot, done: Callback) {
    && (s.agent.Some? ==> Orderly(s.agent.value))
    && (s.callbacks != [] ==> s.agent.Some? && s.agent.value.phase == TERMINATING)
    && (s.pending != [] ==> ForwardConnections in s.callbacks + [done])
    && Conserved(s.account, s.agent, s.pending, s.callbacks + [done])
  }

  lemma AcceptConnValid(s: Slot, conn: Request)
    requires ValidSlot(s)
    ensures ValidWith(AcceptConn(s, conn), ForwardConnections)
  {
    CallbackTasksConcat(s.callbacks, [ForwardConnections]);
    assert [ForwardConnections][1..] == [];
    var queue := if s.agent.Some? then s.agent.value.queue else [];
    assert s.account.conns + [conn] == Requests(s.account.connsSettled) + Conns(queue) + (s.pending + [conn]);
  }

  lemma AcceptTaskValid(s: Slot, task: Request)
    requires ValidSlot(s)
    ensures ValidWith(AcceptTask(s, task), NewTask(task))
  {
    CallbackTasksConcat(s.callbacks, [NewTask(task)]);
    assert [NewTask(task)][1..] == [];
  }

  lemma RequestedValid(s: Slot, done: Callback)
    requires ValidWith(s, done)
    ensures ValidSlot(Requested(s, done))
  {
    if !(s.agent.Some? && s.agent.value.phase == TERMINATING) {
      assert s.callbacks + [done] == [done] + [];
      if s.agent.None? { NewAgentConserves(s.account, s.pending, [done]); }
      ServeConserves(s.account, s.agent.GetOr(NewAgent()), s.pending, done, []);
    }
  }

  /** A restarted slot: the new instance has been given everything that waited. */
  function Restarted(s: Slot): Slot {
    Slot(Some(ServedAll(NewAgent(), s.pending, s.callbacks).0), [], [], s.account)
  }

  /** The slot once the agent's head operation is done. */
  function Stepped(s: Slot): Slot
    requires s.agent.Some? && s.agent.value.queue != []
  {
    var a, t := s.agent.value, s.account;
    var b := a.(queue := a.queue[1..]);
    match a.queue[0]
    case Initialize => s.(agent := Some(b.(phase := RUNNING)))
    case Connect(c) =>
      s.(agent := Some(b.(bindings := a.bindings + 1)),
         account := t.(connsSettled := t.connsSettled + [Settled(c, true)]))
    case RunTask(k) =>
      s.(agent := Some(b.(incompleteTasks := a.incompleteTasks + 1)),
         account := t.(tasksSettled := t.tasksSettled + [Settled(k, true)]))
    case Stop =>
      s.(agent := Some(if a.bindings == 0 && a.incompleteTasks == 0 then a.(phase := TERMINATING) else b))
  }

  lemma SteppedValid(s: Slot)
    requires ValidSlot(s) && s.agent.Some? && s.agent.value.queue != [] && s.agent.value.phase != TERMINATING
    ensures ValidSlot(Stepped(s))
    ensures s.agent.value.queue[0] != Initialize ==> s.agent.value.phase == RUNNING
  {
    AdvanceConserves(s.account, s.agent.value, s.pending, s.callbacks);
  }

  /** The agent once one of its controllers has gone away; when none is left it may stop. */
  function Unbound(a: Agent): Agent
    requires a.bindings > 0
  {
    a.(bindings := a.bindings - 1, queue := if a.bindings == 1 then a.queue + [Stop] else a.queue)
  }

  /** The agent once a task is complete; it may stop. */
  function Completed(a: Agent): Agent
    requires a.incompleteTasks > 0
  {
    a.(incompleteTasks := a.incompleteTasks - 1, queue := a.queue + [Stop])
  }

  /** The slot once its instance is gone; what came while it was terminating reaches a new one. */
  function Removed(s: Slot): Slot
    requires s.agent.Some?
  {
    var t := s.(agent := None, account := Dropped(s.account, s.agent.value));
    if s.callbacks == [] then t else Restarted(t)
  }

  lemma NoEmptyCallbacks(m: Maps, url: Url)
    requires ValidBut(m, url)
    ensures url in m.callbacks ==> m.callbacks[url] != []
  {
  }

  /** Callbacks only wait for a terminating agent. */
  lemma NoCallbacks(m: Maps, url: Url, done: Callback)
    requires ValidWith(SlotIn(m, url), done) && ValidBut(m, url)
    requires url in m.agents ==> m.agents[url].phase != TERMINATING
    ensures SlotIn(m, url).callbacks == [] && url !in m.callbacks
    ensures SlotIn(m, url).pending != [] ==> done == ForwardConnections
  {
  }

  lemma ServedNone(a: Agent, pending: seq<Request>)
    ensures ServedAll(a, pending, []) == (a, pending)
  {
  }

  lemma ServedStep(a: Agent, pending: seq<Request>, callbacks: seq<Callback>, i: nat)
    requires i < |callbacks|
    ensures var (b, left) := ServedAll(a, pending, callbacks[..i]);
      ServedAll(a, pending, callbacks[..i + 1]) ==
        (Served(b, left, callbacks[i]), if callbacks[i] == ForwardConnections then [] else left)
  {
    assert callbacks[..i + 1][..i] == callbacks[..i];
  }

  lemma ServedOnce(pending: seq<Request>, done: Callback)
    ensures ServedAll(NewAgent(), pending, [done]).0 == Served(NewAgent(), pending, done)
  {
    assert [done][..0] == [];
    assert ServedAll(NewAgent(), pending, [done][..0]) == (NewAgent(), pending);
  }

  lemma ReplacedValid(s: Slot, a: Agent)
    requires ValidSlot(s) && s.agent.Some? && a.phase == s.agent.value.phase
    requires a.queue == s.agent.value.queue || a.queue == s.agent.value.queue + [Stop]
    ensures ValidSlot(s.(agent := Some(a)))
  {
    QueueStop(s.account, s.agent.value, s.pending, s.callbacks);
  }

  lemma {:induction false} ServedAllConserves(
      account: Account, a: Agent, pending: seq<Request>, callbacks: seq<Callback>, rest: seq<Callback>)
    requires Conserved(account, Some(a), pending, callbacks + rest) && Orderly(a)
    ensures var (b, left) := ServedAll(a, pending, callbacks);
      && Conserved(account, Some(b), left, rest) && Orderly(b)
      && (ForwardConnections in callbacks ==> left == [])
      && (pending == [] ==> left == [])
  {
    hide Conserved, Orderly, Served;
    if callbacks == [] {
      assert callbacks + rest == rest;
    } else {
      var n := |callbacks| - 1;
      assert callbacks + rest == callbacks[..n] + ([callbacks[n]] + rest);
      ServedAllConserves(account, a, pending, callbacks[..n], [callbacks[n]] + rest);
      var (b, left) := ServedAll(a, pending, callbacks[..n]);
      ServeConserves(account, b, left, callbacks[n], rest);
      assert ForwardConnections in callbacks ==>
        ForwardConnections in callbacks[..n] || callbacks[n] == ForwardConnections;
    }
  }

  lemma RemovedValid(s: Slot)
    requires ValidSlot(s) && s.agent.Some?
    ensures ValidSlot(Removed(s))
    ensures s.pending != [] ==> ForwardConnections in s.callbacks
  {
    DropConserves(s.account, s.agent.value, s.pending, s.callbacks);
    if s.callbacks != [] {
      var account := Dropped(s.account, s.agent.value);
      NewAgentConserves(account, s.pending, s.callbacks);
      assert s.callbacks + [] == s.callbacks;
      ServedAllConserves(account, NewAgent(), s.pending, s.callbacks, []);
    }
  }

  /** What becomes of a connection or a task: a live agent has it at the end of its queue, a new instance has it
      after its initialization, and while the old instance terminates it waits behind what already does. */
  ghost predicate Reached(s: Slot, t: Slot, op: AgentOp) {
    if s.agent.Some? && s.agent.value.phase == TERMINATING then
      && t.agent == s.agent
      && t.callbacks == s.callbacks + [if op.RunTask? then NewTask(op.task) else ForwardConnections]
      && t.pending == if op.Connect? then s.pending + [op.conn] else s.pending
    else
      && t.callbacks == [] && t.pending == []
      && t.agent == Some(if s.agent.Some? then s.agent.value.(queue := s.agent.value.queue + [op])
                         else Agent(INITIALIZING, [Initialize, op], 0, 0))
  }

  lemma ConnReaches(s: Slot, conn: Request)
    requires ValidSlot(s)
    ensures Reached(s, Requested(AcceptConn(s, conn), ForwardConnections), Connect(conn))
  {
    assert [] + [conn] == [conn] && AsConnects([conn]) == [Connect(conn)];
    assert [Initialize] + [Connect(conn)] == [Initialize, Connect(conn)];
  }

  lemma TaskReaches(s: Slot, task: Request)
    requires ValidSlot(s)
    ensures Reached(s, Requested(AcceptTask(s, task), NewTask(task)), RunTask(task))
  {
    assert [Initialize] + [RunTask(task)] == [Initialize, RunTask(task)];
  }

  /** What an account leaves over is determined by what it has settled. */
  lemma SameRest(conns: seq<Request>, given: seq<Request>, waiting: seq<Request>, queued: seq<Request>,
                 tasks: seq<Request>, done: seq<Request>, left: seq<Request>, now: seq<Request>)
    requires conns == given + [] + waiting && conns == given + queued + []
    requires tasks == done + [] + left && tasks == done + now + []
    ensures queued == waiting && now == left
  {
    assert conns[|given|..] == waiting && conns[|given|..] == queued;
    assert tasks[|done|..] == left && tasks[|done|..] == now;
  }

  lemma {:induction false} ServedAllFresh(a: Agent, pending: seq<Request>, callbacks: seq<Callback>)
    requires a.queue != []
    ensures var b := ServedAll(a, pending, callbacks).0;
      && b.phase == a.phase && b.bindings == a.bindings && b.incompleteTasks == a.incompleteTasks
      && b.queue != [] && b.queue[0] == a.queue[0]
    decreases |callbacks|
  {
    if callbacks != [] { ServedAllFresh(a, pending, callbacks[..|callbacks| - 1]); }
  }

  /** The next instance is new, and its queue has exactly what waited: by conservation, in the order it came. */
  lemma RestartHasAll(s: Slot)
    requires ValidSlot(s) && s.agent.Some?
    ensures Removed(s).agent.Some? <==> s.callbacks != []
    ensures Removed(s).agent.Some? ==>
      var a := Removed(s).agent.value;
      && a.phase == INITIALIZING && a.bindings == 0 && a.incompleteTasks == 0
      && a.queue != [] && a.queue[0] == Initialize
      && Conns(a.queue) == s.pending && Tasks(a.queue) == CallbackTasks(s.callbacks)
  {
    hide Orderly;
    RemovedValid(s);
    DropConserves(s.account, s.agent.value, s.pending, s.callbacks);
    if s.callbacks != [] {
      var t := Removed(s);
      ServedAllFresh(NewAgent(), s.pending, s.callbacks);
      assert CallbackTasks([]) == [] && Conns([]) == [] && Tasks([]) == [];
      hide ServedAll, Conns, Tasks, CallbackTasks, Requests, Dropped;
      assert t.account == Dropped(s.account, s.agent.value);
      var queue, a := t.agent.value.queue, t.account;
      hide ValidSlot, Removed;
      SameRest(a.conns, Requests(a.connsSettled), s.pending, Conns(queue), a.tasks, Requests(a.tasksSettled),
               CallbackTasks(s.callbacks), Tasks(queue));
    }
  }

  // ---------------------------------------------------------------- what becomes of a queue

  /** Nothing keeps the agent alive. */
  predicate Idle(a: Agent) {
    a.bindings == 0 && a.incompleteTasks == 0
  }

  /** The agent comes to a stop before it comes to any connection or task. */
  predicate StopsFirst(queue: seq<AgentOp>) {
    queue != [] && (queue[0].Stop? || (queue[0].Initialize? && StopsFirst(queue[1..])))
  }

  /** The slot once the agent has worked on its queue as far as it gets, with nothing else happening. */
  function Drain(s: Slot): (d: Slot)
    requires s.agent.Some?
    ensures d.agent.Some?
    decreases if s.agent.value.phase == TERMINATING then 0 else |s.agent.value.queue| + 1
  {
    if s.agent.value.phase == TERMINATING || s.agent.value.queue == [] then s else Drain(Stepped(s))
  }

  /** The slot once the instance, if it has stopped, is gone. */
  function Outcome(s: Slot): Slot
    requires s.agent.Some?
  {
    if Drain(s).agent.value.phase == TERMINATING then Removed(Drain(s)) else Drain(s)
  }

  function Settle(requests: seq<Request>, given: bool): (r: seq<Settled>)
    ensures |r| == |requests|
  {
    seq(|requests|, i requires 0 <= i < |requests| => Settled(requests[i], given))
  }

  lemma SettleOne(settled: seq<Settled>, x: Request, rest: seq<Request>)
    ensures settled + Settle([x] + rest, true) == (settled + [Settled(x, true)]) + Settle(rest, true)
    ensures settled + Settle([], true) == settled
  {
  }

  /** The requests settled by serving the whole queue. */
  ghost predicate AllServed(before: Account, after: Account, queue: seq<AgentOp>) {
    && after.connsSettled == before.connsSettled + Settle(Conns(queue), true)
    && after.tasksSettled == before.tasksSettled + Settle(Tasks(queue), true)
  }

  lemma ServedFirst(before: Account, after: Account, queue: seq<AgentOp>, first: Account)
    requires queue != [] && AllServed(first, after, queue[1..])
    requires first == match queue[0]
      case Connect(c) => before.(connsSettled := before.connsSettled + [Settled(c, true)])
      case RunTask(k) => before.(tasksSettled := before.tasksSettled + [Settled(k, true)])
      case _ => before
    ensures AllServed(before, after, queue)
  {
    var rest := queue[1..];
    match queue[0]
    case Connect(c) => SettleOne(before.connsSettled, c, Conns(rest));
    case RunTask(k) => SettleOne(before.tasksSettled, k, Tasks(rest));
    case _ =>
  }

  lemma NothingServed(account: Account)
    ensures AllServed(account, account, [])
  {
  }

  /** An agent that something keeps alive serves its whole queue: no stop takes effect. */
  lemma {:induction false} BusyServesAll(s: Slot)
    requires s.agent.Some? && s.agent.value.phase == RUNNING && !Idle(s.agent.value)
    requires Initialize !in s.agent.value.queue
    ensures Drain(s).agent.value.phase == RUNNING && Drain(s).agent.value.queue == []
    ensures Drain(s).callbacks == s.callbacks && Drain(s).pending == s.pending
    ensures AllServed(s.account, Drain(s).account, s.agent.value.queue)
    decreases |s.agent.value.queue|
  {
    hide AllServed;
    var queue := s.agent.value.queue;
    if queue == [] {
      NothingServed(s.account);
    } else {
      BusyServesAll(Stepped(s));
      ServedFirst(s.account, Drain(s).account, queue, Stepped(s).account);
    }
  }

  /** The same connections and the same tasks, each in order. */
  predicate SameRequests(p: seq<AgentOp>, q: seq<AgentOp>) {
    Conns(p) == Conns(q) && Tasks(p) == Tasks(q)
  }

  lemma SameAsItself(queue: seq<AgentOp>)
    ensures SameRequests(queue, queue)
  {
  }

  lemma SameWithoutInitialize(p: seq<AgentOp>, queue: seq<AgentOp>)
    requires queue != [] && queue[0].Initialize? && SameRequests(p, queue[1..])
    ensures SameRequests(p, queue)
  {
  }

  /** An instance stops with its queue unserved exactly when nothing keeps it alive and a stop comes
      first; otherwise it serves its whole queue. */
  lemma {:induction false} DrainStops(s: Slot)
    requires s.agent.Some? && Orderly(s.agent.value) && s.agent.value.phase != TERMINATING
    ensures var a, d := s.agent.value, Drain(s);
      && (d.agent.value.phase == TERMINATING <==> Idle(a) && StopsFirst(a.queue))
      && (d.agent.value.phase != TERMINATING ==> d.agent.value.phase == RUNNING && d.agent.value.queue == [])
      && d.callbacks == s.callbacks && d.pending == s.pending
      && (if d.agent.value.phase == TERMINATING
          then d.account == s.account && SameRequests(d.agent.value.queue, a.queue)
          else AllServed(s.account, d.account, a.queue))
    decreases |s.agent.value.queue|
  {
    hide AllServed, SameRequests;
    var a := s.agent.value;
    SameAsItself(a.queue);
    if a.queue == [] {
      NothingServed(s.account);
    } else if a.phase == RUNNING && !Idle(a) {
      BusyServesAll(s);
    } else {
      var t := Stepped(s);
      if a.queue[0].Initialize? {
        DrainStops(t);
        if Drain(t).agent.value.phase == TERMINATING {
          SameWithoutInitialize(Drain(t).agent.value.queue, a.queue);
        } else {
          ServedFirst(s.account, Drain(s).account, a.queue, t.account);
        }
      } else if a.queue[0].Stop? {
        assert Drain(t) == t;
      } else {
        BusyServesAll(t);
        ServedFirst(s.account, Drain(s).account, a.queue, t.account);
      }
    }
  }

  /** The account once everything a queue holds has been given to the agent, or lost. */
  function SettledAll(account: Account, queue: seq<AgentOp>, given: bool): Account {
    account.(connsSettled := account.connsSettled + Settle(Conns(queue), given),
             tasksSettled := account.tasksSettled + Settle(Tasks(queue), given))
  }

  /** The agent is idle and comes to a stop before any connection or task. */
  predicate LosesQueue(a: Agent) {
    Idle(a) && StopsFirst(a.queue)
  }

  /** If nothing else happens, a live agent is given all its queue holds, or loses all of it. */
  lemma OutcomeIsAllOrNothing(s: Slot)
    requires ValidSlot(s) && s.agent.Some? && s.agent.value.phase != TERMINATING
    ensures var account := SettledAll(s.account, s.agent.value.queue, !LosesQueue(s.agent.value));
      && Outcome(s).account.connsSettled == account.connsSettled
      && Outcome(s).account.tasksSettled == account.tasksSettled
  {
    hide Drain, Orderly, Conserved, StopsFirst, Conns, Tasks;
    DrainStops(s);
    var queue := s.agent.value.queue;
    assert AllDropped(Conns(queue)) == Settle(Conns(queue), false);
    assert AllDropped(Tasks(queue)) == Settle(Tasks(queue), false);
  }

  lemma {:induction false} StopsFirstLonger(queue: seq<AgentOp>, op: AgentOp)
    requires op.Connect? || op.RunTask?
    ensures StopsFirst(queue + [op]) <==> StopsFirst(queue)
  {
    if queue == [] {
      assert queue + [op] == [op];
    } else {
      assert (queue + [op])[1..] == queue[1..] + [op];
      StopsFirstLonger(queue[1..], op);
    }
  }

  /** What becomes of a request that has just been handed to the agent at the end of its queue. */
  lemma OutcomeOfLast(s: Slot, t: Slot, op: AgentOp)
    requires ValidSlot(t) && t.agent.Some? && t.agent.value.phase != TERMINATING
    requires op.Connect? || op.RunTask?
    requires var a := s.agent.GetOr(NewAgent()); t.agent.value == a.(queue := a.queue + [op])
    ensures var a := s.agent.GetOr(NewAgent());
      var account := SettledAll(t.account, a.queue + [op], !LosesQueue(a));
      && Outcome(t).account.connsSettled == account.connsSettled
      && Outcome(t).account.tasksSettled == account.tasksSettled
  {
    var a := s.agent.GetOr(NewAgent());
    StopsFirstLonger(a.queue, op);
    OutcomeIsAllOrNothing(t);
  }

  /** Being handed over is not yet being served. If nothing else happens, a connection is lost exactly when
      the agent is idle and comes to a stop before any connection or task, and then so is all that was queued
      before it; otherwise all of it is given to the agent. */
  lemma HandedOverButLost(s: Slot, conn: Request)
    requires ValidSlot(s) && (s.agent.Some? ==> s.agent.value.phase != TERMINATING)
    ensures Requested(AcceptConn(s, conn), ForwardConnections).agent.Some?
    ensures var a := s.agent.GetOr(NewAgent());
      var given := !LosesQueue(a);
      var account := Outcome(Requested(AcceptConn(s, conn), ForwardConnections)).account;
      && account.connsSettled == s.account.connsSettled + Settle(Conns(a.queue) + [conn], given)
      && account.tasksSettled == s.account.tasksSettled + Settle(Tasks(a.queue), given)
  {
    var a, t := s.agent.GetOr(NewAgent()), Requested(AcceptConn(s, conn), ForwardConnections);
    assert s.pending == [] && AcceptConn(s, conn).pending == [conn] && AsConnects([conn]) == [Connect(conn)];
    AcceptConnValid(s, conn);
    RequestedValid(AcceptConn(s, conn), ForwardConnections);
    ConnectsConns([conn]);
    QueueConcat(a.queue, [Connect(conn)]);
    hide ValidSlot, Outcome, Conns, Tasks, LosesQueue;
    OutcomeOfLast(s, t, Connect(conn));
    assert Tasks(a.queue) + [] == Tasks(a.queue);
  }

  /** The same for a task. */
  lemma TaskHandedOverButLost(s: Slot, task: Request)
    requires ValidSlot(s) && (s.agent.Some? ==> s.agent.value.phase != TERMINATING)
    ensures Requested(AcceptTask(s, task), NewTask(task)).agent.Some?
    ensures var a := s.agent.GetOr(NewAgent());
      var given := !LosesQueue(a);
      var account := Outcome(Requested(AcceptTask(s, task), NewTask(task))).account;
      && account.tasksSettled == s.account.tasksSettled + Settle(Tasks(a.queue) + [task], given)
      && account.connsSettled == s.account.connsSettled + Settle(Conns(a.queue), given)
  {
    var a, t := s.agent.GetOr(NewAgent()), Requested(AcceptTask(s, task), NewTask(task));
    assert s.pending == [];
    AcceptTaskValid(s, task);
    RequestedValid(AcceptTask(s, task), NewTask(task));
    QueueConcat(a.queue, [RunTask(task)]);
    assert [RunTask(task)][1..] == [];
    assert Conns([RunTask(task)]) == [] && Tasks([RunTask(task)]) == [task];
    hide ValidSlot, Outcome, Conns, Tasks, LosesQueue;
    OutcomeOfLast(s, t, RunTask(task));
    assert Conns(a.queue) + [] == Conns(a.queue);
  }

  // ---------------------------------------------------------------- runs

  /** What can happen to one agent. */
  datatype SlotEvent = ConnRequest(conn: Request) | TaskRequest(task: Request) | Work | Unbind | Complete | Gone

  predicate CanHappen(s: Slot, e: SlotEvent) {
    match e
    case ConnRequest(_) => true
    case TaskRequest(_) => true
    case Work => s.agent.Some? && s.agent.value.queue != [] && s.agent.value.phase != TERMINATING
    case Unbind => s.agent.Some? && s.agent.value.bindings > 0
    case Complete => s.agent.Some? && s.agent.value.incompleteTasks > 0
    case Gone => s.agent.Some?
  }

  function After(s: Slot, e: SlotEvent): Slot
    requires CanHappen(s, e)
  {
    match e
    case ConnRequest(conn) => Requested(AcceptConn(s, conn), ForwardConnections)
    case TaskRequest(task) => Requested(AcceptTask(s, task), NewTask(task))
    case Work => Stepped(s)
    case Unbind => s.(agent := Some(Unbound(s.agent.value)))
    case Complete => s.(agent := Some(Completed(s.agent.value)))
    case Gone => Removed(s)
  }

  ghost predicate Leads(s: Slot, events: seq<SlotEvent>, t: Slot)
    decreases |events|
  {
    if events == [] then s == t
    else CanHappen(s, events[0]) && Leads(After(s, events[0]), events[1..], t)
  }

  const NO_SLOT: Slot := Slot(None, [], [], NO_ACCOUNT)

  lemma AfterValid(s: Slot, e: SlotEvent)
    requires ValidSlot(s) && CanHappen(s, e)
    ensures ValidSlot(After(s, e))
  {
    hide ValidSlot, Conserved;
    match e
    case ConnRequest(conn) =>
      AcceptConnValid(s, conn);
      RequestedValid(AcceptConn(s, conn), ForwardConnections);
    case TaskRequest(task) =>
      AcceptTaskValid(s, task);
      RequestedValid(AcceptTask(s, task), NewTask(task));
    case Work => SteppedValid(s);
    case Unbind => ReplacedValid(s, Unbound(s.agent.value));
    case Complete => ReplacedValid(s, Completed(s.agent.value));
    case Gone => RemovedValid(s);
  }

  /** Over any run from nothing every request stays accounted for, each in one place and in order, and
      waiting requests have a callback waiting with them for a terminating instance. */
  lemma {:induction false} RunValid(s: Slot, events: seq<SlotEvent>, t: Slot)
    requires ValidSlot(s) && Leads(s, events, t)
    ensures ValidSlot(t)
    decreases |events|
  {
    if events != [] {
      AfterValid(s, events[0]);
      RunValid(After(s, events[0]), events[1..], t);
    }
  }

  lemma {:induction false} LeadsOn(s: Slot, events: seq<SlotEvent>, t: Slot, e: SlotEvent)
    requires Leads(s, events, t) && CanHappen(t, e)
    ensures Leads(s, events + [e], After(t, e))
    decreases |events|
  {
    if events == [] {
      assert events + [e] == [e] && [e][1..] == [];
    } else {
      assert (events + [e])[1..] == events[1..] + [e];
      LeadsOn(After(s, events[0]), events[1..], t, e);
    }
  }

  /** A connection to an agent that is not there, up to its being served. */
  lemma FirstServed(first: Request)
    ensures var s1 := After(NO_SLOT, ConnRequest(first));
      && s1 == Slot(Some(Agent(INITIALIZING, [Initialize, Connect(first)], 0, 0)), [], [],
                    Account([first], [], [], []))
      && After(s1, Work) == s1.(agent := Some(Agent(RUNNING, [Connect(first)], 0, 0)))
      && After(After(s1, Work), Work) ==
           Slot(Some(Agent(RUNNING, [], 1, 0)), [], [], Account([first], [Settled(first, true)], [], []))
  {
    assert AcceptConn(NO_SLOT, first).pending == [first] && AsConnects([first]) == [Connect(first)];
    assert [Initialize] + [Connect(first)] == [Initialize, Connect(first)];
    assert [Initialize, Connect(first)][1..] == [Connect(first)] && [Connect(first)][1..] == [];
  }

  /** The controller goes, and the next connection comes before the stop is run. */
  lemma SecondLost(t: Account, second: Request)
    ensures var s3 := Slot(Some(Agent(RUNNING, [], 1, 0)), [], [], t);
      var s4 := s3.(agent := Some(Agent(RUNNING, [Stop], 0, 0)));
      var s5 := s4.(agent := Some(Agent(RUNNING, [Stop, Connect(second)], 0, 0)),
                    account := t.(conns := t.conns + [second]));
      && After(s3, Unbind) == s4
      && After(s4, ConnRequest(second)) == s5
      && After(s5, Work) == s5.(agent := Some(s5.agent.value.(phase := TERMINATING)))
  {
    var s4 := Slot(Some(Agent(RUNNING, [Stop], 0, 0)), [], [], t);
    assert [] + [Stop] == [Stop];
    assert AcceptConn(s4, second).pending == [second] && AsConnects([second]) == [Connect(second)];
    assert [Stop] + [Connect(second)] == [Stop, Connect(second)];
  }

  lemma StoppedGone(s: Slot, second: Request)
    requires s.agent == Some(Agent(TERMINATING, [Stop, Connect(second)], 0, 0)) && s.callbacks == []
    ensures After(s, Gone).account ==
      s.account.(connsSettled := s.account.connsSettled + [Settled(second, false)])
  {
    hide Restarted;
    assert [Stop] + [Connect(second)] == [Stop, Connect(second)];
    QueueConcat([Stop], [Connect(second)]);
    assert [Connect(second)][1..] == [] && [Stop][1..] == [];
    assert AllDropped([second]) == [Settled(second, false)] && AllDropped([]) == [];
    assert s.account.tasksSettled + [] == s.account.tasksSettled;
  }

  lemma LeadsNowhere(s: Slot)
    ensures Leads(s, [], s)
  {
  }

  /** A run that loses a connection: an agent is started by one connection, serves it, loses its
      controller and so asks itself to stop; the next connection comes before the stop is run. */
  lemma LosingRun(first: Request, second: Request) returns (events: seq<SlotEvent>, t: Slot)
    ensures Leads(NO_SLOT, events, t)
    ensures t.account.conns == [first, second]
    ensures t.account.connsSettled == [Settled(first, true), Settled(second, false)]
  {
    hide After, Leads;
    FirstServed(first);
    var s1 := After(NO_SLOT, ConnRequest(first));
    var s2 := After(s1, Work);
    var s3 := After(s2, Work);
    SecondLost(s3.account, second);
    var s4 := After(s3, Unbind);
    var s5 := After(s4, ConnRequest(second));
    var s6 := After(s5, Work);
    StoppedGone(s6, second);
    t := After(s6, Gone);
    events := [];
    LeadsNowhere(NO_SLOT);
    LeadsOn(NO_SLOT, events, NO_SLOT, ConnRequest(first));
    events := events + [ConnRequest(first)];
    LeadsOn(NO_SLOT, events, s1, Work);
    events := events + [Work];
    LeadsOn(NO_SLOT, events, s2, Work);
    events := events + [Work];
    LeadsOn(NO_SLOT, events, s3, Unbind);
    events := events + [Unbind];
    LeadsOn(NO_SLOT, events, s4, ConnRequest(second));
    events := events + [ConnRequest(second)];
    LeadsOn(NO_SLOT, events, s5, Work);
    events := events + [Work];
    LeadsOn(NO_SLOT, events, s6, Gone);
    events := events + [Gone];
  }

  class AgentRunner {
    var runningAgents: map<Url, Agent>
    var runAgentCallbacks: map<Url, seq<Callback>>
    var pendingAgentConnections: map<Url, seq<Request>>
    ghost var accounts: map<Url, Account>

    ghost function State(): Maps
      reads this
    {
      Maps(runningAgents, runAgentCallbacks, pendingAgentConnections, accounts)
    }

    ghost predicate Valid()
      reads this
    {
      ValidMaps(State())
    }

    constructor ()
      ensures Valid() && State() == Maps(map[], map[], map[], map[])
    {
      runningAgents, runAgentCallbacks, pendingAgentConnections, accounts := map[], map[], map[], map[];
    }

    /** A connection for an agent. */
    method ConnectToAgent(url: Url, conn: Request)
      requires Valid()
      modifies this
      ensures Valid() && Others(State(), url) == old(Others(State(), url))
      ensures SlotIn(State(), url) == Requested(AcceptConn(old(SlotIn(State(), url)), conn), ForwardConnections)
      ensures Reached(old(SlotIn(State(), url)), SlotIn(State(), url), Connect(conn))
    {
      hide ValidSlot, ValidWith, ValidBut, ValidMaps, Others, SlotIn;
      ghost var m := State();
      ghost var s := SlotIn(m, url);
      FromAll(m, url);
      Fields(m, url);
      AcceptConnValid(s, conn);
      ConnReaches(s, conn);
      NoEmptyCallbacks(m, url);
      SetPending(m, url, s.pending + [conn]);
      pendingAgentConnections := pendingAgentConnections[url := Get(pendingAgentConnections, url) + [conn]];
      SetAccount(State(), url, s.account.(conns := s.account.conns + [conn]));
      accounts := accounts[url := s.account.(conns := s.account.conns + [conn])];
      OthersStayValid(m, State(), url);
      MaybeRunAgent(url, ForwardConnections);
    }

    /** A task for an agent. */
    method StartTask(url: Url, task: Request)
      requires Valid()
      modifies this
      ensures Valid() && Others(State(), url) == old(Others(State(), url))
      ensures SlotIn(State(), url) == Requested(AcceptTask(old(SlotIn(State(), url)), task), NewTask(task))
      ensures Reached(old(SlotIn(State(), url)), SlotIn(State(), url), RunTask(task))
    {
      hide ValidSlot, ValidWith, ValidBut, ValidMaps, Others, SlotIn;
      ghost var m := State();
      ghost var s := SlotIn(m, url);
      FromAll(m, url);
      AcceptTaskValid(s, task);
      TaskReaches(s, task);
      NoEmptyCallbacks(m, url);
      SetAccount(m, url, s.account.(tasks := s.account.tasks + [task]));
      accounts := accounts[url := s.account.(tasks := s.account.tasks + [task])];
      OthersStayValid(m, State(), url);
      MaybeRunAgent(url, NewTask(task));
    }

    /** Does what the callback says once the agent can take it. */
    method MaybeRunAgent(url: Url, done: Callback)
      requires ValidBut(State(), url) && ValidWith(SlotIn(State(), url), done)
      modifies this`runningAgents, this`runAgentCallbacks, this`pendingAgentConnections
      ensures Valid() && Others(State(), url) == old(Others(State(), url))
      ensures SlotIn(State(), url) == Requested(old(SlotIn(State(), url)), done)
    {
      hide ValidSlot, ValidWith, ValidBut, ValidMaps, Others, SlotIn;
      ghost var m := State();
      ghost var s := SlotIn(m, url);
      RequestedValid(s, done);
      Fields(m, url);
      if url in runningAgents {
        if runningAgents[url].phase == TERMINATING {
          SetCallbacks(m, url, s.callbacks + [done]);
          runAgentCallbacks := runAgentCallbacks[url := Get(runAgentCallbacks, url) + [done]];
        } else {
          NoCallbacks(m, url, done);
          Serve(url, done);
        }
      } else {
        NoCallbacks(m, url, done);
        SetCallbacks(m, url, [done]);
        runAgentCallbacks := runAgentCallbacks[url := Get(runAgentCallbacks, url) + [done]];
        assert runAgentCallbacks[url] == [done];
        ServedOnce(s.pending, done);
        RunAgent(url);
      }
      Conclude(m, State(), url);
    }

    /** Runs one callback: connections that wait are handed over, in order. */
    method Serve(url: Url, cb: Callback)
      requires url in runningAgents
      modifies this`runningAgents, this`pendingAgentConnections
      ensures Others(State(), url) == old(Others(State(), url)) && url in runningAgents
      ensures var s := old(SlotIn(State(), url));
        SlotIn(State(), url) == s.(agent := Some(Served(s.agent.value, s.pending, cb)),
                                   pending := if cb == ForwardConnections then [] else s.pending)
    {
      hide ValidSlot, ValidWith, ValidBut, ValidMaps, Others, SlotIn;
      ghost var m := State();
      Fields(m, url);
      match cb
      case ForwardConnections =>
        ghost var a := runningAgents[url];
        if url in pendingAgentConnections {
          var waiting := pendingAgentConnections[url];
          assert a.queue + AsConnects(waiting[..0]) == a.queue;
          assert runningAgents == runningAgents[url := a];
          for i := 0 to |waiting|
            invariant pendingAgentConnections == old(pendingAgentConnections)
            invariant runningAgents == old(runningAgents)[url := a.(queue := a.queue + AsConnects(waiting[..i]))]
          {
            assert a.queue + AsConnects(waiting[..i]) + [Connect(waiting[i])] == a.queue + AsConnects(waiting[..i + 1]);
            NewAgentConnection(url, waiting[i]);
          }
          assert waiting[..|waiting|] == waiting;
          SetAgent(m, url, runningAgents[url]);
          UnsetPending(State(), url);
          pendingAgentConnections := pendingAgentConnections - {url};
        } else {
          assert AsConnects([]) == [] && a.queue + [] == a.queue;
        }
      case NewTask(task) =>
        var a := runningAgents[url];
        SetAgent(m, url, a.(queue := a.queue + [RunTask(task)]));
        runningAgents := runningAgents[url := a.(queue := a.queue + [RunTask(task)])];
    }

    method NewAgentConnection(url: Url, conn: Request)
      requires url in runningAgents
      modifies this`runningAgents
      ensures runningAgents == old(runningAgents)[url :=
        old(runningAgents)[url].(queue := old(runningAgents)[url].queue + [Connect(conn)])]
    {
      var a := runningAgents[url];
      runningAgents := runningAgents[url := a.(queue := a.queue + [Connect(conn)])];
    }

    /** Starts an instance and runs all callbacks that waited for it, after which none is left. */
    method RunAgent(url: Url)
      requires url !in runningAgents && url in runAgentCallbacks
      requires SlotIn(State(), url).pending != [] ==> ForwardConnections in SlotIn(State(), url).callbacks
      modifies this`runningAgents, this`runAgentCallbacks, this`pendingAgentConnections
      ensures Others(State(), url) == old(Others(State(), url))
      ensures SlotIn(State(), url) == Restarted(old(SlotIn(State(), url))) && url !in runAgentCallbacks
    {
      hide ValidSlot, ValidWith, ValidBut, ValidMaps, Others, SlotIn, ServedAll, Served;
      ServedNone(NewAgent(), SlotIn(State(), url).pending);
      ghost var s := SlotIn(State(), url);
      Fields(State(), url);
      SetAgent(State(), url, NewAgent());
      runningAgents := runningAgents[url := NewAgent()];
      var callbacks := runAgentCallbacks[url];
      ghost var m := State();
      ghost var a, left := NewAgent(), s.pending;
      assert callbacks[..0] == [];
      for i := 0 to |callbacks|
        invariant url in runningAgents && runAgentCallbacks == old(runAgentCallbacks)
        invariant Others(State(), url) == Others(m, url)
        invariant (a, left) == ServedAll(NewAgent(), s.pending, callbacks[..i])
        invariant SlotIn(State(), url) == s.(agent := Some(a), pending := left)
        invariant left != [] ==> ForwardConnections in callbacks[i..]
      {
        ServedStep(NewAgent(), s.pending, callbacks, i);
        assert callbacks[i..] == [callbacks[i]] + callbacks[i + 1..];
        Serve(url, callbacks[i]);
        a, left := Served(a, left, callbacks[i]), if callbacks[i] == ForwardConnections then [] else left;
      }
      assert callbacks[..|callbacks|] == callbacks;
      UnsetCallbacks(State(), url);
      runAgentCallbacks := runAgentCallbacks - {url};
    }

    /** The agent works on the head of its queue. It only comes to connections and tasks while it is
        running. */
    method Step(url: Url)
      requires Valid() && url in runningAgents
      requires runningAgents[url].queue != [] && runningAgents[url].phase != TERMINATING
      modifies this`runningAgents, this`accounts
      ensures Valid() && Others(State(), url) == old(Others(State(), url))
      ensures old(SlotIn(State(), url)).agent == Some(old(runningAgents[url]))
      ensures SlotIn(State(), url) == Stepped(old(SlotIn(State(), url)))
      ensures old(runningAgents[url].queue[0]) != Initialize ==> old(runningAgents[url].phase) == RUNNING
      ensures url in runningAgents
      ensures var a, b := old(runningAgents[url]), runningAgents[url];
        && (b.phase == TERMINATING <==> a.queue[0] == Stop && a.bindings == 0 && a.incompleteTasks == 0)
        && (b.phase != TERMINATING ==> b.phase == RUNNING && b.queue == a.queue[1..])
        && b.bindings == (if a.queue[0].Connect? then a.bindings + 1 else a.bindings)
        && b.incompleteTasks == if a.queue[0].RunTask? then a.incompleteTasks + 1 else a.incompleteTasks
    {
      hide ValidSlot, ValidWith, ValidBut, ValidMaps, Others, SlotIn, Get;
      ghost var m := State();
      ghost var s := SlotIn(m, url);
      FromAll(m, url);
      Fields(m, url);
      SteppedValid(s);
      NoEmptyCallbacks(m, url);
      SetAgent(m, url, Stepped(s).agent.value);
      SetAccount(m.(agents := m.agents[url := Stepped(s).agent.value]), url, Stepped(s).account);
      var a := runningAgents[url];
      var b := a.(queue := a.queue[1..]);
      match a.queue[0] {
        case Initialize =>
          runningAgents := runningAgents[url := b.(phase := RUNNING)];
        case Connect(c) =>
          runningAgents := runningAgents[url := b.(bindings := a.bindings + 1)];
          accounts := accounts[url := s.account.(connsSettled := s.account.connsSettled + [Settled(c, true)])];
        case RunTask(t) =>
          runningAgents := runningAgents[url := b.(incompleteTasks := a.incompleteTasks + 1)];
          accounts := accounts[url := s.account.(tasksSettled := s.account.tasksSettled + [Settled(t, true)])];
        case Stop =>
          runningAgents := runningAgents[url :=
            if a.bindings == 0 && a.incompleteTasks == 0 then a.(phase := TERMINATING) else b];
      }
      Conclude(m, State(), url);
    }

    /** A controller goes away. */
    method BindingClosed(url: Url)
      requires Valid() && url in runningAgents && runningAgents[url].bindings > 0
      modifies this`runningAgents
      ensures Valid() && runningAgents == old(runningAgents)[url := Unbound(old(runningAgents[url]))]
      ensures var a, b := old(runningAgents[url]), runningAgents[url];
        && b.bindings == a.bindings - 1 && b.incompleteTasks == a.incompleteTasks && b.phase == a.phase
        && b.queue == if b.bindings == 0 then a.queue + [Stop] else a.queue
    {
      var a := runningAgents[url];
      a := a.(bindings := a.bindings - 1);
      if a.bindings == 0 {
        a := a.(queue := a.queue + [Stop]);
      }
      ReplaceAgent(url, a);
    }

    /** A task is complete. */
    method TaskDone(url: Url)
      requires Valid() && url in runningAgents && runningAgents[url].incompleteTasks > 0
      modifies this`runningAgents
      ensures Valid() && runningAgents == old(runningAgents)[url := Completed(old(runningAgents[url]))]
      ensures var a, b := old(runningAgents[url]), runningAgents[url];
        && b.incompleteTasks == a.incompleteTasks - 1 && b.bindings == a.bindings && b.phase == a.phase
        && b.queue == a.queue + [Stop]
    {
      var a := runningAgents[url];
      a := a.(incompleteTasks := a.incompleteTasks - 1);
      a := a.(queue := a.queue + [Stop]);
      ReplaceAgent(url, a);
    }

    /** Changes an agent's counts, perhaps asking it to stop. */
    method ReplaceAgent(url: Url, a: Agent)
      requires Valid() && url in runningAgents && a.phase == runningAgents[url].phase
      requires a.queue == runningAgents[url].queue || a.queue == runningAgents[url].queue + [Stop]
      modifies this`runningAgents
      ensures Valid() && runningAgents == old(runningAgents)[url := a]
    {
      hide ValidSlot, ValidWith, ValidBut, ValidMaps, Others, SlotIn;
      ghost var m := State();
      FromAll(m, url);
      Fields(m, url);
      NoEmptyCallbacks(m, url);
      ReplacedValid(SlotIn(m, url), a);
      SetAgent(m, url, a);
      runningAgents := runningAgents[url := a];
      Conclude(m, State(), url);
    }

    /** An instance is gone, having stopped or died; what its queue still held is lost. */
    method RemoveAgent(url: Url)
      requires Valid() && url in runningAgents
      modifies this
      ensures Valid() && Others(State(), url) == old(Others(State(), url))
      ensures old(SlotIn(State(), url)).agent == Some(old(runningAgents[url]))
      ensures SlotIn(State(), url) == Removed(old(SlotIn(State(), url)))
      ensures url in runningAgents <==> url in old(runAgentCallbacks)
      ensures url in runningAgents ==>
        && runningAgents[url].phase == INITIALIZING && runningAgents[url].queue != []
        && runningAgents[url].queue[0] == Initialize
        && runningAgents[url].bindings == 0 && runningAgents[url].incompleteTasks == 0
        && Conns(runningAgents[url].queue) == old(Get(pendingAgentConnections, url))
        && Tasks(runningAgents[url].queue) == CallbackTasks(old(runAgentCallbacks)[url])
    {
      hide ValidSlot, ValidWith, ValidBut, ValidMaps, Others, SlotIn;
      ghost var m := State();
      ghost var s := SlotIn(m, url);
      FromAll(m, url);
      Fields(m, url);
      RemovedValid(s);
      RestartHasAll(s);
      NoEmptyCallbacks(m, url);
      SetAccount(m, url, Dropped(s.account, s.agent.value));
      accounts := accounts[url := Dropped(s.account, runningAgents[url])];
      UnsetAgent(State(), url);
      runningAgents := runningAgents - {url};
      if url in runAgentCallbacks {
        RunAgent(url);
      }
      Conclude(m, State(), url);
      Fields(State(), url);
    }
  }
}
