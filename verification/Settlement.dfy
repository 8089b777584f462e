/**
 The settlement loop of LSM data garbage collection (algorithm/Lsmtree/page_kv_noinv.c): every value that
 survived in the victim is looked up, level by level, until it is known whether the levels still point to it.
 Header tables are read asynchronously and shared between the values that need them.
 */
module Settlement {
  import opened Sequences

  /** The memtable and the levels, which do not change during the loop.  route is the run of a level whose range
      and filter admit a key, lookup the entry in a cached level, content the entry in a run's header. */
  datatype World = World(levels: nat, caching: nat, route: (nat, nat) -> Option<nat>, lookup: (nat, nat) -> Option<nat>,
                         content: (nat, nat) -> Option<nat>, memtable: set<nat>)

  /** No run is in two levels. */
  ghost predicate WorldOk(w: World) {
    w.caching <= w.levels &&
    forall i: nat, j: nat, k: nat, l: nat :: w.route(i, k).Some? && w.route(i, k) == w.route(j, l) ==> i == j
  }

  /** Where level i has an entry for the key. */
  function EntryAt(w: World, i: nat, key: nat): Option<nat> {
    if w.route(i, key) == None then None
    else if i < w.caching then w.lookup(i, key) else w.content(w.route(i, key).value, key)
  }

  datatype Result = Caching(level: nat, ppa: nat) | Found(level: nat, run: nat) | NotFound

  /** lsm_find_run from a level on. */
  function FindRun(w: World, level: nat, key: nat): Result
    decreases w.levels - level
  {
    if level >= w.levels then NotFound
    else if w.route(level, key) == None then FindRun(w, level + 1, key)
    else if level >= w.caching then Found(level, w.route(level, key).value)
    else if w.lookup(level, key).Some? then Caching(level, w.lookup(level, key).value)
    else FindRun(w, level + 1, key)
  }

  /** The levels lsm_find_run passes have no entry; the one it stops at has a run for the key. */
  lemma {:induction false} FindRunIs(w: World, level: nat, key: nat)
    ensures match FindRun(w, level, key)
            case Caching(i, p) => level <= i < w.levels && i < w.caching && EntryAt(w, i, key) == Some(p)
                                  && forall j: nat :: level <= j < i ==> EntryAt(w, j, key) == None
            case Found(i, r) => level <= i < w.levels && i >= w.caching && w.route(i, key) == Some(r)
                                && forall j: nat :: level <= j < i ==> EntryAt(w, j, key) == None
            case NotFound => forall j: nat :: level <= j < w.levels ==> EntryAt(w, j, key) == None
    decreases w.levels - level
  {
    if level < w.levels && (w.route(level, key) == None || (level < w.caching && w.lookup(level, key) == None)) {
      FindRunIs(w, level + 1, key);
    }
  }

  /** The first level with an entry for the key, from a level on. */
  ghost predicate FirstAt(w: World, key: nat, i: nat) {
    i < w.levels && EntryAt(w, i, key).Some? && forall j: nat :: j < i ==> EntryAt(w, j, key) == None
  }

  /** What the loop has to find out: whether the newest entry of the key, the memtable's before any level's, points to
      this value. */
  ghost predicate Newest(w: World, key: nat, ppa: nat) {
    key !in w.memtable && exists i: nat :: FirstAt(w, key, i) && EntryAt(w, i, key) == Some(ppa)
  }

  /** A newer entry in the memtable is not looked at, because a cached level answers with this value. */
  ghost predicate Overlooked(w: World, key: nat, ppa: nat) {
    key in w.memtable && exists i: nat :: FirstAt(w, key, i) && i < w.caching && EntryAt(w, i, key) == Some(ppa)
  }

  /** What the loop does find out. */
  ghost predicate Answer(w: World, key: nat, ppa: nat) { Newest(w, key, ppa) || Overlooked(w, key, ppa) }

  // ---------------------------------------------------------------- nodes and runs

  datatype Status = NotIssue | Retry | Issue | ReadDone | SameRun | Done | NoUptDone

  /** A value of the victim and its parameters; data says whether it holds a table of its own. */
  datatype Node = Node(key: nat, ppa: nat, status: Status, level: nat, run: nat, ent: nat, data: bool)

  /** A run: being read, the nodes waiting for it, its table in memory, gc_should_write set. */
  datatype Run = Run(flying: bool, waiters: seq<nat>, data: bool, shouldWrite: bool)

  predicate Settled(s: Status) { s == Done || s == NoUptDone }

  predicate Loading(s: Status) { s == Issue || s == ReadDone }

  predicate OnRun(s: Status) { s == Issue || s == ReadDone || s == SameRun }

  /** The level from which a node will look next. */
  function NextLevel(n: Node): nat { if n.run > 0 then n.level + 1 else n.level }

  /** What is known about a node by its status. */
  ghost predicate NodeOk(w: World, n: Node) {
    && (exists i: nat :: FirstAt(w, n.key, i))
    && match n.status
       case NotIssue => n.level == 0 && n.run == 0
       case Retry => n.run > 0 && n.level >= w.caching && n.key !in w.memtable && PassedTo(w, n.key, n.level + 1)
       case Done => Answer(w, n.key, n.ppa)
       case NoUptDone => !Answer(w, n.key, n.ppa)
       case _ => OnRunOk(w, n)
  }

  ghost predicate OnRunOk(w: World, n: Node) {
    && n.run == 0 && w.caching <= n.level < w.levels && w.route(n.level, n.key) == Some(n.ent) && n.key !in w.memtable
    && PassedTo(w, n.key, n.level)
  }

  ghost predicate PassedTo(w: World, key: nat, level: nat) { forall j: nat :: j < level ==> EntryAt(w, j, key) == None }

  /** A node that has passed every level before its next one still has one to find. */
  lemma StillToFind(w: World, n: Node, i: nat)
    requires PassedTo(w, n.key, NextLevel(n)) && FirstAt(w, n.key, i)
    ensures NextLevel(n) <= i && FindRun(w, NextLevel(n), n.key) != NotFound
  {
    FindRunIs(w, NextLevel(n), n.key);
  }

  lemma FirstIsUnique(w: World, key: nat, i: nat, j: nat)
    requires FirstAt(w, key, i) && FirstAt(w, key, j)
    ensures i == j
  {
  }

  /** The answer once the first entry is known. */
  lemma AnswerAt(w: World, key: nat, ppa: nat, i: nat)
    requires FirstAt(w, key, i)
    ensures Answer(w, key, ppa) <==> EntryAt(w, i, key) == Some(ppa) && (i < w.caching || key !in w.memtable)
  {
    if Answer(w, key, ppa) {
      var j: nat :| FirstAt(w, key, j) && EntryAt(w, j, key) == Some(ppa) && (j < w.caching || key !in w.memtable);
      FirstIsUnique(w, key, i, j);
    }
  }

  // ---------------------------------------------------------------- counting

  function Count(nodes: seq<Node>): nat {
    if nodes == [] then 0 else Count(nodes[..|nodes| - 1]) + One(Settled(nodes[|nodes| - 1].status))
  }

  function One(b: bool): nat { if b then 1 else 0 }

  lemma {:induction false} CountSet(nodes: seq<Node>, i: nat, n: Node)
    requires i < |nodes|
    ensures Count(nodes[i := n]) == Count(nodes) - One(Settled(nodes[i].status)) + One(Settled(n.status))
    decreases |nodes|
  {
    var k := |nodes| - 1;
    if i < k {
      CountSet(nodes[..k], i, n);
      assert nodes[i := n][..k] == nodes[..k][i := n];
    } else {
      assert nodes[i := n][..k] == nodes[..k];
    }
  }

  lemma {:induction false} CountBound(nodes: seq<Node>)
    ensures Count(nodes) <= |nodes|
    ensures (Count(nodes) == |nodes| <==> forall i :: 0 <= i < |nodes| ==> Settled(nodes[i].status))
    decreases |nodes|
  {
    if nodes != [] { CountBound(nodes[..|nodes| - 1]); }
  }

  // ---------------------------------------------------------------- who waits for what

  ghost predicate WaitersOk(nodes: seq<Node>, waiters: seq<nat>, r: nat) {
    NoDup(waiters) && forall j: nat :: j in waiters <==> j < |nodes| && nodes[j].status == SameRun && nodes[j].ent == r
  }

  /** Every run in flight, but for x, has one loader and its exact waiters; every node on a run, but for y, is one of
      these. */
  ghost predicate RunsOk(nodes: seq<Node>, runs: map<nat, Run>, loader: map<nat, nat>, x: int, y: int) {
    && x !in loader
    && (forall r: nat :: r in loader ==> LoadedBy(nodes, runs, loader[r], r) && loader[r] != y)
    && (forall r: nat :: r in runs && runs[r].flying && r != x ==> r in loader)
    && (forall r: nat :: r in loader ==> WaitersOk(nodes, runs[r].waiters, r))
    && (forall i: nat :: i < |nodes| && i != y && Loading(nodes[i].status) ==>
         nodes[i].ent in loader && loader[nodes[i].ent] == i)
    && (forall i: nat :: i < |nodes| && nodes[i].status == SameRun ==> nodes[i].ent in loader || nodes[i].ent == x)
    && (forall r: nat :: r in runs && runs[r].shouldWrite ==> runs[r].data || runs[r].flying)
  }

  ghost predicate LoadedBy(nodes: seq<Node>, runs: map<nat, Run>, i: nat, r: nat) {
    && r in runs && runs[r].flying && i < |nodes| && Loading(nodes[i].status) && nodes[i].ent == r
    && (nodes[i].data || runs[r].data)
  }

  lemma WaitersSame(nodes: seq<Node>, waiters: seq<nat>, q: nat, i: nat, n: Node)
    requires WaitersOk(nodes, waiters, q) && i < |nodes| && nodes[i].status != SameRun
    requires (n.status != SameRun || n.ent != q)
    ensures WaitersOk(nodes[i := n], waiters, q)
  {
  }

  lemma WaitersJoin(nodes: seq<Node>, waiters: seq<nat>, q: nat, i: nat, n: Node)
    requires WaitersOk(nodes, waiters, q) && i < |nodes| && nodes[i].status != SameRun && n.status == SameRun
    requires n.ent == q
    ensures WaitersOk(nodes[i := n], waiters + [i], q)
  {
    AppendNoDup(waiters, i);
  }

  lemma LoadedSame(nodes: seq<Node>, runs: map<nat, Run>, runs': map<nat, Run>, l: nat, q: nat, i: nat, n: Node)
    requires LoadedBy(nodes, runs, l, q) && i < |nodes| && l != i && q in runs' && runs'[q].flying
    requires (runs[q].data ==> runs'[q].data)
    ensures LoadedBy(nodes[i := n], runs', l, q)
  {
  }

  /** Node i leaves for a settled or idle status. */
  lemma LeaveRuns(nodes: seq<Node>, runs: map<nat, Run>, loader: map<nat, nat>, x: int, i: nat, n: Node)
    requires RunsOk(nodes, runs, loader, x, i) && i < |nodes| && nodes[i].status != SameRun && !OnRun(n.status)
    ensures RunsOk(nodes[i := n], runs, loader, x, -1)
  {
    var nodes' := nodes[i := n];
    assert forall r: nat :: r in loader ==> r in runs && runs[r].flying;
    hide WaitersOk, LoadedBy;
    forall r: nat | r in loader ensures WaitersOk(nodes', runs[r].waiters, r) {
      WaitersSame(nodes, runs[r].waiters, r, i, n);
    }
    forall r: nat | r in loader ensures LoadedBy(nodes', runs, loader[r], r) {
      LoadedSame(nodes, runs, runs, loader[r], r, i, n);
    }
  }

  lemma LoadersFly(nodes: seq<Node>, runs: map<nat, Run>, loader: map<nat, nat>, x: int, y: int)
    requires RunsOk(nodes, runs, loader, x, y)
    ensures forall r: nat :: r in loader ==> r in runs && runs[r].flying
  {
    hide WaitersOk;
  }

  /** Node i joins the waiters of a run in flight. */
  lemma JoinRuns(nodes: seq<Node>, runs: map<nat, Run>, loader: map<nat, nat>, x: int, i: nat, n: Node, r: nat)
    requires RunsOk(nodes, runs, loader, x, i) && i < |nodes| && nodes[i].status != SameRun && n.status == SameRun
    requires n.ent == r
    requires r in runs && runs[r].flying && r != x
    ensures RunsOk(nodes[i := n], runs[r := runs[r].(waiters := runs[r].waiters + [i])], loader, x, -1)
  {
    hide WaitersOk, LoadedBy;
    LoadersFly(nodes, runs, loader, x, i);
    var nodes' := nodes[i := n];
    var runs' := runs[r := runs[r].(waiters := runs[r].waiters + [i])];
    forall q: nat | q in loader ensures WaitersOk(nodes', runs'[q].waiters, q) {
      if q == r { WaitersJoin(nodes, runs[q].waiters, q, i, n); } else { WaitersSame(nodes, runs[q].waiters, q, i, n); }
    }
    forall q: nat | q in loader ensures LoadedBy(nodes', runs', loader[q], q) {
      LoadedSame(nodes, runs, runs', loader[q], q, i, n);
    }
  }

  /** Node i starts to load an idle run. */
  lemma LoadRuns(nodes: seq<Node>, runs: map<nat, Run>, loader: map<nat, nat>, x: int, i: nat, n: Node, r: nat,
                 run: Run)
    requires RunsOk(nodes, runs, loader, x, i) && i < |nodes| && nodes[i].status != SameRun && Loading(n.status)
    requires n.ent == r
    requires r in runs && !runs[r].flying && r != x && run.flying && run.waiters == [] && (n.data || run.data)
    ensures RunsOk(nodes[i := n], runs[r := run], loader[r := i], x, -1)
  {
    hide WaitersOk, LoadedBy;
    LoadersFly(nodes, runs, loader, x, i);
    var nodes' := nodes[i := n];
    var runs' := runs[r := run];
    var loader' := loader[r := i];
    forall q: nat | q in loader' ensures LoadedBy(nodes', runs', loader'[q], q) {
      if q != r { LoadedSame(nodes, runs, runs', loader[q], q, i, n); } else { LoadedNew(nodes', runs', i, r); }
    }
    forall q: nat | q in loader' ensures WaitersOk(nodes', runs'[q].waiters, q) {
      if q != r { WaitersSame(nodes, runs[q].waiters, q, i, n); } else { WaitersNone(nodes, loader, x, i, n, r); }
    }
  }

  lemma LoadedNew(nodes: seq<Node>, runs: map<nat, Run>, i: nat, r: nat)
    requires r in runs && runs[r].flying && i < |nodes| && Loading(nodes[i].status) && nodes[i].ent == r
    requires (nodes[i].data || runs[r].data)
    ensures LoadedBy(nodes, runs, i, r)
  {
  }

  lemma WaitersNone(nodes: seq<Node>, loader: map<nat, nat>, x: int, i: nat, n: Node, r: nat)
    requires i < |nodes| && n.status != SameRun && r !in loader && r != x
    requires forall j: nat :: j < |nodes| && nodes[j].status == SameRun ==> nodes[j].ent in loader || nodes[j].ent == x
    ensures WaitersOk(nodes[i := n], [], r)
  {
  }

  /** Node i, which loaded run r, starts to go through its header. */
  lemma OpenRun(nodes: seq<Node>, runs: map<nat, Run>, loader: map<nat, nat>, i: nat, n: Node)
    requires RunsOk(nodes, runs, loader, -1, -1) && i < |nodes| && Loading(nodes[i].status) && n.status != SameRun
    ensures nodes[i].ent in runs && (nodes[i].data || runs[nodes[i].ent].data)
    ensures WaitersOk(nodes, runs[nodes[i].ent].waiters, nodes[i].ent)
    ensures var r := nodes[i].ent; RunsOk(nodes[i := n], runs[r := runs[r].(data := true)], loader - {r}, r, i)
  {
    var r := nodes[i].ent;
    assert LoadedBy(nodes, runs, i, r) && loader[r] == i;
    LoadersFly(nodes, runs, loader, -1, -1);
    var nodes', runs', loader' := nodes[i := n], runs[r := runs[r].(data := true)], loader - {r};
    hide WaitersOk, LoadedBy;
    forall q: nat | q in loader' ensures WaitersOk(nodes', runs'[q].waiters, q) {
      WaitersSame(nodes, runs[q].waiters, q, i, n);
    }
    forall q: nat | q in loader' ensures LoadedBy(nodes', runs', loader'[q], q) && loader'[q] != i {
      LoadedSame(nodes, runs, runs', loader[q], q, i, n);
    }
  }

  /** A waiter of the open run is judged. */
  lemma WaiterLeaves(nodes: seq<Node>, runs: map<nat, Run>, loader: map<nat, nat>, x: int, y: int, j: nat, n: Node)
    requires RunsOk(nodes, runs, loader, x, y) && j < |nodes| && j != y && nodes[j].status == SameRun
    requires nodes[j].ent == x && !OnRun(n.status)
    ensures RunsOk(nodes[j := n], runs, loader, x, y)
  {
    LoadersFly(nodes, runs, loader, x, y);
    var nodes' := nodes[j := n];
    forall q: nat | q in loader ensures WaitersOk(nodes', runs[q].waiters, q) {
      assert WaitersOk(nodes, runs[q].waiters, q);
    }
    forall q: nat | q in loader ensures LoadedBy(nodes', runs, loader[q], q) {
      assert LoadedBy(nodes, runs, loader[q], q);
    }
  }

  /** gc_should_write of the open run is set. */
  lemma MarkRun(nodes: seq<Node>, runs: map<nat, Run>, loader: map<nat, nat>, x: nat, y: int)
    requires RunsOk(nodes, runs, loader, x, y) && x in runs && runs[x].data
    ensures RunsOk(nodes, runs[x := runs[x].(shouldWrite := true)], loader, x, y)
  {
    hide WaitersOk;
    var runs' := runs[x := runs[x].(shouldWrite := true)];
    forall q: nat | q in loader ensures LoadedBy(nodes, runs', loader[q], q) {
      assert LoadedBy(nodes, runs, loader[q], q);
    }
  }

  /** The open run has no waiters left and is closed. */
  lemma CloseRun(nodes: seq<Node>, runs: map<nat, Run>, loader: map<nat, nat>, x: nat)
    requires RunsOk(nodes, runs, loader, x, -1) && x in runs && runs[x].data
    requires forall j: nat :: j < |nodes| && nodes[j].status == SameRun ==> nodes[j].ent != x
    ensures RunsOk(nodes, runs[x := runs[x].(flying := false)], loader, -1, -1)
  {
    hide WaitersOk;
    var runs' := runs[x := runs[x].(flying := false)];
    forall q: nat | q in loader ensures LoadedBy(nodes, runs', loader[q], q) {
      assert LoadedBy(nodes, runs, loader[q], q);
    }
  }

  /** The node in hand need not be set apart once it is idle. */
  lemma IdleAgain(nodes: seq<Node>, runs: map<nat, Run>, loader: map<nat, nat>, x: int, i: nat)
    requires RunsOk(nodes, runs, loader, x, i) && i < |nodes| && !Loading(nodes[i].status)
    ensures RunsOk(nodes, runs, loader, x, -1)
  {
    hide WaitersOk, LoadedBy;
  }

  // ---------------------------------------------------------------- one lookup

  /** A node about to look further: what gc_data_issue_header may rely on, whatever the status. */
  ghost predicate Ready(w: World, n: Node) {
    && (exists i: nat :: FirstAt(w, n.key, i)) && PassedTo(w, n.key, NextLevel(n))
    && (if n.run > 0 then n.level >= w.caching && n.key !in w.memtable else n.level == 0)
  }

  lemma ReadyIs(w: World, n: Node)
    requires NodeOk(w, n) && (n.status == NotIssue || n.status == Retry)
    ensures Ready(w, n)
  {
  }

  /** A hit in a cached level settles the node; only a first lookup can have one. */
  lemma CachingIs(w: World, n: Node, l: nat, p: nat)
    requires Ready(w, n) && FindRun(w, NextLevel(n), n.key) == Caching(l, p)
    ensures n.run == 0 && (Answer(w, n.key, n.ppa) <==> p == n.ppa) && exists i: nat :: FirstAt(w, n.key, i)
  {
    FindRunIs(w, NextLevel(n), n.key);
    assert FirstAt(w, n.key, l);
    AnswerAt(w, n.key, n.ppa, l);
  }

  /** A run for a key of the memtable settles the node as out of date; only a first lookup can meet one. */
  lemma MemtableIs(w: World, n: Node, l: nat, r: nat)
    requires Ready(w, n) && FindRun(w, NextLevel(n), n.key) == Found(l, r) && n.key in w.memtable
    ensures n.run == 0 && !Answer(w, n.key, n.ppa) && exists i: nat :: FirstAt(w, n.key, i)
  {
    FindRunIs(w, NextLevel(n), n.key);
    var i: nat :| FirstAt(w, n.key, i);
    assert i >= l;
    AnswerAt(w, n.key, n.ppa, i);
  }

  /** Otherwise the node is on that run, deeper than before. */
  lemma FoundIs(w: World, n: Node, l: nat, r: nat, n': Node)
    requires Ready(w, n) && FindRun(w, NextLevel(n), n.key) == Found(l, r) && n.key !in w.memtable
    requires n'.key == n.key && n'.level == l && n'.run == 0 && n'.ent == r && OnRun(n'.status)
    ensures NodeOk(w, n') && NextLevel(n) <= l < w.levels
  {
    FindRunIs(w, NextLevel(n), n.key);
  }

  lemma NeverNotFound(w: World, n: Node)
    requires Ready(w, n)
    ensures FindRun(w, NextLevel(n), n.key) != NotFound
  {
    var i: nat :| FirstAt(w, n.key, i);
    StillToFind(w, n, i);
  }

  /** What the header of run e says about a node on it. */
  function Judge(w: World, n: Node, e: nat, loads: bool): Node {
    var p := w.content(e, n.key);
    if p == Some(n.ppa) then n.(status := Done)
    else if p.Some? then n.(status := NoUptDone, run := n.run + 1)
    else n.(status := if loads then n.status else Retry, run := n.run + 1)
  }

  /** The judgement is right, and a node without an answer is ready for the next level. */
  lemma JudgeIs(w: World, n: Node, loads: bool)
    requires NodeOk(w, n) && OnRun(n.status)
    ensures var n' := Judge(w, n, n.ent, loads);
            && (w.content(n.ent, n.key).Some? ==> NodeOk(w, n') && Settled(n'.status))
            && (w.content(n.ent, n.key) == None ==> Ready(w, n') && (!loads ==> NodeOk(w, n') && n'.status == Retry))
  {
    if w.content(n.ent, n.key).Some? {
      assert FirstAt(w, n.key, n.level);
      AnswerAt(w, n.key, n.ppa, n.level);
    }
  }

  // ---------------------------------------------------------------- which headers are to be written

  /** The newest entry of the key in the levels is in the header of run r. */
  ghost predicate Decides(w: World, key: nat, r: nat) {
    exists l: nat :: l >= w.caching && FirstAt(w, key, l) && w.route(l, key) == Some(r)
  }

  /** A value that is kept has its entry in the header of run r. */
  ghost predicate Updates(w: World, nodes: seq<Node>, r: nat) {
    exists i: nat :: i < |nodes| && nodes[i].status == Done && Decides(w, nodes[i].key, r)
  }

  /** A header is marked to be written exactly when an entry in it has to be changed for a value that is kept. */
  ghost predicate MarksOk(w: World, nodes: seq<Node>, runs: map<nat, Run>) {
    forall r: nat :: r in runs ==> (runs[r].shouldWrite <==> Updates(w, nodes, r))
  }

  lemma UpdatesSet(w: World, nodes: seq<Node>, i: nat, n: Node, r: nat)
    requires i < |nodes| && nodes[i].status != Done
    ensures Updates(w, nodes[i := n], r) <==> Updates(w, nodes, r) || (n.status == Done && Decides(w, n.key, r))
  {
    hide Decides;
    var nodes' := nodes[i := n];
    if Updates(w, nodes, r) {
      var j: nat :| j < |nodes| && nodes[j].status == Done && Decides(w, nodes[j].key, r);
      assert nodes'[j] == nodes[j];
    }
    if n.status == Done && Decides(w, n.key, r) { assert nodes'[i].status == Done && Decides(w, nodes'[i].key, r); }
    if Updates(w, nodes', r) {
      var j: nat :| j < |nodes'| && nodes'[j].status == Done && Decides(w, nodes'[j].key, r);
      if j != i { assert nodes'[j] == nodes[j]; }
    }
  }

  /** A node changes without being kept for an entry in a header. */
  lemma MarksStay(w: World, nodes: seq<Node>, i: nat, n: Node, runs: map<nat, Run>, runs': map<nat, Run>)
    requires MarksOk(w, nodes, runs) && i < |nodes| && nodes[i].status != Done
    requires n.status == Done ==> forall r: nat :: !Decides(w, n.key, r)
    requires runs'.Keys == runs.Keys && forall r: nat :: r in runs ==> runs'[r].shouldWrite == runs[r].shouldWrite
    ensures MarksOk(w, nodes[i := n], runs')
  {
    hide Updates, Decides;
    forall r: nat { UpdatesSet(w, nodes, i, n, r); }
  }

  /** A node is kept for its entry in the header of run e, which is marked. */
  lemma MarkSet(w: World, nodes: seq<Node>, i: nat, n: Node, runs: map<nat, Run>, runs': map<nat, Run>, e: nat)
    requires MarksOk(w, nodes, runs) && i < |nodes| && nodes[i].status != Done
    requires n.status == Done && forall r: nat :: Decides(w, n.key, r) <==> r == e
    requires runs'.Keys == runs.Keys
    requires forall r: nat :: r in runs ==> runs'[r].shouldWrite == (r == e || runs[r].shouldWrite)
    ensures MarksOk(w, nodes[i := n], runs')
  {
    hide Updates, Decides;
    forall r: nat { UpdatesSet(w, nodes, i, n, r); }
  }

  /** The header that settles a node is the one its newest entry is in. */
  lemma JudgedBy(w: World, n: Node, loads: bool)
    requires NodeOk(w, n) && OnRun(n.status)
    ensures var m := Judge(w, n, n.ent, loads);
            m.status == Done ==> forall r: nat :: Decides(w, m.key, r) <==> r == n.ent
  {
    if w.content(n.ent, n.key) == Some(n.ppa) {
      assert FirstAt(w, n.key, n.level);
      forall r: nat ensures Decides(w, n.key, r) <==> r == n.ent {
        if Decides(w, n.key, r) {
          var l: nat :| l >= w.caching && FirstAt(w, n.key, l) && w.route(l, n.key) == Some(r);
          FirstIsUnique(w, n.key, n.level, l);
        }
      }
    }
  }

  /** A node settled by a cached level has no entry in a header that counts. */
  lemma CachedDecides(w: World, n: Node, l: nat, p: nat)
    requires Ready(w, n) && FindRun(w, NextLevel(n), n.key) == Caching(l, p)
    ensures forall r: nat :: !Decides(w, n.key, r)
  {
    FindRunIs(w, NextLevel(n), n.key);
    assert FirstAt(w, n.key, l);
    forall r: nat ensures !Decides(w, n.key, r) {
      if Decides(w, n.key, r) {
        var k: nat :| k >= w.caching && FirstAt(w, n.key, k) && w.route(k, n.key) == Some(r);
        FirstIsUnique(w, n.key, l, k);
      }
    }
  }
}
