/**
 gc_data_issue_header, gc_data_each_header_check and the loop of gc_data_header_update as steps: the loop visits
 the nodes in any order while the device completes header reads.
 */
module SettlementLoop {
  import opened Sequences
  import opened Settlement

  /** How far a node is from being settled. */
  function Rank(w: World, n: Node): nat {
    var left := if n.level < w.levels then w.levels - n.level else 0;
    match n.status
    case NotIssue => 4 * w.levels + 4
    case Retry => 4 * left
    case ReadDone => 4 * left + 2
    case Issue => 4 * left + 3
    case SameRun => 4 * left + 3
    case _ => 0
  }

  function Total(w: World, nodes: seq<Node>): nat {
    if nodes == [] then 0 else Total(w, nodes[..|nodes| - 1]) + Rank(w, nodes[|nodes| - 1])
  }

  lemma {:induction false} TotalSet(w: World, nodes: seq<Node>, i: nat, n: Node)
    requires i < |nodes|
    ensures Total(w, nodes[i := n]) == Total(w, nodes) - Rank(w, nodes[i]) + Rank(w, n)
    decreases |nodes|
  {
    var k := |nodes| - 1;
    if i < k {
      TotalSet(w, nodes[..k], i, n);
      assert nodes[i := n][..k] == nodes[..k][i := n];
    } else {
      assert nodes[i := n][..k] == nodes[..k];
    }
  }

  ghost predicate AllOk(w: World, nodes: seq<Node>, y: int) {
    forall i :: 0 <= i < |nodes| && i != y ==> NodeOk(w, nodes[i])
  }

  ghost predicate RunsKnown(w: World, runs: map<nat, Run>) {
    forall l: nat, k: nat :: w.route(l, k).Some? ==> w.route(l, k).value in runs
  }

  /** The keys and addresses of the nodes stay. */
  ghost predicate SameValues(nodes: seq<Node>, nodes': seq<Node>) {
    && |nodes'| == |nodes|
    && forall i :: 0 <= i < |nodes| ==> nodes'[i].key == nodes[i].key && nodes'[i].ppa == nodes[i].ppa
  }

  /** A visit of a node, or the completion of the header read a node issued. */
  datatype Event = Visited(i: nat) | Completed(i: nat)

  class Settle {
    const w: World
    var nodes: seq<Node>
    var runs: map<nat, Run>
    var done: nat
    ghost var loader: map<nat, nat>

    ghost predicate Valid()
      reads this
    {
      && WorldOk(w) && RunsKnown(w, runs) && AllOk(w, nodes, -1) && RunsOk(nodes, runs, loader, -1, -1)
      && done == Count(nodes) && MarksOk(w, nodes, runs)
    }

    constructor (w: World, values: seq<(nat, nat)>, runs: map<nat, Run>)
      requires WorldOk(w) && RunsKnown(w, runs) && forall r :: r in runs ==> !runs[r].flying && !runs[r].shouldWrite
      requires forall i :: 0 <= i < |values| ==> exists l: nat :: FirstAt(w, values[i].0, l)
      ensures Valid() && done == 0 && |nodes| == |values| && this.w == w
      ensures forall i :: 0 <= i < |nodes| ==> nodes[i] == Node(values[i].0, values[i].1, NotIssue, 0, 0, 0, false)
    {
      this.w, this.runs, done, loader := w, runs, 0, map[];
      nodes := seq(|values|, i requires 0 <= i < |values| => Node(values[i].0, values[i].1, NotIssue, 0, 0, 0, false));
      new;
      NoneSettled(nodes);
    }

    static lemma {:induction false} NoneSettled(nodes: seq<Node>)
      requires forall i :: 0 <= i < |nodes| ==> nodes[i].status == NotIssue
      ensures Count(nodes) == 0
      decreases |nodes|
    {
      if nodes != [] { NoneSettled(nodes[..|nodes| - 1]); }
    }

    /** gc_data_issue_header.  Its answer CACHING means the node is settled; a key that is nowhere to be found, and a
        run already assigned, are aborts that are never reached.  x is a run still marked in flight by the caller. */
    method IssueHeader(i: nat, ghost x: int) returns (caching: bool)
      requires WorldOk(w) && RunsKnown(w, runs) && i < |nodes| && Ready(w, nodes[i]) && AllOk(w, nodes, i)
      requires RunsOk(nodes, runs, loader, x, i) && nodes[i].status != SameRun && !Settled(nodes[i].status)
      requires x == -1 || (nodes[i].run > 0 && x >= 0 && w.route(nodes[i].level, nodes[i].key) == Some(x))
      requires MarksOk(w, nodes, runs)
      modifies `nodes, `runs, `loader
      ensures MarksOk(w, nodes, runs)
      ensures AllOk(w, nodes, -1) && RunsOk(nodes, runs, loader, x, -1) && runs.Keys == old(runs.Keys)
      ensures SameValues(old(nodes), nodes)
      ensures Count(nodes) == old(Count(nodes)) + (if caching then 1 else 0) && (old(nodes)[i].run > 0 ==> !caching)
      ensures nodes == old(nodes)[i := nodes[i]] && (caching <==> Settled(nodes[i].status))
      ensures !caching ==> OnRun(nodes[i].status) && old(NextLevel(nodes[i])) <= nodes[i].level < w.levels
      ensures x in runs ==> runs[x] == old(runs)[x]
    {
      hide RunsOk, Count, NodeOk, Ready, WorldOk, RunsKnown, AllOk, FindRun, Answer, SameValues, MarksOk, Decides;
      var n := nodes[i];
      var result := FindRun(w, NextLevel(n), n.key);
      NeverNotFound(w, n);
      var n' := n;
      match result {
        case Caching(l, p) =>
          CachingIs(w, n, l, p);
          n' := n.(status := if p == n.ppa then Done else NoUptDone);
          CachedDecides(w, n, l, p);
          MarksStay(w, nodes, i, n', runs, runs);
          SameSet(nodes, i, n');
          SettleNode(i, n', x);
          return true;
        case Found(l, r) =>
          if n.key in w.memtable {
            MemtableIs(w, n, l, r);
            n' := n.(status := NoUptDone);
            MarksStay(w, nodes, i, n', runs, runs);
            SameSet(nodes, i, n');
            SettleNode(i, n', x);
            return true;
          }
          GoToRun(i, l, r, x);
          return false;
      }
    }

    /** Node i goes on to run r of level l: it waits for the run if that is being read, else it reads the run, or has it
        at hand if its table is in memory. */
    method GoToRun(i: nat, l: nat, r: nat, ghost x: int)
      requires WorldOk(w) && RunsKnown(w, runs) && i < |nodes| && Ready(w, nodes[i]) && AllOk(w, nodes, i)
      requires RunsOk(nodes, runs, loader, x, i) && nodes[i].status != SameRun && !Settled(nodes[i].status)
      requires x == -1 || (nodes[i].run > 0 && x >= 0 && w.route(nodes[i].level, nodes[i].key) == Some(x))
      requires MarksOk(w, nodes, runs)
      requires FindRun(w, NextLevel(nodes[i]), nodes[i].key) == Found(l, r) && nodes[i].key !in w.memtable
      modifies `nodes, `runs, `loader
      ensures MarksOk(w, nodes, runs)
      ensures AllOk(w, nodes, -1) && RunsOk(nodes, runs, loader, x, -1) && runs.Keys == old(runs.Keys)
      ensures SameValues(old(nodes), nodes) && Count(nodes) == old(Count(nodes))
      ensures nodes == old(nodes)[i := nodes[i]]
      ensures r in old(runs) && nodes[i] == old(nodes[i]).(level := l, run := 0, ent := r, status := nodes[i].status,
                                                           data := nodes[i].status == Issue)
      ensures nodes[i].status ==
              if old(runs)[r].flying then SameRun else if old(runs)[r].data then ReadDone else Issue
      ensures old(NextLevel(nodes[i])) <= l < w.levels
      ensures x in runs ==> runs[x] == old(runs)[x]
    {
      hide RunsOk, Count, NodeOk, Ready, WorldOk, RunsKnown, AllOk, FindRun, Answer, SameValues, MarksOk, Decides;
      var n := nodes[i];
      RunIs(w, runs, n, l, r, x);
      var n' := n.(level := l, run := 0, ent := r, data := false);
      var run := runs[r];
      ghost var loader' := loader;
      if run.flying {
        n' := n'.(status := SameRun);
        run := run.(waiters := run.waiters + [i]);
        JoinRuns(nodes, runs, loader, x, i, n', r);
      } else {
        if !run.data {
          NotAssigned(nodes, runs, loader, x, i, r);
          if run.shouldWrite { assert false; }
          n' := n'.(status := Issue, data := true);
          run := Run(true, [], false, false);
        } else {
          n' := n'.(status := ReadDone);
          run := run.(flying := true, waiters := []);
        }
        loader' := loader[r := i];
        LoadRuns(nodes, runs, loader, x, i, n', r, run);
      }
      FoundIs(w, n, l, r, n');
      MarksStay(w, nodes, i, n', runs, runs[r := run]);
      CountSet(nodes, i, n');
      OthersOk(w, nodes, i, n');
      SameSet(nodes, i, n');
      nodes, runs, loader := nodes[i := n'], runs[r := run], loader';
    }

    /** gc_data_each_header_check: the header node i has read settles or sends on i and everyone who waited for it.  The
        abort for a missing table is never reached, and ignoring the answer of the nested gc_data_issue_header loses
        nothing, since it never settles the node. */
    method HeaderCheck(i: nat) returns (cnt: nat)
      requires Valid() && i < |nodes| && nodes[i].status == ReadDone
      modifies `nodes, `runs, `loader
      ensures RunsKnown(w, runs) && AllOk(w, nodes, -1) && RunsOk(nodes, runs, loader, -1, -1)
      ensures Count(nodes) == old(Count(nodes)) + cnt && SameValues(old(nodes), nodes)
      ensures Total(w, nodes) < old(Total(w, nodes)) && MarksOk(w, nodes, runs)
    {
      hide RunsOk, Count, NodeOk, Ready, WorldOk, RunsKnown, AllOk, SameValues, Total, Left, Rank, MarksOk;
      var e := nodes[i].ent;
      var ws, processed := OpenHeader(i);
      ghost var y: int := if processed then -1 else i;
      ghost var first := nodes;
      var more := JudgeWaiters(ws, e, y);
      cnt := more + if processed then 1 else 0;
      SameTwice(old(nodes), first, nodes);
      NoneLeft(nodes, ws, e);
      KnownStill(w, old(runs), runs);
      if !processed {
        ValueAt(first, nodes, i);
        ghost var before := nodes;
        IssueNext(i, e);
        SameTwice(old(nodes), before, nodes);
      }
      CloseRun(nodes, runs, loader, e);
      MarksSame(w, nodes, runs, runs[e := runs[e].(flying := false)]);
      runs := runs[e := runs[e].(flying := false)];
      assert runs.Keys == old(runs).Keys;
      KnownStill(w, old(runs), runs);
    }

    /** The header is opened: the node that loaded it is judged first. */
    method OpenHeader(i: nat) returns (ws: seq<nat>, processed: bool)
      requires Valid() && i < |nodes| && nodes[i].status == ReadDone
      modifies `nodes, `runs, `loader
      ensures var e := old(nodes[i].ent); var y := if processed then -1 else i;
              && |nodes| == |old(nodes)| && e in runs && runs[e].data && runs.Keys == old(runs.Keys)
              && MarksOk(w, nodes, runs)
              && Left(nodes, ws, 0, e)
              && RunsOk(nodes, runs, loader, e, y) && AllOk(w, nodes, y) && SameValues(old(nodes), nodes)
              && Count(nodes) == old(Count(nodes)) + (if processed then 1 else 0)
              && (processed ==> Total(w, nodes) < old(Total(w, nodes)) && nodes[i].status != SameRun)
              && (!processed ==>
                   && Total(w, nodes) == old(Total(w, nodes)) && Ready(w, nodes[i]) && nodes[i].status == ReadDone
                   && nodes[i].run > 0)
              && (!processed ==> nodes[i].level < w.levels && w.route(nodes[i].level, nodes[i].key) == Some(e))
    {
      hide RunsOk, Count, NodeOk, Ready, WorldOk, RunsKnown, AllOk, SameValues, Total, WaitersOk, Judge, NoDup, Left,
           MarksOk, Decides;
      var n := nodes[i];
      var e := n.ent;
      var n1 := Judge(w, n, e, true);
      NodeAt(w, nodes, -1, i);
      JudgeFacts(w, n, true);
      JudgedBy(w, n, true);
      OpenRun(nodes, runs, loader, i, n1);
      if !n.data && !runs[e].data { assert false; }
      processed := w.content(e, n.key).Some?;
      ws := runs[e].waiters;
      WaitersLeft(nodes, ws, e, i, n1);
      CountSet(nodes, i, n1);
      TotalSet(w, nodes, i, n1);
      SameSet(nodes, i, n1);
      FirstJudged(w, nodes, i, n1);
      nodes, runs, loader := nodes[i := n1], runs[e := runs[e].(data := true)], loader - {e};
      if processed { IdleAgain(nodes, runs, loader, e, i); }
      if n1.status == Done {
        Mark(e, if processed then -1 else i);
        MarkSet(w, old(nodes), i, n1, old(runs), runs, e);
      } else {
        MarksStay(w, old(nodes), i, n1, old(runs), runs);
      }
      assert runs.Keys == old(runs).Keys;
    }

    /** The node that loaded run e without an answer goes on to a deeper level. */
    method IssueNext(i: nat, ghost e: nat)
      requires WorldOk(w) && RunsKnown(w, runs) && i < |nodes| && Ready(w, nodes[i]) && AllOk(w, nodes, i)
      requires RunsOk(nodes, runs, loader, e, i)
      requires nodes[i].status == ReadDone && nodes[i].run > 0 && nodes[i].level < w.levels
      requires w.route(nodes[i].level, nodes[i].key) == Some(e)
      requires e in runs && runs[e].data
      requires forall j: nat :: j < |nodes| && nodes[j].status == SameRun ==> nodes[j].ent != e
      requires MarksOk(w, nodes, runs)
      modifies `nodes, `runs, `loader
      ensures MarksOk(w, nodes, runs)
      ensures AllOk(w, nodes, -1) && RunsOk(nodes, runs, loader, e, -1) && Count(nodes) == old(Count(nodes))
      ensures SameValues(old(nodes), nodes)
      ensures Total(w, nodes) < old(Total(w, nodes)) && runs.Keys == old(runs.Keys) && e in runs && runs[e].data
      ensures forall j: nat :: j < |nodes| && nodes[j].status == SameRun ==> nodes[j].ent != e
    {
      hide RunsOk, Count, NodeOk, Ready, WorldOk, RunsKnown, AllOk, SameValues, Total, MarksOk;
      ghost var before := nodes;
      var caching := IssueHeader(i, e);
      TotalSet(w, before, i, nodes[i]);
      ValueAt(before, nodes, i);
      NodeAt(w, nodes, -1, i);
      StillNone(w, before, nodes, i, e, before[i].level);
    }

    /** The loop of gc_data_each_header_check over the nodes that waited for the run. */
    method JudgeWaiters(ws: seq<nat>, e: nat, ghost y: int) returns (cnt: nat)
      requires Left(nodes, ws, 0, e) && RunsOk(nodes, runs, loader, e, y) && AllOk(w, nodes, y) && e in runs
      requires runs[e].data
      requires 0 <= y < |nodes| ==> nodes[y].status != SameRun
      requires MarksOk(w, nodes, runs)
      modifies `nodes, `runs
      ensures MarksOk(w, nodes, runs)
      ensures Left(nodes, ws, |ws|, e) && RunsOk(nodes, runs, loader, e, y) && AllOk(w, nodes, y) && e in runs
      ensures runs[e].data
      ensures runs.Keys == old(runs.Keys) && SameValues(old(nodes), nodes) && |nodes| == |old(nodes)|
      ensures forall j: nat :: j < |nodes| && old(nodes)[j].status != SameRun ==> nodes[j] == old(nodes)[j]
      ensures Count(nodes) == old(Count(nodes)) + cnt && Total(w, nodes) <= old(Total(w, nodes))
    {
      hide RunsOk, Count, NodeOk, AllOk, Total, Judge, NoDup, Left, SameValues, MarksOk, Decides;
      SameSelf(nodes);
      cnt := 0;
      var t := 0;
      while t < |ws|
        invariant 0 <= t <= |ws| && |nodes| == |old(nodes)| && Left(nodes, ws, t, e)
        invariant RunsOk(nodes, runs, loader, e, y) && AllOk(w, nodes, y) && MarksOk(w, nodes, runs)
        invariant e in runs && runs[e].data && runs.Keys == old(runs).Keys && SameValues(old(nodes), nodes)
        invariant forall j: nat :: j < |nodes| && old(nodes)[j].status != SameRun ==> nodes[j] == old(nodes)[j]
        invariant Count(nodes) == old(Count(nodes)) + cnt && Total(w, nodes) <= old(Total(w, nodes))
      {
        var j := ws[t];
        LeftAt(nodes, ws, t, e);
        NodeAt(w, nodes, y, j);
        var m := Judge(w, nodes[j], e, false);
        JudgeFacts(w, nodes[j], false);
        JudgedBy(w, nodes[j], false);
        ghost var nodes1, runs1 := nodes, runs;
        WaiterLeaves(nodes, runs, loader, e, y, j, m);
        LeftNext(nodes, ws, t, e, m);
        CountSet(nodes, j, m);
        TotalSet(w, nodes, j, m);
        OthersOk2(w, nodes, j, m, y);
        SameTrans(old(nodes), nodes, j, m);
        nodes := nodes[j := m];
        if Settled(m.status) { cnt := cnt + 1; }
        if m.status == Done {
          Mark(e, y);
          MarkSet(w, nodes1, j, m, runs1, runs, e);
        } else {
          MarksStay(w, nodes1, j, m, runs1, runs);
        }
        t := t + 1;
      }
    }

    /** gc_should_write of the run whose header is open is set. */
    method Mark(e: nat, ghost y: int)
      requires RunsOk(nodes, runs, loader, e, y) && e in runs && runs[e].data
      modifies `runs
      ensures runs == old(runs)[e := old(runs)[e].(shouldWrite := true)] && RunsOk(nodes, runs, loader, e, y)
    {
      hide RunsOk;
      MarkRun(nodes, runs, loader, e, y);
      runs := runs[e := runs[e].(shouldWrite := true)];
    }

    /** One turn of the inner loop of gc_data_header_update; the abort for a count beyond the number of nodes is never
        reached.  A node waiting for a read or for another node is passed over. */
    method Visit(i: nat) returns (acted: bool)
      requires Valid() && i < |nodes|
      modifies `nodes, `runs, `loader, `done
      ensures Valid() && SameValues(old(nodes), nodes)
      ensures acted <==> old(nodes[i].status) in {NotIssue, Retry, ReadDone}
      ensures acted ==> Total(w, nodes) < old(Total(w, nodes))
      ensures !acted ==> nodes == old(nodes)
    {
      hide RunsOk, Count, NodeOk, Ready, WorldOk, RunsKnown, SameValues, Total, MarksOk;
      acted := false;
      SameSelf(nodes);
      NodeAt(w, nodes, -1, i);
      ghost var nodes0 := nodes;
      if nodes[i].status == NotIssue || nodes[i].status == Retry {
        ReadyIs(w, nodes[i]);
        RankReady(w, nodes[i]);
        SetApart(nodes, runs, loader, i);
        var caching := IssueHeader(i, -1);
        KnownStill(w, old(runs), runs);
        TotalSet(w, nodes0, i, nodes[i]);
        if caching { done := done + 1; }
        acted := true;
      } else if nodes[i].status == ReadDone {
        var cnt := HeaderCheck(i);
        done := done + cnt;
        acted := true;
      }
      CountBound(nodes);
      if done > |nodes| { assert false; }
    }

    /** The completion of the header read node i issued. */
    method Complete(i: nat)
      requires Valid() && i < |nodes| && nodes[i].status == Issue
      modifies `nodes
      ensures Valid() && SameValues(old(nodes), nodes) && Total(w, nodes) < old(Total(w, nodes))
    {
      hide RunsOk, Count, WorldOk, RunsKnown, Total, MarksOk;
      var n := nodes[i].(status := ReadDone);
      MarksStay(w, nodes, i, n, runs, runs);
      NodeAt(w, nodes, -1, i);
      ReadRuns(nodes, runs, loader, i, n);
      CountSet(nodes, i, n);
      TotalSet(w, nodes, i, n);
      OthersOk(w, nodes, i, n);
      nodes := nodes[i := n];
    }

    /** While a node is unsettled, a visit can act or a header read is outstanding. */
    lemma NeverStuck()
      requires Valid() && done != |nodes|
      ensures exists i: nat :: i < |nodes| && nodes[i].status in {NotIssue, Retry, ReadDone, Issue}
    {
      CountBound(nodes);
      var i :| 0 <= i < |nodes| && !Settled(nodes[i].status);
      if nodes[i].status == SameRun {
        var r := nodes[i].ent;
        assert r in loader && LoadedBy(nodes, runs, loader[r], r);
        assert nodes[loader[r]].status in {NotIssue, Retry, ReadDone, Issue};
      } else {
        assert nodes[i].status in {NotIssue, Retry, ReadDone, Issue};
      }
    }

    /** A run has fewer waiters than there are nodes, so its array of waiting requests does not overflow. */
    lemma WaitersFit(r: nat)
      requires Valid() && r in runs && runs[r].flying
      ensures |runs[r].waiters| < |nodes|
    {
      assert r in loader && LoadedBy(nodes, runs, loader[r], r) && WaitersOk(nodes, runs[r].waiters, r);
      Fewer(runs[r].waiters, loader[r], |nodes|);
    }

    /** The event can do something. */
    static predicate Acting(nodes: seq<Node>, event: Event) {
      match event
      case Visited(i) => i < |nodes| && nodes[i].status in {NotIssue, Retry, ReadDone}
      case Completed(i) => i < |nodes| && nodes[i].status == Issue
    }

    /** Any interleaving of visits and completions: the count is always that of the settled nodes, and when it reaches
        the number of nodes a node is kept exactly when its value is the newest, but for the values overlooked.  No run
        has more acting events than the measure at its start.  The nodes after every event are returned: an event that
        can act brings them nearer to their end, any other leaves them as they are. */
    method Loop(events: seq<Event>) returns (acts: nat, ghost trace: seq<seq<Node>>)
      requires Valid()
      modifies `nodes, `runs, `loader, `done
      ensures Valid() && SameValues(old(nodes), nodes) && done <= |nodes|
      ensures acts + Total(w, nodes) <= old(Total(w, nodes))
      ensures |trace| == |events| + 1 && trace[0] == old(nodes) && trace[|events|] == nodes
      ensures forall k :: 0 <= k < |events| ==>
        if Acting(trace[k], events[k]) then Total(w, trace[k + 1]) < Total(w, trace[k]) else trace[k + 1] == trace[k]
      ensures done == |nodes| ==> forall i :: 0 <= i < |nodes| ==> Settled(nodes[i].status)
      ensures MarksOk(w, nodes, runs)
      ensures done == |nodes| ==> forall i :: 0 <= i < |nodes| ==>
                (RightlySettled(w, nodes[i]) <==> !Overlooked(w, nodes[i].key, nodes[i].ppa))
      ensures done != |nodes| ==> exists i: nat :: i < |nodes| && nodes[i].status in {NotIssue, Retry, ReadDone, Issue}
    {
      hide RunsOk, Count, NodeOk, WorldOk, RunsKnown, SameValues, Total, MarksOk;
      SameSelf(nodes);
      var k := 0;
      acts := 0;
      trace := [nodes];
      while k < |events|
        invariant 0 <= k <= |events| && Valid() && SameValues(old(nodes), nodes)
        invariant acts + Total(w, nodes) <= old(Total(w, nodes))
        invariant |trace| == k + 1 && trace[0] == old(nodes) && trace[k] == nodes
        invariant forall j :: 0 <= j < k ==>
          if Acting(trace[j], events[j]) then Total(w, trace[j + 1]) < Total(w, trace[j]) else trace[j + 1] == trace[j]
      {
        ghost var before := nodes;
        match events[k] {
          case Visited(i) =>
            if i < |nodes| {
              var acted := Visit(i);
              SameTwice(old(nodes), before, nodes);
              if acted { acts := acts + 1; }
            }
          case Completed(i) =>
            if i < |nodes| && nodes[i].status == Issue {
              Complete(i);
              SameTwice(old(nodes), before, nodes);
              acts := acts + 1;
            }
        }
        trace := trace + [nodes];
        k := k + 1;
      }
      CountBound(nodes);
      if done == |nodes| { AllVerdicts(w, nodes); } else { NeverStuck(); }
    }

    method SettleNode(i: nat, n: Node, ghost x: int)
      requires i < |nodes| && AllOk(w, nodes, i) && RunsOk(nodes, runs, loader, x, i) && nodes[i].status != SameRun
      requires !Settled(nodes[i].status)
      requires Settled(n.status) && n == nodes[i].(status := n.status) && (exists j: nat :: FirstAt(w, n.key, j))
      requires (n.status == Done) == Answer(w, n.key, n.ppa)
      modifies `nodes
      ensures nodes == old(nodes)[i := n] && AllOk(w, nodes, -1) && RunsOk(nodes, runs, loader, x, -1)
      ensures Count(nodes) == old(Count(nodes)) + 1
    {
      hide RunsOk, Count;
      OthersOk(w, nodes, i, n);
      LeaveRuns(nodes, runs, loader, x, i, n);
      CountSet(nodes, i, n);
      nodes := nodes[i := n];
    }
  }

  lemma MarksSame(w: World, nodes: seq<Node>, runs: map<nat, Run>, runs': map<nat, Run>)
    requires MarksOk(w, nodes, runs) && runs'.Keys == runs.Keys
    requires forall r: nat :: r in runs ==> runs'[r].shouldWrite == runs[r].shouldWrite
    ensures MarksOk(w, nodes, runs')
  {
    hide Updates;
  }

  lemma OthersOk(w: World, nodes: seq<Node>, i: nat, n: Node)
    requires i < |nodes| && AllOk(w, nodes, i) && NodeOk(w, n)
    ensures AllOk(w, nodes[i := n], -1)
  {
    hide NodeOk;
  }

  lemma SameSet(nodes: seq<Node>, i: nat, n: Node)
    requires i < |nodes| && n.key == nodes[i].key && n.ppa == nodes[i].ppa
    ensures SameValues(nodes, nodes[i := n])
  {
  }

  /** A run found further down is known, and is not the one just left. */
  lemma RunIs(w: World, runs: map<nat, Run>, n: Node, l: nat, r: nat, x: int)
    requires WorldOk(w) && RunsKnown(w, runs) && FindRun(w, NextLevel(n), n.key) == Found(l, r)
    requires x == -1 || (n.run > 0 && x >= 0 && w.route(n.level, n.key) == Some(x))
    ensures r in runs && r != x
  {
    FindRunIs(w, NextLevel(n), n.key);
    assert w.route(l, n.key) == Some(r);
  }

  lemma NotAssigned(nodes: seq<Node>, runs: map<nat, Run>, loader: map<nat, nat>, x: int, y: int, r: nat)
    requires RunsOk(nodes, runs, loader, x, y) && r in runs && !runs[r].flying && !runs[r].data
    ensures !runs[r].shouldWrite
  {
  }

  lemma NodeAt(w: World, nodes: seq<Node>, y: int, i: nat)
    requires AllOk(w, nodes, y) && i < |nodes| && i != y
    ensures NodeOk(w, nodes[i])
  {
  }

  /** What a judgement does to a node on a run. */
  lemma JudgeFacts(w: World, n: Node, loads: bool)
    requires NodeOk(w, n) && OnRun(n.status) && (loads ==> n.status == ReadDone) && (!loads ==> n.status == SameRun)
    ensures var m := Judge(w, n, n.ent, loads);
            && m.key == n.key && m.ppa == n.ppa && m.level == n.level < w.levels && m.status != SameRun
            && w.route(n.level, n.key) == Some(n.ent)
            && (w.content(n.ent, n.key).Some? ==> NodeOk(w, m) && Settled(m.status) && Rank(w, m) < Rank(w, n))
            && (w.content(n.ent, n.key) == None ==> Ready(w, m) && m.run > 0 && !Settled(m.status))
            && (w.content(n.ent, n.key) == None && loads ==> m.status == ReadDone)
            && (w.content(n.ent, n.key) == None && !loads ==>
                 NodeOk(w, m) && m.status == Retry && Rank(w, m) < Rank(w, n))
  {
    JudgeIs(w, n, loads);
  }

  /** The waiters from position t on are exactly those still to be judged. */
  ghost predicate Left(nodes: seq<Node>, ws: seq<nat>, t: nat, e: nat)
    requires t <= |ws|
  {
    NoDup(ws) && forall j: nat :: j in ws[t..] <==> j < |nodes| && nodes[j].status == SameRun && nodes[j].ent == e
  }

  lemma WaitersLeft(nodes: seq<Node>, ws: seq<nat>, e: nat, i: nat, n: Node)
    requires WaitersOk(nodes, ws, e) && i < |nodes| && nodes[i].status != SameRun && n.status != SameRun
    ensures Left(nodes[i := n], ws, 0, e)
  {
    assert ws[0..] == ws;
  }

  lemma LeftAt(nodes: seq<Node>, ws: seq<nat>, t: nat, e: nat)
    requires t < |ws| && Left(nodes, ws, t, e)
    ensures ws[t] < |nodes| && nodes[ws[t]].status == SameRun && nodes[ws[t]].ent == e
  {
    assert ws[t] in ws[t..];
  }

  lemma LeftNext(nodes: seq<Node>, ws: seq<nat>, t: nat, e: nat, m: Node)
    requires t < |ws| && Left(nodes, ws, t, e) && ws[t] < |nodes| && m.status != SameRun
    ensures Left(nodes[ws[t] := m], ws, t + 1, e)
  {
    var x, u := ws[t], t + 1;
    var rest, nodes' := ws[u..], nodes[x := m];
    RestIs(ws, t, u);
    forall j: nat ensures j in rest <==> j < |nodes'| && nodes'[j].status == SameRun && nodes'[j].ent == e {
      assert j in ws[t..] <==> j < |nodes| && nodes[j].status == SameRun && nodes[j].ent == e;
    }
    assert Left(nodes', ws, u, e);
  }

  lemma RestIs(ws: seq<nat>, t: nat, u: nat)
    requires t < |ws| && u == t + 1 && NoDup(ws)
    ensures forall j: nat :: j in ws[u..] <==> j in ws[t..] && j != ws[t]
  {
    assert ws[t..] == [ws[t]] + ws[u..];
    assert ws[t] !in ws[u..];
  }

  lemma NoneLeft(nodes: seq<Node>, ws: seq<nat>, e: nat)
    requires Left(nodes, ws, |ws|, e)
    ensures forall j: nat :: j < |nodes| && nodes[j].status == SameRun ==> nodes[j].ent != e
  {
  }

  lemma FirstJudged(w: World, nodes: seq<Node>, i: nat, n: Node)
    requires AllOk(w, nodes, -1) && i < |nodes|
    ensures AllOk(w, nodes[i := n], i) && (NodeOk(w, n) ==> AllOk(w, nodes[i := n], -1))
  {
    hide NodeOk;
  }

  lemma OthersOk2(w: World, nodes: seq<Node>, j: nat, m: Node, y: int)
    requires AllOk(w, nodes, y) && j < |nodes| && NodeOk(w, m)
    ensures AllOk(w, nodes[j := m], y)
  {
    hide NodeOk;
  }

  lemma SameTrans(a: seq<Node>, nodes: seq<Node>, j: nat, m: Node)
    requires SameValues(a, nodes) && j < |nodes| && m.key == nodes[j].key && m.ppa == nodes[j].ppa
    ensures SameValues(a, nodes[j := m])
  {
  }

  lemma SameSelf(a: seq<Node>)
    ensures SameValues(a, a)
  {
  }

  lemma SameTwice(a: seq<Node>, b: seq<Node>, c: seq<Node>)
    requires SameValues(a, b) && SameValues(b, c)
    ensures SameValues(a, c)
  {
  }

  lemma KnownStill(w: World, runs: map<nat, Run>, runs': map<nat, Run>)
    requires RunsKnown(w, runs) && runs'.Keys == runs.Keys
    ensures RunsKnown(w, runs')
  {
    forall l: nat, k: nat | w.route(l, k).Some? ensures w.route(l, k).value in runs' {
      assert w.route(l, k).value in runs;
    }
  }

  /** The node that went on did not come back to run e. */
  lemma StillNone(w: World, before: seq<Node>, nodes: seq<Node>, i: nat, e: nat, level: nat)
    requires WorldOk(w) && i < |nodes| == |before| && nodes == before[i := nodes[i]] && NodeOk(w, nodes[i])
    requires OnRun(nodes[i].status)
    requires w.route(level, nodes[i].key) == Some(e) && level < nodes[i].level
    requires forall j: nat :: j < |before| && before[j].status == SameRun ==> before[j].ent != e
    ensures forall j: nat :: j < |nodes| && nodes[j].status == SameRun ==> nodes[j].ent != e
  {
  }

  lemma ValueAt(a: seq<Node>, b: seq<Node>, i: nat)
    requires SameValues(a, b) && i < |a|
    ensures |b| == |a| && b[i].key == a[i].key
  {
  }

  lemma SetApart(nodes: seq<Node>, runs: map<nat, Run>, loader: map<nat, nat>, i: nat)
    requires RunsOk(nodes, runs, loader, -1, -1) && i < |nodes| && !Loading(nodes[i].status)
    ensures RunsOk(nodes, runs, loader, -1, i)
  {
    hide WaitersOk;
    forall r: nat | r in loader ensures loader[r] != i { assert LoadedBy(nodes, runs, loader[r], r); }
  }

  lemma ReadRuns(nodes: seq<Node>, runs: map<nat, Run>, loader: map<nat, nat>, i: nat, n: Node)
    requires RunsOk(nodes, runs, loader, -1, -1) && i < |nodes| && nodes[i].status == Issue
    requires n == nodes[i].(status := ReadDone)
    ensures RunsOk(nodes[i := n], runs, loader, -1, -1)
  {
    LoadersFly(nodes, runs, loader, -1, -1);
    var nodes' := nodes[i := n];
    forall q: nat | q in loader ensures LoadedBy(nodes', runs, loader[q], q) {
      assert LoadedBy(nodes, runs, loader[q], q);
    }
    hide WaitersOk, LoadedBy;
    forall q: nat | q in loader ensures WaitersOk(nodes', runs[q].waiters, q) {
      WaitersSame(nodes, runs[q].waiters, q, i, n);
    }
  }

  /** The rank of a node that is about to look further is above that of any level it can reach. */
  lemma RankReady(w: World, n: Node)
    requires NodeOk(w, n) && (n.status == NotIssue || n.status == Retry)
    ensures Rank(w, n) > 0
    ensures forall m: Node :: OnRun(m.status) && NextLevel(n) <= m.level < w.levels ==> Rank(w, m) < Rank(w, n)
  {
    if n.status == Retry {
      var i: nat :| FirstAt(w, n.key, i);
      assert n.level < w.levels;
    }
  }

  /** The node is kept exactly when its value is the newest of its key. */
  ghost predicate RightlySettled(w: World, n: Node) { n.status == Done <==> Newest(w, n.key, n.ppa) }

  lemma AllVerdicts(w: World, nodes: seq<Node>)
    requires AllOk(w, nodes, -1) && forall i :: 0 <= i < |nodes| ==> Settled(nodes[i].status)
    ensures forall i :: 0 <= i < |nodes| ==>
      (RightlySettled(w, nodes[i]) <==> !Overlooked(w, nodes[i].key, nodes[i].ppa))
  {
    hide Newest, Overlooked;
    forall i | 0 <= i < |nodes| ensures RightlySettled(w, nodes[i]) <==> !Overlooked(w, nodes[i].key, nodes[i].ppa) {
      assert NodeOk(w, nodes[i]);
      Apart(w, nodes[i].key, nodes[i].ppa);
    }
  }

  lemma Apart(w: World, key: nat, ppa: nat)
    ensures !(Newest(w, key, ppa) && Overlooked(w, key, ppa))
  {
  }

  /** One cached level that still names the value at 5; the memtable has a newer value of the key. */
  function StaleWorld(): World {
    World(1, 1, (l: nat, k: nat) => if l == 0 then Some(0) else None, (l: nat, k: nat) => Some(5),
          (r: nat, k: nat) => None, {7})
  }

  /** The old value is kept by the loop although it is not the newest. */
  method OldValueIsKept() returns (s: Settle)
    ensures s.done == 1 == |s.nodes| && s.nodes[0].status == Done && !Newest(s.w, s.nodes[0].key, s.nodes[0].ppa)
  {
    var w := StaleWorld();
    var values: seq<(nat, nat)> := [(7, 5)];
    assert FirstAt(w, values[0].0, 0);
    s := new Settle(w, values, map[0 := Run(false, [], false, false)]);
    ghost var n := s.nodes[0];
    assert s.nodes[..0] == [] && Total(w, s.nodes) == Rank(w, n);
    var acted := s.Visit(0);
    NodeAt(w, s.nodes, -1, 0);
    OnlyOne(w, s.nodes);
    StaleIsKept(w, s.nodes[0]);
  }

  lemma OnlyOne(w: World, nodes: seq<Node>)
    requires |nodes| == 1
    ensures Total(w, nodes) == Rank(w, nodes[0]) && Count(nodes) == One(Settled(nodes[0].status))
  {
    assert nodes[..0] == [];
  }

  lemma StaleIsKept(w: World, n: Node)
    requires w == StaleWorld() && NodeOk(w, n) && n.key == 7 && n.ppa == 5 && Rank(w, n) < 8
    ensures n.status == Done && !Newest(w, 7, 5)
  {
    assert FirstAt(w, 7, 0) && EntryAt(w, 0, 7) == Some(5);
    AnswerAt(w, 7, 5, 0);
  }

  /** Distinct numbers below n that leave one out. */
  lemma {:induction false} Fewer(s: seq<nat>, x: nat, n: nat)
    requires NoDup(s) && (forall j: nat :: j in s ==> j < n) && x !in s && x < n
    ensures |s| < n
  {
    var t := s + [x];
    AppendNoDup(s, x);
    SizeBelow(t, n);
  }

  lemma {:induction false} SizeBelow(s: seq<nat>, n: nat)
    requires NoDup(s) && forall j: nat :: j in s ==> j < n
    ensures |s| <= n
    decreases n
  {
    if s != [] {
      assert s[0] in s;
      if n - 1 in s {
        var k :| 0 <= k < |s| && s[k] == n - 1;
        var t := s[..k] + s[k + 1..];
        assert forall j: nat :: j in t ==> j in s && j != n - 1;
        SizeBelow(t, n - 1);
      } else {
        SizeBelow(s, n - 1);
      }
    }
  }
}
