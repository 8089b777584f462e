/**
 The queue of interface/lfqueue.c under any interleaving: every shared read and every compare-and-swap is one
 step, any number of threads run, and nodes are never reclaimed.  The queue is shown to behave as a FIFO whose
 operations happen at single steps.
 */
module LockFreeQueue {
  import opened Sequences

  type Id = nat
  type Val = nat
  /** Where a thread is.  E*: q_enqueue, with the new node and the tail it read; D*: q_dequeue. */
  datatype Pc =
    | Idle
    | ELoop(node: Id)
    | ECheck(node: Id, n: Id)
    | ELink(node: Id, n: Id)
    | EHelp(node: Id, n: Id)
    | ESwingNext(node: Id, n: Id, nx: Id)
    | ESwing(node: Id, n: Id)
    | EAdd
    | EDone(ok: bool)
    | DLoop
    | DNext(n: Id)
    | DRead(n: Id)
    | DCas(n: Id, nx: Id)
    | DVal(n: Id)
    | DSub(v: Val)
    | DDone(r: Option<Val>)

  /** Shared memory: the nodes and the queue record. */
  datatype Mem = Mem(next: map<Id, Option<Id>>, val: map<Id, Val>, head: Id, tail: Id, size: int)

  /** order lists the linked nodes, the first `taken` + 1 of which have been passed by head; promised is the value
      each dequeuer removed. */
  datatype State = State(m: Mem, pcs: map<nat, Pc>, order: seq<Id>, taken: nat, promised: map<nat, Val>)

  function Init(id: Id): State {
    State(Mem(map[id := None], map[], id, id, 0), map[], [id], 0, map[])
  }

  // ---------------------------------------------------------------- steps

  function At(s: State, t: nat, pc: Pc): State { s.(pcs := s.pcs[t := pc]) }

  predicate Resting(pc: Pc) { pc.Idle? || pc.EDone? || pc.DDone? }

  /** A thread calls q_enqueue with a new node, or q_dequeue. */
  function StartEnqueue(s: State, t: nat, id: Id, v: Val): State {
    At(s, t, ELoop(id)).(m := s.m.(next := s.m.next[id := None], val := s.m.val[id := v]))
  }

  function StartDequeue(s: State, t: nat): State { At(s, t, DLoop) }

  /** The next atomic action of thread t. */
  function Step(s: State, t: nat, max: int): State
    requires t in s.pcs && Enabled(s, t)
  {
    var m := s.m;
    match s.pcs[t]
    case ELoop(node) => At(s, t, ECheck(node, m.tail))
    case ECheck(node, n) => if m.size == max then At(s, t, EDone(false)) else At(s, t, ELink(node, n))
    case ELink(node, n) =>
      if m.next[n] == None
      then At(s, t, ESwing(node, n)).(m := m.(next := m.next[n := Some(node)]), order := s.order + [node])
      else At(s, t, EHelp(node, n))
    case EHelp(node, n) => At(s, t, ESwingNext(node, n, m.next[n].value))
    case ESwingNext(node, n, nx) => At(s, t, ELoop(node)).(m := if m.tail == n then m.(tail := nx) else m)
    case ESwing(node, n) => At(s, t, EAdd).(m := if m.tail == n then m.(tail := node) else m)
    case EAdd => At(s, t, EDone(true)).(m := m.(size := m.size + 1))
    case DLoop => At(s, t, DNext(m.head))
    case DNext(n) => if m.next[n] == None then At(s, t, DDone(None)) else At(s, t, DRead(n))
    case DRead(n) => At(s, t, DCas(n, m.next[n].value))
    case DCas(n, nx) =>
      if m.head == n
      then At(s, t, DVal(n)).(m := m.(head := nx), taken := s.taken + 1, promised := s.promised[t := m.val[nx]])
      else At(s, t, DLoop)
    case DVal(n) => At(s, t, DSub(m.val[m.next[n].value]))
    case DSub(v) => At(s, t, DDone(Some(v))).(m := m.(size := m.size - 1))
    case _ => s
  }

  /** The pointers a thread follows are there. */
  predicate Enabled(s: State, t: nat)
    requires t in s.pcs
  {
    match s.pcs[t]
    case ELink(_, n) => n in s.m.next
    case EHelp(_, n) => n in s.m.next && s.m.next[n].Some?
    case DNext(n) => n in s.m.next
    case DRead(n) => n in s.m.next && s.m.next[n].Some?
    case DCas(n, nx) => nx in s.m.val
    case DVal(n) => n in s.m.next && s.m.next[n].Some? && s.m.next[n].value in s.m.val
    case _ => true
  }

  // ---------------------------------------------------------------- invariant

  /** The linked nodes form one chain, in the order they were linked. */
  ghost predicate Chain(next: map<Id, Option<Id>>, order: seq<Id>) {
    && (forall i, j :: 0 <= i < j < |order| ==> order[i] != order[j])
    && (forall i :: 0 <= i < |order| ==> order[i] in next && next[order[i]] == Succ(order, i))
  }

  ghost function Succ(order: seq<Id>, i: nat): Option<Id> { if i + 1 < |order| then Some(order[i + 1]) else None }

  ghost predicate MemOk(s: State) {
    && Chain(s.m.next, s.order) && s.taken < |s.order| && s.m.head == s.order[s.taken] && s.m.tail in s.order
    && (forall i :: 0 < i < |s.order| ==> s.order[i] in s.m.val) && s.m.val.Keys <= s.m.next.Keys
  }

  /** The values in the queue. */
  ghost function Contents(s: State): seq<Val>
    requires MemOk(s)
  {
    seq(|s.order| - s.taken - 1, i requires 0 <= i < |s.order| - s.taken - 1 => s.m.val[s.order[s.taken + 1 + i]])
  }

  /** A node its enqueuer has not linked yet. */
  ghost predicate Private(next: map<Id, Option<Id>>, val: map<Id, Val>, order: seq<Id>, node: Id) {
    node in next && next[node] == None && node in val && node !in order
  }

  function NodeOf(pc: Pc): Option<Id> {
    match pc
    case ELoop(node) => Some(node)
    case ECheck(node, _) => Some(node)
    case ELink(node, _) => Some(node)
    case EHelp(node, _) => Some(node)
    case ESwingNext(node, _, _) => Some(node)
    case _ => None
  }

  ghost predicate Passed(order: seq<Id>, taken: nat, n: Id) {
    exists i :: 0 <= i < |order| && i <= taken && order[i] == n
  }

  /** What thread t may rely on. */
  ghost predicate PcOk(next: map<Id, Option<Id>>, val: map<Id, Val>, order: seq<Id>, taken: nat,
                       promised: map<nat, Val>, t: nat, pc: Pc) {
    && (NodeOf(pc).Some? ==> Private(next, val, order, NodeOf(pc).value))
    && match pc
       case ECheck(_, n) => n in order
       case ELink(_, n) => n in order && n in next
       case EHelp(_, n) => n in order && n in next && next[n].Some?
       case ESwingNext(_, n, nx) => nx in order
       case ESwing(node, n) => node in order
       case DNext(n) => Passed(order, taken, n) && n in next
       case DRead(n) => n in order && n in next && next[n].Some?
       case DCas(n, nx) => n in order && n in next && next[n] == Some(nx)
       case DVal(n) =>
         n in next && next[n].Some? && next[n].value in val && t in promised && promised[t] == val[next[n].value]
       case DSub(v) => t in promised && promised[t] == v
       case DDone(r) => r.Some? ==> t in promised && promised[t] == r.value
       case _ => true
  }

  ghost predicate PcsOk(s: State) {
    && (forall t: nat :: t in s.pcs ==> PcOk(s.m.next, s.m.val, s.order, s.taken, s.promised, t, s.pcs[t]))
    && (forall t: nat, u: nat :: t in s.pcs && u in s.pcs && t != u && NodeOf(s.pcs[t]).Some? ==>
         NodeOf(s.pcs[t]) != NodeOf(s.pcs[u]))
  }

  /** A node linked but not counted yet, or removed but not discounted yet. */
  predicate IsAdding(pc: Pc) { pc.ESwing? || pc.EAdd? }

  predicate IsSubtracting(pc: Pc) { pc.DVal? || pc.DSub? }

  ghost function Adding(pcs: map<nat, Pc>): set<nat> { set t | t in pcs && IsAdding(pcs[t]) }

  ghost function Subtracting(pcs: map<nat, Pc>): set<nat> { set t | t in pcs && IsSubtracting(pcs[t]) }

  ghost predicate Inv(s: State) {
    && MemOk(s) && PcsOk(s)
    && s.m.size == |s.order| - 1 - s.taken - |Adding(s.pcs)| + |Subtracting(s.pcs)|
  }

  function One(b: bool): nat { if b then 1 else 0 }

  lemma AddingAt(pcs: map<nat, Pc>, t: nat, pc: Pc)
    requires t in pcs
    ensures |Adding(pcs[t := pc])| == |Adding(pcs)| + One(IsAdding(pc)) - One(IsAdding(pcs[t]))
  {
    hide IsAdding;
    var a := Adding(pcs) - {t};
    assert Adding(pcs[t := pc]) == if IsAdding(pc) then a + {t} else a;
    assert Adding(pcs) == if IsAdding(pcs[t]) then a + {t} else a;
  }

  lemma SubtractingAt(pcs: map<nat, Pc>, t: nat, pc: Pc)
    requires t in pcs
    ensures |Subtracting(pcs[t := pc])| == |Subtracting(pcs)| + One(IsSubtracting(pc)) - One(IsSubtracting(pcs[t]))
  {
    hide IsSubtracting;
    var a := Subtracting(pcs) - {t};
    assert Subtracting(pcs[t := pc]) == if IsSubtracting(pc) then a + {t} else a;
    assert Subtracting(pcs) == if IsSubtracting(pcs[t]) then a + {t} else a;
  }

  /** A thread moves on and the nodes stay as they are. */
  lemma Moves(s: State, t: nat, pc: Pc)
    requires PcsOk(s) && t in s.pcs && PcOk(s.m.next, s.m.val, s.order, s.taken, s.promised, t, pc)
    requires NodeOf(pc) == NodeOf(s.pcs[t]) || NodeOf(pc) == None
    ensures PcsOk(At(s, t, pc))
  {
    hide PcOk;
  }

  /** The last node of the chain is the only one without a successor. */
  lemma LastIs(next: map<Id, Option<Id>>, order: seq<Id>, n: Id)
    requires Chain(next, order) && n in order
    ensures n in next && (next[n] == None <==> n == order[|order| - 1])
    ensures next[n].Some? ==> next[n].value in order
  {
    var i :| 0 <= i < |order| && order[i] == n;
    assert order[i] in next && next[order[i]] == Succ(order, i);
    assert i + 1 < |order| ==> order[i] != order[|order| - 1];
  }

  lemma LinkChain(next: map<Id, Option<Id>>, order: seq<Id>, n: Id, node: Id)
    requires Chain(next, order) && order != [] && n == order[|order| - 1] && node in next && next[node] == None
    requires node !in order
    ensures Chain(next[n := Some(node)], order + [node])
  {
  }

  /** Linking a node does not disturb the other threads. */
  lemma LinkOthers(next: map<Id, Option<Id>>, val: map<Id, Val>, order: seq<Id>, taken: nat, promised: map<nat, Val>,
                   u: nat, pc: Pc, n: Id, node: Id)
    requires PcOk(next, val, order, taken, promised, u, pc) && n in order && n in next && next[n] == None
    requires NodeOf(pc) != Some(node)
    ensures PcOk(next[n := Some(node)], val, order + [node], taken, promised, u, pc)
  {
    assert forall x :: x in order ==> x in order + [node];
    if pc.DNext? {
      var i :| 0 <= i < |order| && i <= taken && order[i] == pc.n;
      assert (order + [node])[i] == pc.n;
    }
  }

  /** A step that changes neither nodes nor counts. */
  lemma QuietInv(s: State, t: nat, pc: Pc, tail: Id)
    requires Inv(s) && t in s.pcs && PcOk(s.m.next, s.m.val, s.order, s.taken, s.promised, t, pc)
    requires NodeOf(pc) == NodeOf(s.pcs[t]) || NodeOf(pc) == None
    requires IsAdding(pc) == IsAdding(s.pcs[t]) && IsSubtracting(pc) == IsSubtracting(s.pcs[t]) && tail in s.order
    ensures Inv(At(s, t, pc).(m := s.m.(tail := tail)))
  {
    hide Chain, PcOk, Adding, Subtracting;
    Moves(s, t, pc);
    AddingAt(s.pcs, t, pc);
    SubtractingAt(s.pcs, t, pc);
  }

  lemma LinkInv(s: State, t: nat, node: Id, n: Id)
    requires Inv(s) && t in s.pcs && s.pcs[t] == ELink(node, n) && n in s.m.next && s.m.next[n] == None
    ensures Inv(At(s, t, ESwing(node, n)).(m := s.m.(next := s.m.next[n := Some(node)]), order := s.order + [node]))
  {
    hide Chain, PcOk, Adding, Subtracting;
    var s' := At(s, t, ESwing(node, n)).(m := s.m.(next := s.m.next[n := Some(node)]), order := s.order + [node]);
    Relies(s, t);
    LastIs(s.m.next, s.order, n);
    LinkChain(s.m.next, s.order, n, node);
    forall u: nat | u in s'.pcs ensures PcOk(s'.m.next, s'.m.val, s'.order, s'.taken, s'.promised, u, s'.pcs[u]) {
      if u != t { LinkOthers(s.m.next, s.m.val, s.order, s.taken, s.promised, u, s.pcs[u], n, node); }
      else { SwingOk(s'.m.next, s'.m.val, s'.order, s'.taken, s'.promised, t, node, n); }
    }
    AddingAt(s.pcs, t, ESwing(node, n));
    SubtractingAt(s.pcs, t, ESwing(node, n));
  }

  lemma SwingOk(next: map<Id, Option<Id>>, val: map<Id, Val>, order: seq<Id>, taken: nat, promised: map<nat, Val>,
                t: nat, node: Id, n: Id)
    requires node in order
    ensures PcOk(next, val, order, taken, promised, t, ESwing(node, n))
  {
  }

  /** What the thread at ELink relies on. */
  lemma Relies(s: State, t: nat)
    requires PcsOk(s) && t in s.pcs && s.pcs[t].ELink?
    ensures s.pcs[t].n in s.order && Private(s.m.next, s.m.val, s.order, s.pcs[t].node)
  {
    assert PcOk(s.m.next, s.m.val, s.order, s.taken, s.promised, t, s.pcs[t]);
  }

  /** Moving head past a node does not disturb the other threads. */
  lemma TakeOthers(next: map<Id, Option<Id>>, val: map<Id, Val>, order: seq<Id>, taken: nat, promised: map<nat, Val>,
                   u: nat, pc: Pc, t: nat, v: Val)
    requires PcOk(next, val, order, taken, promised, u, pc) && u != t
    ensures PcOk(next, val, order, taken + 1, promised[t := v], u, pc)
  {
  }

  lemma TakeInv(s: State, t: nat, n: Id, nx: Id)
    requires Inv(s) && t in s.pcs && s.pcs[t] == DCas(n, nx) && s.m.head == n
    ensures nx in s.m.val && s.taken + 1 < |s.order| && s.order[s.taken + 1] == nx
    ensures Inv(At(s, t, DVal(n)).(m := s.m.(head := nx), taken := s.taken + 1,
                                   promised := s.promised[t := s.m.val[nx]]))
  {
    hide Adding, Subtracting, PcOk;
    CasRelies(s, t);
    assert s.m.next[s.order[s.taken]] == Succ(s.order, s.taken);
    var s' := At(s, t, DVal(n)).(m := s.m.(head := nx), taken := s.taken + 1, promised := s.promised[t := s.m.val[nx]]);
    TakePcs(s, s', t, n, nx);
    AddingAt(s.pcs, t, DVal(n));
    SubtractingAt(s.pcs, t, DVal(n));
  }

  lemma CasRelies(s: State, t: nat)
    requires PcsOk(s) && t in s.pcs && s.pcs[t].DCas?
    ensures s.pcs[t].n in s.order && s.pcs[t].n in s.m.next && s.m.next[s.pcs[t].n] == Some(s.pcs[t].nx)
  {
    assert PcOk(s.m.next, s.m.val, s.order, s.taken, s.promised, t, s.pcs[t]);
  }

  lemma TakePcs(s: State, s': State, t: nat, n: Id, nx: Id)
    requires PcsOk(s) && t in s.pcs && nx in s.m.val && n in s.m.next && s.m.next[n] == Some(nx)
    requires s.pcs[t] == DCas(n, nx)
    requires s' == At(s, t, DVal(n)).(m := s.m.(head := nx), taken := s.taken + 1,
                                      promised := s.promised[t := s.m.val[nx]])
    ensures PcsOk(s')
  {
    hide PcOk;
    forall u: nat | u in s'.pcs ensures PcOk(s'.m.next, s'.m.val, s'.order, s'.taken, s'.promised, u, s'.pcs[u]) {
      if u != t { TakeOthers(s.m.next, s.m.val, s.order, s.taken, s.promised, u, s.pcs[u], t, s.m.val[nx]); }
      else { ValOk(s'.m.next, s'.m.val, s'.order, s'.taken, s'.promised, t, n, nx); }
    }
  }

  lemma ValOk(next: map<Id, Option<Id>>, val: map<Id, Val>, order: seq<Id>, taken: nat, promised: map<nat, Val>, t: nat,
              n: Id, nx: Id)
    requires n in next && next[n] == Some(nx) && nx in val && t in promised && promised[t] == val[nx]
    ensures PcOk(next, val, order, taken, promised, t, DVal(n))
  {
  }

  lemma AddInv(s: State, t: nat)
    requires Inv(s) && t in s.pcs && s.pcs[t].EAdd?
    ensures Inv(At(s, t, EDone(true)).(m := s.m.(size := s.m.size + 1)))
  {
    hide Chain, Adding, Subtracting, Private;
    Moves(s, t, EDone(true));
    AddingAt(s.pcs, t, EDone(true));
    SubtractingAt(s.pcs, t, EDone(true));
  }

  lemma SubInv(s: State, t: nat)
    requires Inv(s) && t in s.pcs && s.pcs[t].DSub?
    ensures Inv(At(s, t, DDone(Some(s.pcs[t].v))).(m := s.m.(size := s.m.size - 1)))
  {
    hide Chain, Adding, Subtracting, PcOk;
    var pc := DDone(Some(s.pcs[t].v));
    SubOk(s.m.next, s.m.val, s.order, s.taken, s.promised, t, s.pcs[t].v);
    Moves(s, t, pc);
    AddingAt(s.pcs, t, pc);
    SubtractingAt(s.pcs, t, pc);
  }

  lemma SubOk(next: map<Id, Option<Id>>, val: map<Id, Val>, order: seq<Id>, taken: nat, promised: map<nat, Val>, t: nat,
              v: Val)
    requires PcOk(next, val, order, taken, promised, t, DSub(v))
    ensures PcOk(next, val, order, taken, promised, t, DDone(Some(v)))
  {
  }

  /** What each thread relies on lets it take its next step. */
  lemma CanStep(s: State, t: nat)
    requires Inv(s) && t in s.pcs
    ensures Enabled(s, t)
  {
    hide Adding, Subtracting;
    assert PcOk(s.m.next, s.m.val, s.order, s.taken, s.promised, t, s.pcs[t]);
    match s.pcs[t] {
      case DCas(n, nx) => SuccInVal(s, n);
      case _ =>
    }
  }

  lemma SuccInVal(s: State, n: Id)
    requires MemOk(s) && n in s.order && n in s.m.next && s.m.next[n].Some?
    ensures s.m.next[n].value in s.m.val && s.m.next[n].value in s.order
  {
    var i :| 0 <= i < |s.order| && s.order[i] == n;
    assert s.m.next[s.order[i]] == Succ(s.order, i);
  }

  lemma Facts(s: State, t: nat)
    requires Inv(s) && t in s.pcs
    ensures PcOk(s.m.next, s.m.val, s.order, s.taken, s.promised, t, s.pcs[t])
    ensures s.m.tail in s.order && Passed(s.order, s.taken, s.m.head) && s.m.head in s.m.next
    ensures forall n :: n in s.order && n in s.m.next && s.m.next[n].Some? ==> s.m.next[n].value in s.order
    ensures forall n :: Passed(s.order, s.taken, n) ==> n in s.order
  {
    hide PcOk;
    forall n | n in s.order && n in s.m.next && s.m.next[n].Some? ensures s.m.next[n].value in s.order {
      SuccInVal(s, n);
    }
    assert s.order[s.taken] in s.m.next;
  }

  lemma EnqueueStepInv(s: State, t: nat, max: int)
    requires Inv(s) && t in s.pcs && Enabled(s, t)
    requires match s.pcs[t]
             case ELoop(_) => true case ECheck(_, _) => true case ELink(_, _) => true case EHelp(_, _) => true
             case ESwingNext(_, _, _) => true case ESwing(_, _) => true case EAdd => true case _ => false
    ensures Inv(Step(s, t, max))
  {
    hide Inv, Chain, Passed, Private;
    Facts(s, t);
    match s.pcs[t] {
      case ELoop(node) => QuietInv(s, t, ECheck(node, s.m.tail), s.m.tail);
      case ECheck(node, n) =>
        InOrder(s, n);
        QuietInv(s, t, if s.m.size == max then EDone(false) else ELink(node, n), s.m.tail);
      case ELink(node, n) =>
        if s.m.next[n] == None { LinkInv(s, t, node, n); } else { QuietInv(s, t, EHelp(node, n), s.m.tail); }
      case EHelp(node, n) => QuietInv(s, t, ESwingNext(node, n, s.m.next[n].value), s.m.tail);
      case ESwingNext(node, n, nx) => QuietInv(s, t, ELoop(node), if s.m.tail == n then nx else s.m.tail);
      case ESwing(node, n) => QuietInv(s, t, EAdd, if s.m.tail == n then node else s.m.tail);
      case EAdd => AddInv(s, t);
    }
  }

  lemma InOrder(s: State, n: Id)
    requires Inv(s) && n in s.order
    ensures n in s.m.next
  {
    var i :| 0 <= i < |s.order| && s.order[i] == n;
    assert s.order[i] in s.m.next;
  }

  lemma DequeueStepInv(s: State, t: nat, max: int)
    requires Inv(s) && t in s.pcs && Enabled(s, t)
    requires match s.pcs[t] case DLoop => true case DNext(_) => true case DRead(_) => true case DCas(_, _) => true
                            case DVal(_) => true case DSub(_) => true case _ => false
    ensures Inv(Step(s, t, max))
  {
    hide Inv, Chain, Passed, Private;
    Facts(s, t);
    match s.pcs[t] {
      case DLoop => QuietInv(s, t, DNext(s.m.head), s.m.tail);
      case DNext(n) => QuietInv(s, t, if s.m.next[n] == None then DDone(None) else DRead(n), s.m.tail);
      case DRead(n) => QuietInv(s, t, DCas(n, s.m.next[n].value), s.m.tail);
      case DCas(n, nx) => if s.m.head == n { TakeInv(s, t, n, nx); } else { QuietInv(s, t, DLoop, s.m.tail); }
      case DVal(n) => QuietInv(s, t, DSub(s.m.val[s.m.next[n].value]), s.m.tail);
      case DSub(v) => SubInv(s, t);
    }
  }

  /** Every step of every thread keeps the invariant. */
  lemma StepInv(s: State, t: nat, max: int)
    requires Inv(s) && t in s.pcs
    ensures Enabled(s, t) && Inv(Step(s, t, max))
  {
    hide Inv;
    CanStep(s, t);
    match s.pcs[t] {
      case Idle =>
      case EDone(_) =>
      case DDone(_) =>
      case ELoop(_) => EnqueueStepInv(s, t, max);
      case ECheck(_, _) => EnqueueStepInv(s, t, max);
      case ELink(_, _) => EnqueueStepInv(s, t, max);
      case EHelp(_, _) => EnqueueStepInv(s, t, max);
      case ESwingNext(_, _, _) => EnqueueStepInv(s, t, max);
      case ESwing(_, _) => EnqueueStepInv(s, t, max);
      case EAdd => EnqueueStepInv(s, t, max);
      case _ => DequeueStepInv(s, t, max);
    }
  }

  // ---------------------------------------------------------------- the queue is a FIFO

  /** The step that appends, the step that removes the front, and nothing else changes the contents. */
  lemma StepContents(s: State, t: nat, max: int)
    requires Inv(s) && t in s.pcs && Enabled(s, t) && Inv(Step(s, t, max))
    ensures var s' := Step(s, t, max);
            match s.pcs[t]
            case ELink(node, n) =>
              if s'.pcs[t].ESwing? then node in s.m.val && Contents(s') == Contents(s) + [s.m.val[node]]
              else Contents(s') == Contents(s)
            case DCas(n, nx) =>
              if s'.pcs[t].DVal? then t in s'.promised && Contents(s) == [s'.promised[t]] + Contents(s')
              else Contents(s') == Contents(s)
            case _ => Contents(s') == Contents(s)
  {
    hide Inv, MemOk, Contents;
    InvMem(s);
    InvMem(Step(s, t, max));
    match s.pcs[t] {
      case ELink(node, n) =>
        LinkRelies(s, t);
        if s.m.next[n] == None { LinkContents(s, Step(s, t, max), node); } else { SameContents(s, Step(s, t, max)); }
      case DCas(n, nx) =>
        if s.m.head == n {
          TakeInv(s, t, n, nx);
          TakeContents(s, Step(s, t, max));
        } else {
          SameContents(s, Step(s, t, max));
        }
      case _ => SameContents(s, Step(s, t, max));
    }
  }

  lemma InvMem(s: State)
    requires Inv(s)
    ensures MemOk(s)
  {
  }

  lemma LinkRelies(s: State, t: nat)
    requires Inv(s) && t in s.pcs && s.pcs[t].ELink?
    ensures s.pcs[t].node in s.m.val && s.pcs[t].n in s.m.next
  {
    Relies(s, t);
    InOrder(s, s.pcs[t].n);
  }

  lemma SameContents(s: State, s': State)
    requires MemOk(s) && MemOk(s') && s'.order == s.order && s'.taken == s.taken && s'.m.val == s.m.val
    ensures Contents(s') == Contents(s)
  {
  }

  lemma LinkContents(s: State, s': State, node: Id)
    requires MemOk(s) && MemOk(s') && s'.order == s.order + [node] && s'.taken == s.taken && s'.m.val == s.m.val
    requires node in s.m.val
    ensures Contents(s') == Contents(s) + [s.m.val[node]]
  {
    hide Chain;
  }

  lemma TakeContents(s: State, s': State)
    requires MemOk(s) && MemOk(s') && s'.order == s.order && s'.taken == s.taken + 1 && s'.m.val == s.m.val
    ensures Contents(s) == [s.m.val[s.order[s'.taken]]] + Contents(s')
  {
    hide Chain;
  }

  /** A dequeue answers that the queue is empty only in a step at which it is, and otherwise with the value it removed.
      */
  lemma Answers(s: State, t: nat, max: int, s': State)
    requires Inv(s) && t in s.pcs && Enabled(s, t) && s' == Step(s, t, max) && t in s'.pcs && !s.pcs[t].DDone?
    requires s'.pcs[t].DDone?
    ensures var r := s'.pcs[t].r;
            if r == None then s.pcs[t].DNext? && Contents(s) == []
            else s.pcs[t].DSub? && t in s.promised && r.value == s.promised[t]
  {
    hide Inv, MemOk, Contents;
    InvMem(s);
    Facts(s, t);
    if s.pcs[t].DNext? { EmptyNow(s, s.pcs[t].n); }
  }

  lemma EmptyNow(s: State, n: Id)
    requires MemOk(s) && Passed(s.order, s.taken, n) && n in s.m.next && s.m.next[n] == None
    ensures Contents(s) == []
  {
    var i :| 0 <= i < |s.order| && i <= s.taken && s.order[i] == n;
    assert s.m.next[s.order[i]] == Succ(s.order, i);
  }

  // ---------------------------------------------------------------- whole runs

  datatype Action = CallEnqueue(t: nat, id: Id, v: Val) | CallDequeue(t: nat) | Run(t: nat)

  /** What a step does to the queue, as one operation of a sequential FIFO. */
  datatype Op = Enq(v: Val) | Deq(v: Val) | Empty

  /** A thread may call when it is not in a call; the node it allocates is new. */
  predicate Possible(s: State, a: Action) {
    match a
    case CallEnqueue(t, id, _) => (t in s.pcs ==> Resting(s.pcs[t])) && id !in s.m.next
    case CallDequeue(t) => t in s.pcs ==> Resting(s.pcs[t])
    case Run(t) => t in s.pcs && Enabled(s, t)
  }

  function Do(s: State, a: Action, max: int): State
    requires Possible(s, a)
  {
    match a
    case CallEnqueue(t, id, v) => StartEnqueue(s, t, id, v)
    case CallDequeue(t) => StartDequeue(s, t)
    case Run(t) => Step(s, t, max)
  }

  function Effect(s: State, a: Action): seq<Op>
    requires Possible(s, a)
  {
    match a
    case Run(t) =>
      (match s.pcs[t]
       case ELink(node, n) => if s.m.next[n] == None && node in s.m.val then [Enq(s.m.val[node])] else []
       case DCas(n, nx) => if s.m.head == n then [Deq(s.m.val[nx])] else []
       case DNext(n) => if s.m.next[n] == None then [Empty] else []
       case _ => [])
    case _ => []
  }

  /** Sequential FIFO semantics: None if the operation is not possible. */
  function Apply(q: Option<seq<Val>>, op: Op): Option<seq<Val>> {
    if q == None then None
    else
      match op
      case Enq(v) => Some(q.value + [v])
      case Deq(v) => if q.value != [] && q.value[0] == v then Some(q.value[1..]) else None
      case Empty => if q.value == [] then q else None
  }

  function Replay(q: Option<seq<Val>>, ops: seq<Op>): Option<seq<Val>> {
    if ops == [] then q else Apply(Replay(q, ops[..|ops| - 1]), ops[|ops| - 1])
  }

  /** The states of a run and the operations its steps amount to. */
  ghost predicate IsRun(states: seq<State>, actions: seq<Action>, max: int) {
    && |states| == |actions| + 1 && (exists id :: states[0] == Init(id))
    && forall i :: 0 <= i < |actions| ==>
      Possible(states[i], actions[i]) && states[i + 1] == Do(states[i], actions[i], max)
  }

  ghost function History(states: seq<State>, actions: seq<Action>, n: nat): seq<Op>
    requires n <= |actions| < |states| && forall i :: 0 <= i < |actions| ==> Possible(states[i], actions[i])
  {
    if n == 0 then [] else History(states, actions, n - 1) + Effect(states[n - 1], actions[n - 1])
  }

  lemma StartInv(s: State, a: Action)
    requires Inv(s) && Possible(s, a) && !a.Run?
    ensures Inv(Do(s, a, 0)) && Contents(Do(s, a, 0)) == Contents(s)
  {
    hide MemOk, PcsOk, Adding, Subtracting, Contents;
    StartPcs(s, a);
    StartCounts(s, a);
    StartMem(s, a);
  }

  lemma StartMem(s: State, a: Action)
    requires MemOk(s) && Possible(s, a) && !a.Run?
    ensures MemOk(Do(s, a, 0)) && Contents(Do(s, a, 0)) == Contents(s)
  {
    hide Chain;
    if a.CallEnqueue? {
      ChainExtend(s.m.next, s.order, a.id);
      OrderInNext(s);
    }
  }

  lemma ChainExtend(next: map<Id, Option<Id>>, order: seq<Id>, id: Id)
    requires Chain(next, order) && id !in next
    ensures Chain(next[id := None], order)
  {
    assert forall i :: 0 <= i < |order| ==> order[i] in next;
  }

  lemma StartOther(s: State, id: Id, v: Val, u: nat, pc: Pc)
    requires MemOk(s) && id !in s.m.next && PcOk(s.m.next, s.m.val, s.order, s.taken, s.promised, u, pc)
    ensures PcOk(s.m.next[id := None], s.m.val[id := v], s.order, s.taken, s.promised, u, pc)
  {
    hide Chain, Passed;
  }

  lemma StartPcs(s: State, a: Action)
    requires Inv(s) && Possible(s, a) && !a.Run?
    ensures PcsOk(Do(s, a, 0))
  {
    hide PcOk, Chain, Adding, Subtracting;
    var s' := Do(s, a, 0);
    assert forall i :: 0 <= i < |s.order| ==> s.order[i] in s.m.next by { OrderInNext(s); }
    forall u: nat | u in s'.pcs ensures PcOk(s'.m.next, s'.m.val, s'.order, s'.taken, s'.promised, u, s'.pcs[u]) {
      if a.CallEnqueue? && u != a.t { StartOther(s, a.id, a.v, u, s.pcs[u]); }
      if u == a.t { LoopOk(s', u); }
    }
    if a.CallEnqueue? { NodesKnown(s); }
  }

  lemma OrderInNext(s: State)
    requires MemOk(s)
    ensures forall i :: 0 <= i < |s.order| ==> s.order[i] in s.m.next
  {
  }

  lemma LoopOk(s: State, t: nat)
    requires t in s.pcs && (s.pcs[t].DLoop? || (s.pcs[t].ELoop? && Private(s.m.next, s.m.val, s.order, s.pcs[t].node)))
    ensures PcOk(s.m.next, s.m.val, s.order, s.taken, s.promised, t, s.pcs[t])
  {
  }

  lemma NodesKnown(s: State)
    requires PcsOk(s)
    ensures forall t: nat :: t in s.pcs && NodeOf(s.pcs[t]).Some? ==> NodeOf(s.pcs[t]).value in s.m.next
  {
    forall t: nat | t in s.pcs && NodeOf(s.pcs[t]).Some? ensures NodeOf(s.pcs[t]).value in s.m.next {
      assert PcOk(s.m.next, s.m.val, s.order, s.taken, s.promised, t, s.pcs[t]);
    }
  }

  lemma StartCounts(s: State, a: Action)
    requires Possible(s, a) && !a.Run?
    ensures Adding(Do(s, a, 0).pcs) == Adding(s.pcs) && Subtracting(Do(s, a, 0).pcs) == Subtracting(s.pcs)
  {
  }

  /** One action and the operation it amounts to. */
  lemma ActionFifo(s: State, a: Action, max: int)
    requires Inv(s) && Possible(s, a)
    ensures Inv(Do(s, a, max)) && Replay(Some(Contents(s)), Effect(s, a)) == Some(Contents(Do(s, a, max)))
  {
    hide Inv, MemOk, Contents;
    if a.Run? {
      StepInv(s, a.t, max);
      StepContents(s, a.t, max);
      InvMem(s);
      InvMem(Do(s, a, max));
      Facts(s, a.t);
      if s.pcs[a.t].ELink? { LinkRelies(s, a.t); }
      if s.pcs[a.t].DNext? && s.m.next[s.pcs[a.t].n] == None { EmptyNow(s, s.pcs[a.t].n); }
      OneOp(Contents(s), Effect(s, a));
    } else {
      StartInv(s, a);
    }
  }

  lemma OneOp(q: seq<Val>, ops: seq<Op>)
    ensures |ops| == 1 ==> Replay(Some(q), ops) == Apply(Some(q), ops[0])
    ensures ops == [] ==> Replay(Some(q), ops) == Some(q)
  {
    if |ops| == 1 { assert ops[..0] == []; }
  }

  lemma {:induction false} ReplayConcat(q: Option<seq<Val>>, a: seq<Op>, b: seq<Op>)
    ensures Replay(q, a + b) == Replay(Replay(q, a), b)
    decreases |b|
  {
    if b == [] {
      assert a + b == a;
    } else {
      ReplayConcat(q, a, b[..|b| - 1]);
      assert (a + b)[..|a + b| - 1] == a + b[..|b| - 1];
    }
  }

  /** Every run is a run of a sequential FIFO: its operations, in the order of their steps, are all possible and
      lead to the contents of the queue. */
  lemma {:induction false} EveryRunIsFifo(states: seq<State>, actions: seq<Action>, max: int, n: nat)
    requires IsRun(states, actions, max) && n <= |actions|
    ensures Inv(states[n]) && Replay(Some([]), History(states, actions, n)) == Some(Contents(states[n]))
    decreases n
  {
    hide Inv, Contents, Possible, Do, Effect, Replay;
    if n == 0 {
      RunStart(states[0]);
    } else {
      EveryRunIsFifo(states, actions, max, n - 1);
      var s := states[n - 1];
      ActionFifo(s, actions[n - 1], max);
      ReplayConcat(Some([]), History(states, actions, n - 1), Effect(s, actions[n - 1]));
    }
  }

  lemma RunStart(s: State)
    requires exists id :: s == Init(id)
    ensures Inv(s) && Contents(s) == [] && Replay(Some([]), []) == Some([])
  {
  }

  function Enqueued(ops: seq<Op>): seq<Val> {
    if ops == [] then [] else Enqueued(ops[..|ops| - 1]) + if ops[|ops| - 1].Enq? then [ops[|ops| - 1].v] else []
  }

  function Dequeued(ops: seq<Op>): seq<Val> {
    if ops == [] then [] else Dequeued(ops[..|ops| - 1]) + if ops[|ops| - 1].Deq? then [ops[|ops| - 1].v] else []
  }

  /** In a possible history what came out and what is left are, in order, what went in. */
  lemma {:induction false} FirstInFirstOut(ops: seq<Op>)
    requires Replay(Some([]), ops).Some?
    ensures Dequeued(ops) + Replay(Some([]), ops).value == Enqueued(ops)
    decreases |ops|
  {
    if ops != [] {
      var n := |ops| - 1;
      FirstInFirstOut(ops[..n]);
      var q := Replay(Some([]), ops[..n]).value;
      if ops[n].Deq? { assert q == [ops[n].v] + q[1..]; }
    }
  }

  /** Over a whole run the values removed are a prefix of the values linked, in link order. */
  lemma DequeuedIsPrefix(states: seq<State>, actions: seq<Action>, max: int)
    requires IsRun(states, actions, max)
    ensures var h := History(states, actions, |actions|);
            Inv(states[|actions|]) && Dequeued(h) + Contents(states[|actions|]) == Enqueued(h)
  {
    hide Inv, Contents, Possible, Do, Effect, Replay;
    EveryRunIsFifo(states, actions, max, |actions|);
    FirstInFirstOut(History(states, actions, |actions|));
  }
}
