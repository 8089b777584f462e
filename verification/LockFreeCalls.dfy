/**
 Whole calls of q_enqueue and q_dequeue in a run of the queue: what a call answers is what it has done, and what a call
 does that runs alone.
 */
module LockFreeCalls {
  import opened Sequences
  import opened LockFreeQueue

  /** The operations thread t itself performs from state i to state j. */
  ghost function Own(states: seq<State>, actions: seq<Action>, t: nat, i: nat, j: nat): seq<Op>
    requires j <= |actions| < |states| && forall k :: 0 <= k < |actions| ==> Possible(states[k], actions[k])
    decreases j
  {
    if j <= i then []
    else
      var own := Own(states, actions, t, i, j - 1);
      own + if actions[j - 1] == Run(t) then Effect(states[j - 1], actions[j - 1]) else []
  }

  /** From state i + 1 to state j thread t is in the call it makes at step i, which ends at j. */
  ghost predicate IsCall(states: seq<State>, actions: seq<Action>, max: int, t: nat, i: nat, j: nat) {
    && IsRun(states, actions, max) && i < j <= |actions| && !actions[i].Run? && actions[i].t == t
    && forall k :: i < k < j ==> t in states[k].pcs && !Resting(states[k].pcs[t])
  }

  /** The call found the queue full at one of its steps. */
  ghost predicate FoundFull(states: seq<State>, actions: seq<Action>, max: int, t: nat, i: nat, j: nat)
    requires j <= |actions| < |states|
  {
    exists k :: i < k < j && actions[k] == Run(t) && states[k].m.size == max
  }

  // ---------------------------------------------------------------- enqueue

  /** How far the enqueue of v with node id has come, and what it has done so far. */
  ghost predicate Enqueuing(s: State, t: nat, id: Id, v: Val, own: seq<Op>, full: bool) {
    && t in s.pcs && id in s.m.next && id in s.m.val && s.m.val[id] == v
    && match s.pcs[t]
       case ESwing(_, _) => own == [Enq(v)]
       case EAdd => own == [Enq(v)]
       case EDone(ok) => if ok then own == [Enq(v)] else own == [] && full
       case pc => NodeOf(pc) == Some(id) && own == []
  }

  /** Another thread acts, or is called. */
  lemma OthersLeaveIt(s: State, a: Action, max: int, t: nat)
    requires Possible(s, a) && t in s.pcs && a.t != t
    ensures var r := Do(s, a, max);
            && t in r.pcs && r.pcs[t] == s.pcs[t]
            && (t in s.promised ==> t in r.promised && r.promised[t] == s.promised[t])
            && (forall x :: x in s.m.next ==> x in r.m.next)
            && forall x :: x in s.m.next && x in s.m.val ==> x in r.m.val && r.m.val[x] == s.m.val[x]
  {
    if a.Run? { StepLeavesIt(s, a.t, max, t); }
    hide Step;
  }

  lemma StepLeavesIt(s: State, u: nat, max: int, t: nat)
    requires u in s.pcs && Enabled(s, u) && t in s.pcs && u != t
    ensures var r := Step(s, u, max);
            && t in r.pcs && r.pcs[t] == s.pcs[t]
            && (t in s.promised ==> t in r.promised && r.promised[t] == s.promised[t])
            && (forall x :: x in s.m.next ==> x in r.m.next) && r.m.val == s.m.val
  {
  }

  /** One step of the enqueue itself. */
  lemma EnqueueActs(s: State, max: int, t: nat, id: Id, v: Val, own: seq<Op>, full: bool)
    requires Enqueuing(s, t, id, v, own, full) && Enabled(s, t) && !Resting(s.pcs[t])
    ensures Enqueuing(Step(s, t, max), t, id, v, own + Effect(s, Run(t)), full || s.m.size == max)
  {
    assert own + [] == own;
    assert [] + [Enq(v)] == [Enq(v)];
  }

  /** What a call of q_enqueue has done is what its position says. */
  lemma {:induction false} EnqueueSoFar(states: seq<State>, actions: seq<Action>, max: int, t: nat, i: nat, j: nat,
                                        id: Id, v: Val)
    requires IsCall(states, actions, max, t, i, j) && actions[i] == CallEnqueue(t, id, v)
    ensures Enqueuing(states[j], t, id, v, Own(states, actions, t, i, j), FoundFull(states, actions, max, t, i, j))
    decreases j
  {
    hide Enqueuing, Do, Effect, Possible;
    if j == i + 1 {
      EnqueueBegins(states[i], max, t, id, v, FoundFull(states, actions, max, t, i, j));
      assert Own(states, actions, t, i, j) == Own(states, actions, t, i, i) + [] == [];
    } else {
      EnqueueSoFar(states, actions, max, t, i, j - 1, id, v);
      var s, a := states[j - 1], actions[j - 1];
      var own, full := Own(states, actions, t, i, j - 1), FoundFull(states, actions, max, t, i, j - 1);
      EnqueueNext(s, a, max, t, id, v, own, full);
      FullGrows(states, actions, max, t, i, j);
    }
  }

  lemma FullGrows(states: seq<State>, actions: seq<Action>, max: int, t: nat, i: nat, j: nat)
    requires i + 1 < j <= |actions| < |states|
    ensures FoundFull(states, actions, max, t, i, j) <==>
      FoundFull(states, actions, max, t, i, j - 1) || (actions[j - 1] == Run(t) && states[j - 1].m.size == max)
  {
  }

  lemma EnqueueBegins(s: State, max: int, t: nat, id: Id, v: Val, full: bool)
    requires Possible(s, CallEnqueue(t, id, v))
    ensures Enqueuing(Do(s, CallEnqueue(t, id, v), max), t, id, v, [], full)
  {
  }

  lemma EnqueueNext(s: State, a: Action, max: int, t: nat, id: Id, v: Val, own: seq<Op>, full: bool)
    requires Enqueuing(s, t, id, v, own, full) && Possible(s, a) && t in s.pcs && !Resting(s.pcs[t])
    ensures Enqueuing(Do(s, a, max), t, id, v, own + if a == Run(t) then Effect(s, a) else [],
                      full || (a == Run(t) && s.m.size == max))
  {
    assert own + [] == own;
    if a == Run(t) {
      EnqueueActs(s, max, t, id, v, own, full);
    } else {
      assert a.t != t;
      OthersLeaveIt(s, a, max, t);
    }
  }

  /** A call of q_enqueue that answers true has linked its value, once; one that answers false has linked nothing, and
      found the queue full. */
  lemma EnqueueAnswers(states: seq<State>, actions: seq<Action>, max: int, t: nat, i: nat, j: nat, id: Id, v: Val)
    requires IsCall(states, actions, max, t, i, j) && actions[i] == CallEnqueue(t, id, v)
    requires t in states[j].pcs && Resting(states[j].pcs[t])
    ensures states[j].pcs[t].EDone?
    ensures states[j].pcs[t].ok ==> Own(states, actions, t, i, j) == [Enq(v)]
    ensures !states[j].pcs[t].ok ==>
      Own(states, actions, t, i, j) == [] && FoundFull(states, actions, max, t, i, j)
  {
    hide Own, FoundFull;
    EnqueueSoFar(states, actions, max, t, i, j, id, v);
  }

  // ---------------------------------------------------------------- dequeue

  /** How far a dequeue has come, and what it has done so far. */
  ghost predicate Dequeuing(s: State, t: nat, own: seq<Op>) {
    && t in s.pcs
    && match s.pcs[t]
       case DLoop => own == []
       case DNext(_) => own == []
       case DRead(_) => own == []
       case DCas(_, _) => own == []
       case DVal(_) => t in s.promised && own == [Deq(s.promised[t])]
       case DSub(v) => own == [Deq(v)]
       case DDone(r) => own == if r.Some? then [Deq(r.value)] else [Empty]
       case _ => false
  }

  lemma DequeueNext(s: State, a: Action, max: int, t: nat, own: seq<Op>)
    requires Dequeuing(s, t, own) && Possible(s, a) && Inv(s) && t in s.pcs && !Resting(s.pcs[t])
    ensures Dequeuing(Do(s, a, max), t, own + if a == Run(t) then Effect(s, a) else [])
  {
    assert own + [] == own;
    Facts(s, t);
    hide Inv;
    if a == Run(t) {
      DequeueActs(s, max, t, own);
    } else {
      assert a.t != t;
      OthersLeaveIt(s, a, max, t);
    }
  }

  lemma DequeueActs(s: State, max: int, t: nat, own: seq<Op>)
    requires Dequeuing(s, t, own) && Enabled(s, t) && !Resting(s.pcs[t])
    requires PcOk(s.m.next, s.m.val, s.order, s.taken, s.promised, t, s.pcs[t])
    ensures Dequeuing(Step(s, t, max), t, own + Effect(s, Run(t)))
  {
    hide Passed, Private;
    assert own + [] == own;
    assert forall op: Op :: [] + [op] == [op];
  }

  lemma {:induction false} DequeueSoFar(states: seq<State>, actions: seq<Action>, max: int, t: nat, i: nat, j: nat)
    requires IsCall(states, actions, max, t, i, j) && actions[i] == CallDequeue(t)
    ensures Dequeuing(states[j], t, Own(states, actions, t, i, j))
    decreases j
  {
    hide Dequeuing, Do, Effect, Possible, Inv, Contents, Replay;
    if j == i + 1 {
      DequeueBegins(states[i], max, t);
      assert Own(states, actions, t, i, j) == Own(states, actions, t, i, i) + [] == [];
    } else {
      DequeueSoFar(states, actions, max, t, i, j - 1);
      EveryRunIsFifo(states, actions, max, j - 1);
      DequeueNext(states[j - 1], actions[j - 1], max, t, Own(states, actions, t, i, j - 1));
    }
  }

  lemma DequeueBegins(s: State, max: int, t: nat)
    requires Possible(s, CallDequeue(t))
    ensures Dequeuing(Do(s, CallDequeue(t), max), t, [])
  {
  }

  /** A call of q_dequeue that answers with a value has removed that value, once, and nothing else; one that answers
      NULL
      has removed nothing and found the queue empty, once. */
  lemma DequeueAnswers(states: seq<State>, actions: seq<Action>, max: int, t: nat, i: nat, j: nat)
    requires IsCall(states, actions, max, t, i, j) && actions[i] == CallDequeue(t)
    requires t in states[j].pcs && Resting(states[j].pcs[t])
    ensures states[j].pcs[t].DDone?
    ensures var r := states[j].pcs[t].r; Own(states, actions, t, i, j) == if r.Some? then [Deq(r.value)] else [Empty]
  {
    hide Own;
    DequeueSoFar(states, actions, max, t, i, j);
  }

  // ---------------------------------------------------------------- calls that run alone

  /** Thread t alone takes n steps. */
  ghost predicate Alone(s: State, t: nat, max: int, n: nat, r: State)
    decreases n
  {
    if n == 0 then r == s else t in s.pcs && Enabled(s, t) && Alone(Step(s, t, max), t, max, n - 1, r)
  }

  lemma {:induction false} AloneConcat(s: State, t: nat, max: int, n: nat, r: State, k: nat, u: State)
    requires Alone(s, t, max, n, r) && Alone(r, t, max, k, u)
    ensures Alone(s, t, max, n + k, u)
    decreases n
  {
    if n > 0 { AloneConcat(Step(s, t, max), t, max, n - 1, r, k, u); }
  }

  /** How far the tail lags behind the last node. */
  ghost predicate Lags(s: State, d: nat) { d < |s.order| && s.m.tail == s.order[|s.order| - 1 - d] }

  lemma OneStepAlone(s: State, t: nat, max: int)
    requires Inv(s) && t in s.pcs
    ensures Enabled(s, t) && Alone(s, t, max, 1, Step(s, t, max)) && Inv(Step(s, t, max))
  {
    hide Inv, Step;
    StepInv(s, t, max);
    assert Alone(Step(s, t, max), t, max, 0, Step(s, t, max));
  }

  /** Up to the attempt to link, in a queue that is not full. */
  lemma UpToLink(s: State, t: nat, max: int, node: Id) returns (r: State)
    requires Inv(s) && t in s.pcs && s.pcs[t] == ELoop(node) && s.m.size != max
    ensures Inv(r) && r == At(s, t, ELink(node, s.m.tail)) && Alone(s, t, max, 2, r)
  {
    hide Inv, Alone;
    OneStepAlone(s, t, max);
    var s1 := Step(s, t, max);
    OneStepAlone(s1, t, max);
    r := Step(s1, t, max);
    AloneConcat(s, t, max, 1, s1, 1, r);
    assert r.pcs == s.pcs[t := ELink(node, s.m.tail)];
  }

  /** The tail is the last node: the node is linked, the tail moved and the value counted. */
  lemma LinksAlone(s: State, t: nat, max: int, node: Id) returns (r: State)
    requires Inv(s) && t in s.pcs && s.pcs[t] == ELoop(node) && s.m.size != max && Lags(s, 0)
    ensures Inv(r) && Inv(s) && Alone(s, t, max, 5, r) && t in r.pcs && r.pcs[t] == EDone(true)
    ensures node in s.m.val && Contents(r) == Contents(s) + [s.m.val[node]] && r.m.size == s.m.size + 1
  {
    hide Inv, Alone, Contents;
    var s1 := UpToLink(s, t, max, node);
    LastHasNoNext(s1);
    LinkRelies(s1, t);
    OneStepAlone(s1, t, max);
    StepContents(s1, t, max);
    var s2 := Step(s1, t, max);
    OneStepAlone(s2, t, max);
    StepContents(s2, t, max);
    var s3 := Step(s2, t, max);
    OneStepAlone(s3, t, max);
    StepContents(s3, t, max);
    r := Step(s3, t, max);
    InvMem(s);
    InvMem(s1);
    SameContents(s, s1);
    AloneConcat(s, t, max, 2, s1, 1, s2);
    AloneConcat(s, t, max, 3, s2, 1, s3);
    AloneConcat(s, t, max, 4, s3, 1, r);
  }

  lemma LastHasNoNext(s: State)
    requires Inv(s) && Lags(s, 0)
    ensures s.m.tail in s.m.next && s.m.next[s.m.tail] == None
  {
    LastIs(s.m.next, s.order, s.m.tail);
  }

  lemma HelpSteps(s: State, t: nat, max: int, node: Id, nx: Id)
    requires s.m.tail in s.m.next && s.m.next[s.m.tail] == Some(nx)
    ensures var n := s.m.tail;
            var s1, s2, s3 := At(s, t, ELink(node, n)), At(s, t, EHelp(node, n)), At(s, t, ESwingNext(node, n, nx));
            && Enabled(s1, t) && Step(s1, t, max) == s2 && Enabled(s2, t) && Step(s2, t, max) == s3
            && Enabled(s3, t) && Step(s3, t, max) == At(s, t, ELoop(node)).(m := s.m.(tail := nx))
  {
    var n := s.m.tail;
    PcTwice(s, t, ELink(node, n), EHelp(node, n));
    PcTwice(s, t, EHelp(node, n), ESwingNext(node, n, nx));
    PcTwice(s, t, ESwingNext(node, n, nx), ELoop(node));
  }

  /** The tail lags: it is moved one node on, and the enqueue starts again. */
  lemma HelpsAlone(s: State, t: nat, max: int, node: Id, d: nat) returns (r: State)
    requires Inv(s) && t in s.pcs && s.pcs[t] == ELoop(node) && s.m.size != max && Lags(s, d) && d > 0
    ensures Inv(r) && Inv(s) && Alone(s, t, max, 5, r) && t in r.pcs && r.pcs[t] == ELoop(node)
    ensures r.m.size == s.m.size && r.m.val == s.m.val && Lags(r, d - 1) && Contents(r) == Contents(s)
  {
    hide Inv, Alone, Contents, Step, Enabled, MemOk, Lags;
    var s1 := UpToLink(s, t, max, node);
    HasNext(s, d);
    var n, nx := s.m.tail, s.order[|s.order| - d];
    LagsLess(s, t, node, d);
    HelpSteps(s, t, max, node, nx);
    OneStepAlone(s1, t, max);
    var s2, s3 := At(s, t, EHelp(node, n)), At(s, t, ESwingNext(node, n, nx));
    OneStepAlone(s2, t, max);
    OneStepAlone(s3, t, max);
    r := At(s, t, ELoop(node)).(m := s.m.(tail := nx));
    InvMem(s);
    InvMem(r);
    SameContents(s, r);
    AloneConcat(s, t, max, 2, s1, 1, s2);
    AloneConcat(s, t, max, 3, s2, 1, s3);
    AloneConcat(s, t, max, 4, s3, 1, r);
  }

  lemma PcTwice(s: State, t: nat, pc: Pc, pc': Pc)
    ensures At(At(s, t, pc), t, pc') == At(s, t, pc')
  {
    assert s.pcs[t := pc][t := pc'] == s.pcs[t := pc'];
  }

  lemma LagsLess(s: State, t: nat, node: Id, d: nat)
    requires 0 < d < |s.order|
    ensures Lags(At(s, t, ELoop(node)).(m := s.m.(tail := s.order[|s.order| - d])), d - 1)
  {
  }

  lemma HasNext(s: State, d: nat)
    requires Inv(s) && Lags(s, d) && d > 0
    ensures d < |s.order| && s.m.tail in s.m.next && s.m.next[s.m.tail] == Some(s.order[|s.order| - d])
  {
    var i := |s.order| - 1 - d;
    assert s.order[i] in s.m.next && s.m.next[s.order[i]] == Succ(s.order, i);
  }

  lemma {:induction false} EnqueuesAlone(s: State, t: nat, max: int, node: Id, d: nat) returns (n: nat, r: State)
    requires Inv(s) && t in s.pcs && s.pcs[t] == ELoop(node) && s.m.size != max && Lags(s, d)
    ensures Inv(r) && Inv(s) && n == 5 * d + 5 && Alone(s, t, max, n, r) && t in r.pcs && r.pcs[t] == EDone(true)
    ensures node in s.m.val && Contents(r) == Contents(s) + [s.m.val[node]] && r.m.size == s.m.size + 1
    decreases d
  {
    hide Inv, Alone, Contents, Lags;
    if d == 0 {
      r := LinksAlone(s, t, max, node);
      n := 5;
    } else {
      var s1 := HelpsAlone(s, t, max, node, d);
      n, r := EnqueuesAlone(s1, t, max, node, d - 1);
      AloneConcat(s, t, max, 5, s1, n, r);
      n := n + 5;
    }
  }

  lemma TailLags(s: State) returns (d: nat)
    requires Inv(s)
    ensures Lags(s, d)
  {
    var i :| 0 <= i < |s.order| && s.order[i] == s.m.tail;
    d := |s.order| - 1 - i;
  }

  /** A q_enqueue that runs alone ends.  It answers true exactly when the count is not the capacity; its value has then
      joined the queue, and else the queue is as it was. */
  lemma EnqueueAlone(s: State, t: nat, max: int, node: Id) returns (n: nat, r: State)
    requires Inv(s) && t in s.pcs && s.pcs[t] == ELoop(node)
    ensures Inv(r) && Inv(s) && Alone(s, t, max, n, r) && t in r.pcs && r.pcs[t] == EDone(s.m.size != max)
    ensures s.m.size != max ==> node in s.m.val && Contents(r) == Contents(s) + [s.m.val[node]]
    ensures s.m.size == max ==> Contents(r) == Contents(s)
    ensures r.m.size == s.m.size + (if s.m.size != max then 1 else 0)
  {
    hide Inv, Alone, Contents, Lags;
    if s.m.size != max {
      var d := TailLags(s);
      n, r := EnqueuesAlone(s, t, max, node, d);
    } else {
      OneStepAlone(s, t, max);
      var s1 := Step(s, t, max);
      OneStepAlone(s1, t, max);
      n, r := 2, Step(s1, t, max);
      InvMem(s);
      InvMem(r);
      SameContents(s, r);
      AloneConcat(s, t, max, 1, s1, 1, r);
    }
  }

  lemma HeadIs(s: State)
    requires Inv(s)
    ensures s.m.head in s.m.next && (Contents(s) == [] <==> s.m.next[s.m.head] == None)
    ensures Contents(s) != [] ==>
      s.m.next[s.m.head].value in s.m.val && Contents(s)[0] == s.m.val[s.m.next[s.m.head].value]
  {
    var i := s.taken;
    assert s.order[i] in s.m.next && s.m.next[s.order[i]] == Succ(s.order, i);
  }

  lemma LookSteps(s: State, t: nat, max: int)
    requires t in s.pcs && s.pcs[t] == DLoop && s.m.head in s.m.next
    ensures var s1 := At(s, t, DNext(s.m.head));
            && Enabled(s, t) && Step(s, t, max) == s1 && Enabled(s1, t)
            && Step(s1, t, max) == At(s, t, if s.m.next[s.m.head] == None then DDone(None) else DRead(s.m.head))
  {
    PcTwice(s, t, DNext(s.m.head), DDone(None));
    PcTwice(s, t, DNext(s.m.head), DRead(s.m.head));
  }

  /** A q_dequeue that runs alone ends, with the value at the front, which leaves the queue, or with NULL if there is
      none. */
  lemma DequeueAlone(s: State, t: nat, max: int) returns (n: nat, r: State)
    requires Inv(s) && t in s.pcs && s.pcs[t] == DLoop
    ensures Inv(r) && Inv(s) && Alone(s, t, max, n, r) && t in r.pcs
    ensures if Contents(s) == [] then r.pcs[t] == DDone(None) && Contents(r) == [] && r.m.size == s.m.size
            else r.pcs[t] == DDone(Some(Contents(s)[0])) && Contents(r) == Contents(s)[1..] && r.m.size == s.m.size - 1
  {
    hide Inv, Alone, Contents, Step, Enabled, MemOk;
    HeadIs(s);
    LookSteps(s, t, max);
    OneStepAlone(s, t, max);
    var s1 := At(s, t, DNext(s.m.head));
    OneStepAlone(s1, t, max);
    var s2 := Step(s1, t, max);
    AloneConcat(s, t, max, 1, s1, 1, s2);
    n, r := 2, s2;
    InvMem(s);
    InvMem(s2);
    SameContents(s, s2);
    if Contents(s) != [] {
      var k, u := RemovesAlone(s2, t, max);
      AloneConcat(s, t, max, 2, s2, k, u);
      n, r := 2 + k, u;
    }
  }

  lemma RemovesAlone(s: State, t: nat, max: int) returns (n: nat, r: State)
    requires Inv(s) && t in s.pcs && s.pcs[t] == DRead(s.m.head) && Contents(s) != []
    ensures Inv(r) && Inv(s) && Alone(s, t, max, n, r) && t in r.pcs && r.pcs[t] == DDone(Some(Contents(s)[0]))
    ensures Contents(r) == Contents(s)[1..] && r.m.size == s.m.size - 1
  {
    hide Inv, Alone, Contents;
    HeadIs(s);
    OneStepAlone(s, t, max);
    StepContents(s, t, max);
    var s1 := Step(s, t, max);
    OneStepAlone(s1, t, max);
    StepContents(s1, t, max);
    var s2 := Step(s1, t, max);
    OneStepAlone(s2, t, max);
    StepContents(s2, t, max);
    var s3 := Step(s2, t, max);
    OneStepAlone(s3, t, max);
    StepContents(s3, t, max);
    r := Step(s3, t, max);
    n := 4;
    AloneConcat(s, t, max, 1, s1, 1, s2);
    AloneConcat(s, t, max, 2, s2, 1, s3);
    AloneConcat(s, t, max, 3, s3, 1, r);
  }
}
