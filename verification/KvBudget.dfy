/** When the documents a filter keeps live fit its KV budget.

    `FilterDocumentCap` bounds how many documents are live, not how much KV they need.  The results
    here say exactly when every state the scheduler can reach fits: when the largest requests do. */
module KvBudget {
  import opened Common
  import opened Prompts
  import opened Requests
  import opened EngineLog
  import opened DocumentCaps
  import opened FilterTask
  import opened FilterLog

  function SizeOf(sizes: seq<nat>, d: nat): nat {
    if d < |sizes| then sizes[d] else 0
  }

  /** The KV of some documents' requests. */
  ghost function Kv(sizes: seq<nat>, documents: set<nat>): nat
  {
    if documents == {} then
      0
    else
      var d :| d in documents;
      SizeOf(sizes, d) + Kv(sizes, documents - {d})
  }

  lemma {:induction false} KvWithout(sizes: seq<nat>, documents: set<nat>, d: nat)
    requires d in documents
    ensures Kv(sizes, documents) == SizeOf(sizes, d) + Kv(sizes, documents - {d})
  {
    var e :| e in documents && Kv(sizes, documents) == SizeOf(sizes, e) + Kv(sizes, documents - {e});
    if e != d {
      KvWithout(sizes, documents - {e}, d);
      KvWithout(sizes, documents - {d}, e);
      assert documents - {e} - {d} == documents - {d} - {e};
    }
  }

  /** A largest document. */
  ghost predicate IsLargest(sizes: seq<nat>, documents: set<nat>, m: nat)
  {
    m in documents && forall d :: d in documents ==> SizeOf(sizes, d) <= SizeOf(sizes, m)
  }

  lemma {:induction false} LargestExists(sizes: seq<nat>, documents: set<nat>) returns (m: nat)
    requires documents != {}
    ensures IsLargest(sizes, documents, m)
  {
    var d: nat := AnyMember(documents);
    m := d;
    if documents - {d} != {} {
      var rest := LargestExists(sizes, documents - {d});
      m := if SizeOf(sizes, rest) > SizeOf(sizes, d) then rest else d;
    }
    forall e | e in documents ensures SizeOf(sizes, e) <= SizeOf(sizes, m) {
      assert e == d || e in documents - {d};
    }
  }

  ghost function LargestOf(sizes: seq<nat>, documents: set<nat>): (m: nat)
    requires documents != {}
    ensures IsLargest(sizes, documents, m)
  {
    assert exists m :: IsLargest(sizes, documents, m) by {
      var m := LargestExists(sizes, documents);
    }
    var m :| IsLargest(sizes, documents, m);
    m
  }

  /** The k documents with the largest requests, or all when there are no more than k. */
  ghost function Largest(sizes: seq<nat>, documents: set<nat>, k: nat): set<nat> {
    if documents == {} || k == 0 then
      {}
    else
      var m := LargestOf(sizes, documents);
      {m} + Largest(sizes, documents - {m}, k - 1)
  }

  lemma {:induction false} LargestWithin(sizes: seq<nat>, documents: set<nat>, k: nat)
    ensures Largest(sizes, documents, k) <= documents && |Largest(sizes, documents, k)| <= k
  {
    if documents != {} && k > 0 {
      LargestWithin(sizes, documents - {LargestOf(sizes, documents)}, k - 1);
    }
  }

  /** Some member needs no more than the largest document, and the others are not that document. */
  lemma Exchanged(sizes: seq<nat>, documents: set<nat>, some: set<nat>) returns (x: nat)
    requires some <= documents && some != {}
    ensures x in some && |some - {x}| == |some| - 1 && some - {x} <= documents - {LargestOf(sizes, documents)}
    ensures Kv(sizes, some) <= SizeOf(sizes, LargestOf(sizes, documents)) + Kv(sizes, some - {x})
  {
    var m := LargestOf(sizes, documents);
    x := m;
    if m !in some {
      x := AnyMember(some);
    }
    KvWithout(sizes, some, x);
  }

  lemma LargestWithout(sizes: seq<nat>, documents: set<nat>, k: nat)
    requires documents != {} && k > 0
    ensures Kv(sizes, Largest(sizes, documents, k))
      == SizeOf(sizes, LargestOf(sizes, documents))
         + Kv(sizes, Largest(sizes, documents - {LargestOf(sizes, documents)}, k - 1))
  {
    var m := LargestOf(sizes, documents);
    var rest := Largest(sizes, documents - {m}, k - 1);
    LargestWithin(sizes, documents - {m}, k - 1);
    KvWithout(sizes, {m} + rest, m);
    assert {m} + rest - {m} == rest;
  }

  /** No k documents need more. */
  lemma {:induction false} LargestNeedMost(sizes: seq<nat>, documents: set<nat>, k: nat, some: set<nat>)
    requires some <= documents && |some| <= k
    ensures Kv(sizes, some) <= Kv(sizes, Largest(sizes, documents, k))
    decreases k
  {
    if some != {} {
      var x := Exchanged(sizes, documents, some);
      LargestNeedMost(sizes, documents - {LargestOf(sizes, documents)}, k - 1, some - {x});
      LargestWithout(sizes, documents, k);
    }
  }

  function Below(n: nat): (r: set<nat>)
    ensures forall d: nat :: d in r <==> d < n
  {
    if n == 0 then {} else Below(n - 1) + {n - 1}
  }

  /** A live document can be settled without touching the others. */
  lemma {:induction false} SettleOne(task: Task, cap: nat, p: Progress, d: nat) returns (q: Progress)
    requires |task.questions| > 0 && Reachable(task, cap, p) && d in p.inflight
    ensures Reachable(task, cap, q) && q.next == p.next && q.inflight.Keys == p.inflight.Keys - {d}
    decreases |Unanswered(task, p)|
  {
    ReachableInv(task, cap, p);
    StepReachable(task, cap, p, Complete(d));
    CompletionDecreases(task, cap, p, d);
    q := Step(task, cap, p, Complete(d));
    if d in q.inflight {
      assert q.inflight.Keys == p.inflight.Keys;
      q := SettleOne(task, cap, q, d);
    } else {
      assert q.inflight.Keys == p.inflight.Keys - {d};
    }
  }

  lemma AdmitOne(task: Task, cap: nat, p: Progress) returns (q: Progress)
    requires |task.questions| > 0 && Reachable(task, cap, p) && Enabled(task, cap, p, Admit)
    ensures Reachable(task, cap, q) && q.next == p.next + 1 && q.inflight.Keys == p.inflight.Keys + {p.next}
  {
    StepReachable(task, cap, p, Admit);
    q := Step(task, cap, p, Admit);
  }

  /** Admit the next document, and settle it at once unless it is to stay live. */
  lemma Pass(task: Task, cap: nat, p: Progress, live: set<nat>) returns (q: Progress)
    requires |task.questions| > 0 && Reachable(task, cap, p) && Enabled(task, cap, p, Admit)
    requires p.inflight.Keys == live * Below(p.next)
    ensures Reachable(task, cap, q) && q.next == p.next + 1 && q.inflight.Keys == live * Below(q.next)
  {
    q := AdmitOne(task, cap, p);
    if p.next !in live {
      q := SettleOne(task, cap, q, p.next);
    }
  }

  /** Any documents within the cap can be the live ones: the others are settled as they arrive. */
  lemma {:induction false} LiveTogether(task: Task, cap: nat, live: set<nat>, n: nat) returns (p: Progress)
    requires |task.questions| > 0 && n <= |task.bodies| && |live| <= cap
    requires n > 0 ==> exists last :: last in live && last >= n - 1
    ensures Reachable(task, cap, p) && p.next == n && p.inflight.Keys == live * Below(n)
  {
    if n == 0 {
      StartReachable(task, cap);
      p := START;
      assert p.inflight.Keys == {};
    } else {
      p := LiveTogether(task, cap, live, n - 1);
      var last :| last in live && last >= n - 1;
      assert p.inflight.Keys <= live - {last};
      SubsetSize(p.inflight.Keys, live - {last});
      p := Pass(task, cap, p, live);
    }
  }

  /** The documents are the live ones of some reachable state. */
  lemma LiveReachable(task: Task, cap: nat, live: set<nat>) returns (p: Progress)
    requires |task.questions| > 0 && |live| <= cap && live <= Below(|task.bodies|)
    ensures Reachable(task, cap, p) && p.inflight.Keys == live
  {
    var n: nat := 0;
    if live != {} {
      var last := Highest(live);
      n := last + 1;
    }
    p := LiveTogether(task, cap, live, n);
    assert live * Below(n) == live;
  }

  lemma {:induction false} Highest(s: set<nat>) returns (m: nat)
    requires s != {}
    ensures m in s && forall d :: d in s ==> d <= m
  {
    var first: nat := AnyMember(s);
    m := first;
    if s - {first} != {} {
      var rest := Highest(s - {first});
      m := Max(rest, first);
    }
    forall d | d in s ensures d <= m {
      assert d == first || d in s - {first};
    }
  }

  lemma LiveWithinCap(task: Task, cap: nat, p: Progress)
    requires |task.questions| > 0 && Reachable(task, cap, p)
    ensures |p.inflight.Keys| <= cap && p.inflight.Keys <= Below(|task.bodies|)
  {
    ReachableInv(task, cap, p);
  }

  /** No reachable state needs more KV than B. */
  ghost predicate AlwaysFits(task: Task, cap: nat, sizes: seq<nat>, B: int)
  {
    forall p {:trigger Reachable(task, cap, p)} :: Reachable(task, cap, p) ==>
      Kv(sizes, p.inflight.Keys) <= B
  }

  /** The exact condition: the cap largest requests fit. */
  lemma FitsIffLargestFit(task: Task, cap: nat, sizes: seq<nat>, B: int)
    requires |sizes| == |task.bodies| && |task.questions| > 0
    ensures AlwaysFits(task, cap, sizes, B) <==> Kv(sizes, Largest(sizes, Below(|sizes|), cap)) <= B
  {
    var largest := Largest(sizes, Below(|sizes|), cap);
    LargestWithin(sizes, Below(|sizes|), cap);
    var top := LiveReachable(task, cap, largest);
    if Kv(sizes, largest) <= B {
      forall p | Reachable(task, cap, p)
        ensures Kv(sizes, p.inflight.Keys) <= B
      {
        LiveWithinCap(task, cap, p);
        LargestNeedMost(sizes, Below(|sizes|), cap, p.inflight.Keys);
      }
    }
  }

  lemma {:induction false} KvOfEqual(sizes: seq<nat>, documents: set<nat>, size: nat)
    requires forall d :: d in documents ==> SizeOf(sizes, d) == size
    ensures Kv(sizes, documents) == |documents| * size
  {
    if documents != {} {
      var d: nat := AnyMember(documents);
      KvWithout(sizes, documents, d);
      KvOfEqual(sizes, documents - {d}, size);
      assert (|documents| - 1) * size == |documents| * size - size;
    }
  }

  /** Documents of one rounded size fit, unless a single one is already too large. */
  lemma EqualSizesFit(task: Task, budget: int, block: nat, maxSeqs: Option<nat>, size: nat)
    requires block >= 1 && |task.questions| > 0
    requires forall i :: 0 <= i < |task.bodies| ==> RequestSizes(task.bodies, task.questions, block)[i] == size
    ensures AlwaysFits(task, FilterDocumentCap(task.bodies, task.questions, budget, block, maxSeqs),
                       RequestSizes(task.bodies, task.questions, block), Max(budget, size))
  {
    var cap := FilterDocumentCap(task.bodies, task.questions, budget, block, maxSeqs);
    var sizes := RequestSizes(task.bodies, task.questions, block);
    var largest := Largest(sizes, Below(|sizes|), cap);
    LargestWithin(sizes, Below(|sizes|), cap);
    KvOfEqual(sizes, largest, size);
    LiveDocumentsFit(task.bodies, task.questions, budget, block, maxSeqs, size, |largest|);
    FitsIffLargestFit(task, cap, sizes, Max(budget, size));
  }

  /** In every state of a run the live documents, which include those with a request in flight, need no more than the
      cap largest. */
  lemma RunNeeds(x: Filtering, sizes: seq<nat>, log: Log, k: nat)
    requires Orderly(x, log) && k <= |log| && |sizes| == |x.task.bodies|
    ensures Kv(sizes, LiveIn(x, log[..k])) <= Kv(sizes, Largest(sizes, Below(|sizes|), x.cap))
    ensures forall id :: id in FlyingIn(x, log[..k]) ==> DocumentOf(id) in LiveIn(x, log[..k])
  {
    var now := log[..k];
    OrderlyPrefix(x, log, k);
    LiveBounded(x, now);
    LargestNeedMost(sizes, Below(|sizes|), x.cap, LiveIn(x, now));
    OrderlyStages(x, now);
    forall id | id in FlyingIn(x, now) ensures DocumentOf(id) in LiveIn(x, now) {
      FlyingLive(x, now, id);
    }
  }

  /** Over a whole run: documents of one rounded size fit in every state, unless a single one is already too large. */
  lemma RunFits(task: Task, budget: int, block: nat, maxSeqs: Option<nat>, retries: bool, size: nat, log: Log, k: nat)
    requires block >= 1 && k <= |log|
    requires Orderly(Filtering(task, FilterDocumentCap(task.bodies, task.questions, budget, block, maxSeqs), retries), log)
    requires forall i :: 0 <= i < |task.bodies| ==> RequestSizes(task.bodies, task.questions, block)[i] == size
    ensures var x := Filtering(task, FilterDocumentCap(task.bodies, task.questions, budget, block, maxSeqs), retries);
      Kv(RequestSizes(task.bodies, task.questions, block), LiveIn(x, log[..k])) <= Max(budget, size)
  {
    var x := Filtering(task, FilterDocumentCap(task.bodies, task.questions, budget, block, maxSeqs), retries);
    var live := LiveIn(x, log[..k]);
    OrderlyPrefix(x, log, k);
    LiveBounded(x, log[..k]);
    KvOfEqual(RequestSizes(task.bodies, task.questions, block), live, size);
    LiveDocumentsFit(task.bodies, task.questions, budget, block, maxSeqs, size, |live|);
  }

  /** The cap divides by the mean, so documents of unequal size can exceed the budget: with bodies of
      0, 0 and 9 tokens it admits two at a time, and the last two, live together, need 11 tokens of 8. */
  lemma UnequalDocumentsExceed(truth: Prompt -> bool) returns (p: Progress)
    ensures
      var task := Task([[], [], [0, 0, 0, 0, 0, 0, 0, 0, 0]], [[]], truth);
      && Reachable(task, FilterDocumentCap(task.bodies, task.questions, 8, 1, None), p)
      && p.inflight.Keys == {1, 2}
      && Kv(RequestSizes(task.bodies, task.questions, 1), p.inflight.Keys) == 11
  {
    var task := Task([[], [], [0, 0, 0, 0, 0, 0, 0, 0, 0]], [[]], truth);
    UnequalCap();
    p := LiveReachable(task, 2, {1, 2});
    KvOfTwo([1, 1, 10], 1, 2);
  }

  lemma KvOfTwo(sizes: seq<nat>, d: nat, e: nat)
    requires d != e
    ensures Kv(sizes, {d, e}) == SizeOf(sizes, d) + SizeOf(sizes, e)
  {
    KvWithout(sizes, {d, e}, d);
    assert {d, e} - {d} == {e};
    KvWithout(sizes, {e}, e);
    assert {e} - {e} == {};
  }
}
