/** The specification of a whole workload set: each workload executed atomically, one after the other. */
module AtomicExecution {
  import opened Words
  import opened Soc
  import opened Tasks
  import opened Layout
  import opened MemoryModel
  import opened Refinement

  /** Steps 0 to n - 1, one after the other. */
  function Iterate<T>(step: (nat, T) -> T, n: nat, x: T): T {
    if n == 0 then x else step(n - 1, Iterate(step, n - 1, x))
  }

  lemma {:induction false} IterateInduction<T(!new)>(step: (nat, T) -> T, n: nat, x: T, good: (nat, T) -> bool)
    requires good(0, x)
    requires forall i: nat, y: T :: i < n && good(i, y) ==> good(i + 1, step(i, y))
    ensures good(n, Iterate(step, n, x))
    decreases n
  {
    if n != 0 {
      IterateInduction(step, n - 1, x, good);
    }
  }

  /** The same steps below `n` give the same result. */
  lemma {:induction false} IterateSame<T(!new)>(f: (nat, T) -> T, g: (nat, T) -> T, n: nat, x: T)
    requires forall i: nat, y: T :: i < n ==> f(i, y) == g(i, y)
    ensures Iterate(f, n, x) == Iterate(g, n, x)
    decreases n
  {
    if n != 0 {
      IterateSame(f, g, n - 1, x);
    }
  }

  /** Two iterations that are related once stay related if every later step keeps them so. */
  lemma {:induction false} IterateRelated<T(!new)>(f: (nat, T) -> T, g: (nat, T) -> T, i: nat, n: nat, x: T,
                                                   related: (T, T) -> bool)
    requires i <= n && related(Iterate(f, i, x), Iterate(g, i, x))
    requires forall k: nat, a: T, b: T :: i <= k < n && related(a, b) ==> related(f(k, a), g(k, b))
    ensures related(Iterate(f, n, x), Iterate(g, n, x))
    decreases n
  {
    if i < n {
      IterateRelated(f, g, i, n - 1, x, related);
    }
  }

  /** Workload `i`, if chosen, executed in one step by the reference model. (Every recorded workload is
      accepted.) */
  function AtomicStep(ws: seq<Workload>, chosen: set<nat>): (nat, Memory) -> Memory {
    (i: nat, m: Memory) =>
      if i < |ws| && i in chosen && Accepted(ws[i]) then WriteBytes(m, ws[i].destination, Reference(ws[i], m)) else m
  }

  /** The chosen ones among the first `n` workloads, each executed atomically, in submission order. */
  function AtomicPrefix(ws: seq<Workload>, chosen: set<nat>, n: nat, m: Memory): Memory {
    Iterate(AtomicStep(ws, chosen), n, m)
  }

  /** The chosen workloads of a set, each executed atomically, in submission order. */
  function Atomically(ws: seq<Workload>, chosen: set<nat>, m: Memory): Memory {
    AtomicPrefix(ws, chosen, |ws|, m)
  }

  /** Only the first workloads matter to a prefix. */
  lemma PrefixOfMore(ws: seq<Workload>, ws': seq<Workload>, chosen: set<nat>, chosen': set<nat>, n: nat, m: Memory)
    requires n <= |ws| && n <= |ws'|
    requires forall i: nat :: i < n ==> ws'[i] == ws[i] && (i in chosen' <==> i in chosen)
    ensures AtomicPrefix(ws', chosen', n, m) == AtomicPrefix(ws, chosen, n, m)
  {
    IterateSame(AtomicStep(ws', chosen'), AtomicStep(ws, chosen), n, m);
  }

  /** A workload that is not chosen is skipped. */
  lemma PrefixSkips(ws: seq<Workload>, chosen: set<nat>, n: nat, m: Memory)
    requires n !in chosen
    ensures AtomicPrefix(ws, chosen, n + 1, m) == AtomicPrefix(ws, chosen, n, m)
  {
  }

  lemma {:induction false} NothingChosen(ws: seq<Workload>, n: nat, m: Memory)
    ensures AtomicPrefix(ws, {}, n, m) == m
  {
    if n != 0 {
      NothingChosen(ws, n - 1, m);
    }
  }

  // ---- One more workload ----

  /** The first memory is the second one with the destination of `w` holding the reference result over `source`. */
  ghost predicate Replaced(w: Workload, source: Memory, m: Memory, m': Memory)
    requires Accepted(w)
  {
    forall a: nat :: m'(a) == if Inhabits(a, ResultSpan(w)) then Reference(w, source)[a - w.destination] else m(a)
  }

  /** Every later workload that is chosen avoids the destination of workload `i`. */
  predicate AvoidedLater(ws: seq<Workload>, chosen: set<nat>, i: nat)
    requires i < |ws|
  {
    forall k: nat :: i < k < |ws| && k in chosen ==> Avoids(ws[k], ResultSpan(ws[i]))
  }

  lemma ReplacedBytes(w: Workload, source: Memory, m: Memory, m': Memory, address: nat, n: nat)
    requires Accepted(w) && Replaced(w, source, m, m')
    requires Disjoint(address, n, ResultSpan(w).start, ResultSpan(w).size)
    ensures SameBytes(m, m', address, n)
  {
  }

  /** Executing a workload that avoids the destination keeps the replacement. */
  lemma ReplacedStep(w: Workload, source: Memory, v: Workload, m: Memory, m': Memory)
    requires Accepted(w) && Accepted(v) && Avoids(v, ResultSpan(w)) && Replaced(w, source, m, m')
    ensures Replaced(w, source, WriteBytes(m, v.destination, Reference(v, m)),
                     WriteBytes(m', v.destination, Reference(v, m')))
  {
    ReplacedBytes(w, source, m, m', v.source0, LeftBytes(v));
    ReplacedBytes(w, source, m, m', v.source1, RightBytes(v));
    ReferenceOf(v, m, m');
  }

  lemma NextReplaced(ws: seq<Workload>, chosen: set<nat>, i: nat, k: nat, source: Memory, m: Memory, m': Memory)
    requires i < k < |ws| && Accepted(ws[i]) && AvoidedLater(ws, chosen, i) && Replaced(ws[i], source, m, m')
    ensures Replaced(ws[i], source, AtomicStep(ws, chosen)(k, m), AtomicStep(ws, chosen + {i})(k, m'))
  {
    if k in chosen && Accepted(ws[k]) {
      ReplacedStep(ws[i], source, ws[k], m, m');
    }
  }

  lemma FirstReplaced(ws: seq<Workload>, chosen: set<nat>, i: nat, m: Memory)
    requires i < |ws| && i !in chosen && Accepted(ws[i])
    ensures Replaced(ws[i], m, AtomicStep(ws, chosen)(i, m), AtomicStep(ws, chosen + {i})(i, m))
  {
    WritingReplaces(ws[i], m);
  }

  lemma WritingReplaces(w: Workload, m: Memory)
    requires Accepted(w)
    ensures Replaced(w, m, m, WriteBytes(m, w.destination, Reference(w, m)))
  {
    assert |Reference(w, m)| == ResultBytes(w);
  }

  /** Choosing one more workload changes its destination and nothing else, if the later ones avoid it. */
  lemma ChoosingOneMore(ws: seq<Workload>, chosen: set<nat>, i: nat, n: nat, m: Memory)
    requires i < n <= |ws| && i !in chosen && Accepted(ws[i]) && AvoidedLater(ws, chosen, i)
    ensures Replaced(ws[i], AtomicPrefix(ws, chosen, i, m), AtomicPrefix(ws, chosen, n, m),
                     AtomicPrefix(ws, chosen + {i}, n, m))
  {
    var f, g := AtomicStep(ws, chosen), AtomicStep(ws, chosen + {i});
    var source := AtomicPrefix(ws, chosen, i, m);
    ghost var related := (a: Memory, b: Memory) => Replaced(ws[i], source, a, b);
    ChoosingFirst(ws, chosen, i, m);
    forall k: nat, a: Memory, b: Memory | i < k < n && related(a, b)
      ensures related(f(k, a), g(k, b))
    {
      NextReplaced(ws, chosen, i, k, source, a, b);
    }
    IterateRelated(f, g, i + 1, n, m, related);
  }

  lemma ChoosingFirst(ws: seq<Workload>, chosen: set<nat>, i: nat, m: Memory)
    requires i < |ws| && i !in chosen && Accepted(ws[i])
    ensures Replaced(ws[i], AtomicPrefix(ws, chosen, i, m), AtomicPrefix(ws, chosen, i + 1, m),
                     AtomicPrefix(ws, chosen + {i}, i + 1, m))
  {
    PrefixOfMore(ws, ws, chosen, chosen + {i}, i, m);
    FirstReplaced(ws, chosen, i, AtomicPrefix(ws, chosen, i, m));
  }

  // ---- Isolated workloads ----

  function Everyone(n: nat): (ids: set<nat>)
    ensures forall i: nat :: i in ids <==> i < n
  {
    if n == 0 then {} else Everyone(n - 1) + {n - 1}
  }

  /** The address belongs neither to the scratchpad nor to a destination. */
  predicate Foreign(ws: seq<Workload>, a: nat) {
    !Inhabits(a, SCRATCHPAD) && forall j :: 0 <= j < |ws| ==> !Inhabits(a, ResultSpan(ws[j]))
  }

  ghost predicate ForeignKept(ws: seq<Workload>, m0: Memory, m: Memory) {
    forall a: nat :: Foreign(ws, a) ==> m(a) == m0(a)
  }

  /** The destination of the workload holds the reference result of the sources in `m0`. */
  predicate Written(w: Workload, m0: Memory, m: Memory)
    requires Accepted(w)
  {
    ReadBytes(m, w.destination, ResultBytes(w)) == Reference(w, m0)
  }

  /** The destination has its original bytes. */
  predicate Unwritten(w: Workload, m0: Memory, m: Memory) {
    SameBytes(m0, m, w.destination, ResultBytes(w))
  }

  /** The address belongs to none of the chosen destinations among the first `n`. */
  predicate Outside(ws: seq<Workload>, chosen: set<nat>, n: nat, a: nat)
    requires n <= |ws|
  {
    forall j: nat :: j < n && j in chosen ==> !Inhabits(a, ResultSpan(ws[j]))
  }

  ghost predicate OutsideKept(ws: seq<Workload>, chosen: set<nat>, n: nat, m0: Memory, m: Memory)
    requires n <= |ws|
  {
    forall a: nat :: Outside(ws, chosen, n, a) ==> m(a) == m0(a)
  }

  predicate AllWritten(ws: seq<Workload>, chosen: set<nat>, n: nat, m0: Memory, m: Memory)
    requires n <= |ws| && forall i :: 0 <= i < |ws| ==> Accepted(ws[i])
  {
    forall i: nat :: i < n && i in chosen ==> Written(ws[i], m0, m)
  }

  /** The reference result depends only on the source bytes. */
  lemma ReferenceOf(w: Workload, m: Memory, m': Memory)
    requires Accepted(w)
    requires SameBytes(m, m', w.source0, LeftBytes(w)) && SameBytes(m, m', w.source1, RightBytes(w))
    ensures Reference(w, m') == Reference(w, m)
  {
  }

  /** A range that avoids the first `n` destinations still has its original bytes. */
  lemma OriginalBytes(ws: seq<Workload>, chosen: set<nat>, n: nat, m0: Memory, m: Memory, address: nat, size: nat)
    requires n <= |ws| && OutsideKept(ws, chosen, n, m0, m)
    requires forall j :: 0 <= j < n ==> Disjoint(address, size, ResultSpan(ws[j]).start, ResultSpan(ws[j]).size)
    ensures SameBytes(m0, m, address, size)
  {
    forall k | address <= k < address + size
      ensures Outside(ws, chosen, n, k) && m(k) == m0(k)
    {
      forall j | 0 <= j < n
        ensures !Inhabits(k, ResultSpan(ws[j]))
      {
        assert Disjoint(address, size, ResultSpan(ws[j]).start, ResultSpan(ws[j]).size);
      }
    }
  }

  /** The next workload still sees its original sources. */
  lemma NextReference(ws: seq<Workload>, chosen: set<nat>, n: nat, m0: Memory, m: Memory)
    requires Isolated(ws) && n < |ws| && OutsideKept(ws, chosen, n, m0, m)
    ensures Reference(ws[n], m) == Reference(ws[n], m0)
  {
    var w := ws[n];
    forall j | 0 <= j < n
      ensures Avoids(w, ResultSpan(ws[j]))
    {
    }
    OriginalBytes(ws, chosen, n, m0, m, w.source0, LeftBytes(w));
    OriginalBytes(ws, chosen, n, m0, m, w.source1, RightBytes(w));
    ReferenceOf(w, m0, m);
  }

  lemma WrittenFrame(w: Workload, m0: Memory, m: Memory, m': Memory, span: Span)
    requires Accepted(w) && Written(w, m0, m) && AgreeOutside(m, m', span) && Avoids(w, span)
    ensures Written(w, m0, m')
  {
    ReadFrame(m, m', span, w.destination, ResultBytes(w));
  }

  /** After the first `n` workloads: the chosen destinations hold their results, all else is original. */
  ghost predicate Good(ws: seq<Workload>, chosen: set<nat>, n: nat, m0: Memory, m: Memory)
    requires Isolated(ws) && n <= |ws|
  {
    AllWritten(ws, chosen, n, m0, m) && OutsideKept(ws, chosen, n, m0, m)
  }

  lemma WriteAdvances(ws: seq<Workload>, chosen: set<nat>, n: nat, m0: Memory, m: Memory, m': Memory, data: seq<Byte>)
    requires Isolated(ws) && n < |ws| && n in chosen && Good(ws, chosen, n, m0, m)
    requires data == Reference(ws[n], m0) && m' == WriteBytes(m, ws[n].destination, data)
    ensures Good(ws, chosen, n + 1, m0, m')
  {
    var span := ResultSpan(ws[n]);
    WriteAgrees(m, ws[n].destination, data);
    ReadWritten(m, ws[n].destination, data);
    forall i: nat | i < n && i in chosen
      ensures Written(ws[i], m0, m')
    {
      WrittenFrame(ws[i], m0, m, m', span);
    }
    forall a: nat | Outside(ws, chosen, n + 1, a)
      ensures m'(a) == m0(a)
    {
      assert !Inhabits(a, span);
      assert Outside(ws, chosen, n, a);
    }
  }

  lemma SkippingIsGood(ws: seq<Workload>, chosen: set<nat>, n: nat, m0: Memory, m: Memory)
    requires Isolated(ws) && n < |ws| && n !in chosen && Good(ws, chosen, n, m0, m)
    ensures Good(ws, chosen, n + 1, m0, m)
  {
    forall a: nat | Outside(ws, chosen, n + 1, a)
      ensures m(a) == m0(a)
    {
      assert Outside(ws, chosen, n, a);
    }
  }

  lemma AtomicStepAdvances(ws: seq<Workload>, chosen: set<nat>, n: nat, m0: Memory, m: Memory)
    requires Isolated(ws) && n < |ws| && Good(ws, chosen, n, m0, m)
    ensures Good(ws, chosen, n + 1, m0, AtomicStep(ws, chosen)(n, m))
  {
    if n in chosen {
      NextReference(ws, chosen, n, m0, m);
      WriteAdvances(ws, chosen, n, m0, m, AtomicStep(ws, chosen)(n, m), Reference(ws[n], m0));
    } else {
      SkippingIsGood(ws, chosen, n, m0, m);
    }
  }

  /** Atomic execution of isolated workloads gives each chosen destination the reference result of the
      original sources and changes nothing else. */
  lemma AtomicResults(ws: seq<Workload>, chosen: set<nat>, m0: Memory)
    requires Isolated(ws)
    ensures Good(ws, chosen, |ws|, m0, Atomically(ws, chosen, m0))
  {
    var good := (i: nat, m: Memory) => i <= |ws| && Good(ws, chosen, i, m0, m);
    forall i: nat, m: Memory | i < |ws| && good(i, m)
      ensures good(i + 1, AtomicStep(ws, chosen)(i, m))
    {
      AtomicStepAdvances(ws, chosen, i, m0, m);
    }
    IterateInduction(AtomicStep(ws, chosen), |ws|, m0, good);
  }

  /** Destinations of different workloads share no address. */
  lemma DestinationsApart(ws: seq<Workload>, i: nat, j: nat, a: nat)
    requires Isolated(ws) && i < |ws| && j < |ws| && i != j && Inhabits(a, ResultSpan(ws[j]))
    ensures !Inhabits(a, ResultSpan(ws[i]))
  {
    assert Avoids(ws[i], ResultSpan(ws[j]));
  }

  /** Atomic execution of the chosen workloads does not touch the destination of another one. */
  lemma OriginalElsewhere(ws: seq<Workload>, chosen: set<nat>, j: nat, m0: Memory, atomic: Memory, a: nat)
    requires Isolated(ws) && j < |ws| && j !in chosen && Inhabits(a, ResultSpan(ws[j]))
    requires Good(ws, chosen, |ws|, m0, atomic)
    ensures atomic(a) == m0(a)
  {
    forall i: nat | i < |ws| && i in chosen
      ensures !Inhabits(a, ResultSpan(ws[i]))
    {
      DestinationsApart(ws, i, j, a);
    }
    assert Outside(ws, chosen, |ws|, a);
  }
}
