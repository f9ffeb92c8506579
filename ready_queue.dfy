/** The ready queue's ordering policy. The queue is a sequence read from
    the back: selection always takes the last element. FIFO and RR admit
    at the front, so the queue is a first-in-first-out line; SJF and EDF
    admit at the back and then re-sort the whole queue so that the
    smallest duration (deadline) sits at the back. */
module ReadyQueues {
  import opened Processes

  datatype Algorithm = FIFO | SJF | RR | EDF {
    /** RR and EDF take the slot away when the quantum runs out. */
    predicate Preemptive() {
      this == RR || this == EDF
    }

    /** FIFO and RR put newly ready processes at the front of the queue. */
    predicate AdmitsAtFront() {
      this == FIFO || this == RR
    }
  }

  /** The numeric field a sort compares. */
  datatype SortKey = ByStart | ByDuration | ByDeadline

  function Key(p: Process, k: SortKey): int {
    match k
    case ByStart => p.start
    case ByDuration => p.duration
    case ByDeadline => p.deadline
  }

  /** Non-increasing in `k`: every key is at least the next one, so the
      smallest key is at the back. */
  predicate Descending(s: seq<Process>, k: SortKey) {
    |s| < 2 || (Key(s[0], k) >= Key(s[1], k) && Descending(s[1..], k))
  }

  /** Non-decreasing in `k`. */
  predicate Ascending(s: seq<Process>, k: SortKey) {
    |s| < 2 || (Key(s[0], k) <= Key(s[1], k) && Ascending(s[1..], k))
  }

  /** `Descending` compares every pair, not just neighbours. */
  lemma {:induction false} DescendingPairs(s: seq<Process>, k: SortKey)
    requires Descending(s, k)
    ensures forall i, j :: 0 <= i < j < |s| ==> Key(s[i], k) >= Key(s[j], k)
  {
    if |s| >= 2 {
      DescendingPairs(s[1..], k);
      forall i, j | 0 <= i < j < |s|
        ensures Key(s[i], k) >= Key(s[j], k)
      {
        if i > 0 {
          assert s[i] == s[1..][i - 1] && s[j] == s[1..][j - 1];
        } else if j > 1 {
          assert s[1] == s[1..][0] && s[j] == s[1..][j - 1];
        }
      }
    }
  }

  /** Both parts of a `Descending` sequence are `Descending`. */
  lemma {:induction false} SplitDescending(whole: seq<Process>, front: seq<Process>,
                                           back: seq<Process>, k: SortKey)
    requires Descending(whole, k) && whole == front + back
    ensures Descending(front, k) && Descending(back, k)
  {
    if front == [] {
      assert whole == back;
    } else {
      assert whole[1..] == front[1..] + back;
      SplitDescending(whole[1..], front[1..], back, k);
      if |front| >= 2 {
        assert front[0] == whole[0] && front[1] == whole[1];
      }
    }
  }

  function Last(s: seq<Process>): Process
    requires s != []
  {
    s[|s| - 1]
  }

  function DropLast(s: seq<Process>): seq<Process>
    requires s != []
  {
    s[..|s| - 1]
  }

  /** Places `x` before the first element whose key is strictly smaller,
      so that it follows every element with an equal key. */
  function Insert(s: seq<Process>, x: Process, k: SortKey): (r: seq<Process>)
    requires Descending(s, k)
    ensures Descending(r, k)
    ensures |r| == |s| + 1
    ensures r[0] == x || (s != [] && r[0] == s[0])
  {
    if s == [] || Key(s[0], k) < Key(x, k) then
      [x] + s
    else
      var rest := Insert(s[1..], x, k);
      assert s == [s[0]] + s[1..];
      assert ([s[0]] + rest)[1..] == rest;
      [s[0]] + rest
  }

  /** The comparator sort `(a, b) => key(b) - key(a)`: a stable sort into
      non-increasing key order, as Array.prototype.sort is required to be
      since ECMAScript 2019. Elements are inserted in their original order,
      so equal keys keep their relative order. */
  function SortDescending(s: seq<Process>, k: SortKey): (r: seq<Process>)
    ensures Descending(r, k)
    ensures |r| == |s|
  {
    if s == [] then [] else Insert(SortDescending(DropLast(s), k), Last(s), k)
  }

  lemma {:induction false} InsertKeepsMembers(s: seq<Process>, x: Process, k: SortKey)
    requires Descending(s, k)
    ensures multiset(Insert(s, x, k)) == multiset(s) + multiset{x}
  {
    if s != [] && Key(s[0], k) >= Key(x, k) {
      InsertKeepsMembers(s[1..], x, k);
      assert s == [s[0]] + s[1..];
    }
  }

  /** The sort rearranges: no element is lost or duplicated. */
  lemma {:induction false} SortKeepsMembers(s: seq<Process>, k: SortKey)
    ensures multiset(SortDescending(s, k)) == multiset(s)
  {
    if s != [] {
      SortKeepsMembers(DropLast(s), k);
      InsertKeepsMembers(SortDescending(DropLast(s), k), Last(s), k);
      assert s == DropLast(s) + [Last(s)];
    }
  }

  /** The ready-queue ordering each algorithm keeps. */
  predicate Ordered(q: seq<Process>, alg: Algorithm) {
    match alg
    case SJF => Descending(q, ByDuration)
    case EDF => Descending(q, ByDeadline)
    case _ => true
  }

  /** `_syncReadyQueue`: re-sort for SJF and EDF, leave FIFO and RR alone. */
  function Arrange(q: seq<Process>, alg: Algorithm): (r: seq<Process>)
    ensures Ordered(r, alg)
    ensures !(alg == SJF || alg == EDF) ==> r == q
  {
    match alg
    case SJF => SortDescending(q, ByDuration)
    case EDF => SortDescending(q, ByDeadline)
    case _ => q
  }

  lemma ArrangeKeepsMembers(q: seq<Process>, alg: Algorithm)
    ensures multiset(Arrange(q, alg)) == multiset(q)
  {
    match alg
    case SJF => SortKeepsMembers(q, ByDuration);
    case EDF => SortKeepsMembers(q, ByDeadline);
    case _ =>
  }

  /** `_addToReadyQueue` on the queue alone. */
  function Admit(q: seq<Process>, p: Process, alg: Algorithm): seq<Process>
  {
    if alg.AdmitsAtFront() then [p] + q else q + [p]
  }

  /** Admitting `ps` one after the other. */
  function AdmitAll(q: seq<Process>, ps: seq<Process>, alg: Algorithm): seq<Process>
  {
    if ps == [] then q else Admit(AdmitAll(q, DropLast(ps), alg), Last(ps), alg)
  }

  lemma AdmitAllSnoc(q: seq<Process>, ps: seq<Process>, p: Process, alg: Algorithm)
    ensures AdmitAll(q, ps + [p], alg) == Admit(AdmitAll(q, ps, alg), p, alg)
  {
    assert DropLast(ps + [p]) == ps;
  }

  /** Admission neither loses nor duplicates a process. */
  lemma AdmitKeepsMembers(q: seq<Process>, p: Process, alg: Algorithm)
    ensures multiset(Admit(q, p, alg)) == multiset(q) + multiset{p}
  {
  }

  lemma {:induction false} AdmitAllKeepsMembers(q: seq<Process>, ps: seq<Process>, alg: Algorithm)
    ensures multiset(AdmitAll(q, ps, alg)) == multiset(q) + multiset(ps)
  {
    if ps != [] {
      AdmitAllKeepsMembers(q, DropLast(ps), alg);
      AdmitKeepsMembers(AdmitAll(q, DropLast(ps), alg), Last(ps), alg);
      assert ps == DropLast(ps) + [Last(ps)];
    }
  }

  /** The order in which repeated selection from the back takes elements out. */
  function DispatchOrder(q: seq<Process>): seq<Process>
  {
    if q == [] then [] else [Last(q)] + DispatchOrder(DropLast(q))
  }

  /** Selection from the back reverses the queue. */
  lemma {:induction false} DispatchOrderReverses(q: seq<Process>)
    ensures |DispatchOrder(q)| == |q|
    ensures forall i :: 0 <= i < |q| ==> DispatchOrder(q)[i] == q[|q| - 1 - i]
  {
    if q != [] {
      DispatchOrderReverses(DropLast(q));
    }
  }

  /** Selection takes every element out exactly once. */
  lemma {:induction false} DispatchOrderKeepsMembers(q: seq<Process>)
    ensures multiset(DispatchOrder(q)) == multiset(q)
  {
    if q != [] {
      DispatchOrderKeepsMembers(DropLast(q));
      assert q == DropLast(q) + [Last(q)];
    }
  }

  /** Selection from the back of a `Descending` queue yields ascending keys. */
  lemma {:induction false} DispatchOrderAscends(q: seq<Process>, k: SortKey)
    requires Descending(q, k)
    ensures Ascending(DispatchOrder(q), k)
  {
    if q != [] {
      SplitDescending(q, DropLast(q), [Last(q)], k);
      DispatchOrderAscends(DropLast(q), k);
      if |q| >= 2 {
        DescendingPairs(q, k);
        assert DispatchOrder(DropLast(q))[0] == Last(DropLast(q));
        assert Key(Last(q), k) <= Key(q[|q| - 2], k);
      }
    }
  }

  /** Popping the back of `job` onto the front of `due` keeps their concatenation. */
  lemma PopOnto(job: seq<Process>, due: seq<Process>)
    requires job != []
    ensures DropLast(job) + ([Last(job)] + due) == job + due
  {
    assert job == DropLast(job) + [Last(job)];
  }

  /** Splitting a queue sorted by descending start where the tail `due` is
      due at `clock` and the rest is not: the rest stays sorted and pending,
      and `due`, taken from the back, comes out due and by ascending start. */
  lemma DueTail(whole: seq<Process>, job: seq<Process>, due: seq<Process>, clock: int)
    requires Descending(whole, ByStart) && whole == job + due
    requires due != [] ==> due[0].start <= clock
    requires job == [] || Last(job).start > clock
    ensures Descending(job, ByStart)
    ensures forall p :: p in job ==> p.start > clock
    ensures multiset(job) + multiset(DispatchOrder(due)) == multiset(whole)
    ensures forall p :: p in DispatchOrder(due) ==> p.start <= clock
    ensures Ascending(DispatchOrder(due), ByStart)
  {
    SplitDescending(whole, job, due, ByStart);
    DispatchOrderKeepsMembers(due);
    DispatchOrderAscends(due, ByStart);
    DescendingPairs(job, ByStart);
    DescendingPairs(due, ByStart);
    forall p | p in DispatchOrder(due)
      ensures p.start <= clock
    {
      assert p in multiset(due);
    }
  }

  /** FIFO and RR: processes that become ready are selected after every
      process already waiting, and among themselves in admission order. */
  lemma {:induction false} AdmitAllKeepsArrivalOrder(q: seq<Process>, ps: seq<Process>, alg: Algorithm)
    requires alg.AdmitsAtFront()
    ensures DispatchOrder(AdmitAll(q, ps, alg)) == DispatchOrder(q) + ps
  {
    if ps != [] {
      var front := AdmitAll(q, DropLast(ps), alg);
      AdmitAllKeepsArrivalOrder(q, DropLast(ps), alg);
      FrontIsDispatchedLast(front, Last(ps));
      assert ps == DropLast(ps) + [Last(ps)];
    }
  }

  /** An element put at the front of a queue is the last to be selected. */
  lemma {:induction false} FrontIsDispatchedLast(q: seq<Process>, p: Process)
    ensures DispatchOrder([p] + q) == DispatchOrder(q) + [p]
    decreases |q|
  {
    if q == [] {
    } else {
      assert Last([p] + q) == Last(q);
      assert DropLast([p] + q) == [p] + DropLast(q);
      FrontIsDispatchedLast(DropLast(q), p);
    }
  }

  /** SJF and EDF admit at the back, in admission order, before the re-sort. */
  lemma {:induction false} AdmitAllAppends(q: seq<Process>, ps: seq<Process>, alg: Algorithm)
    requires !alg.AdmitsAtFront()
    ensures AdmitAll(q, ps, alg) == q + ps
  {
    if ps != [] {
      AdmitAllAppends(q, DropLast(ps), alg);
      assert ps == DropLast(ps) + [Last(ps)];
    }
  }

  /** In a queue kept in `Descending` order the element selected next has
      the smallest key of the whole queue. */
  lemma BackHasSmallestKey(q: seq<Process>, k: SortKey)
    requires Descending(q, k) && q != []
    ensures forall p :: p in q ==> Key(Last(q), k) <= Key(p, k)
  {
    DescendingPairs(q, k);
  }
}
