/** Backend selection (package balancer: algorithms.go, balancer.go, types.go):
    the pool of backends with their alive flags, the round-robin and
    least-connections strategies, the bounded retry of GetNextBackend and the 503
    decision of ServeHTTP. Health probing runs in goroutines and is reduced to the
    rule that a probe answered with status 200 means alive. */
module Balancer {
  import opened Options

  // ---------------------------------------------------------------------
  // Strategy names (types.go)

  const RoundRobinStrategy: string := "round-robin"
  const LeastConnectionsStrategy: string := "least-connections"

  datatype StrategyKind = RoundRobin | LeastConnections

  /** The strategy NewStrategy builds for a configured name: any name other than
      the two known ones falls back to round-robin. */
  function KindOf(strategyType: string): (k: StrategyKind)
    ensures k == LeastConnections <==> strategyType == LeastConnectionsStrategy
  {
    if strategyType == LeastConnectionsStrategy then LeastConnections else RoundRobin
  }

  /** Both known names select their own strategy; everything else selects
      round-robin. */
  lemma KindOfNames(strategyType: string)
    ensures KindOf(RoundRobinStrategy) == RoundRobin
    ensures KindOf(LeastConnectionsStrategy) == LeastConnections
    ensures strategyType != LeastConnectionsStrategy ==> KindOf(strategyType) == RoundRobin
  {
  }

  // ---------------------------------------------------------------------
  // Backends

  class Backend {
    const url: string
    var alive: bool

    /** A backend as NewLoadBalancer makes it: alive. */
    constructor (url: string)
      ensures this.url == url && alive
    {
      this.url := url;
      alive := true;
    }

    /** IsAlive: the flag as last set by the constructor or SetAlive. */
    function IsAlive(): (r: bool)
      reads this
      ensures r == alive
    {
      alive
    }

    method SetAlive(alive: bool)
      modifies this
      ensures IsAlive() == alive
    {
      this.alive := alive;
    }
  }

  /** The verdict of one health probe: alive exactly when the probe got an answer
      and its status was 200 (None stands for a request that failed). */
  function ProbeAlive(status: Option<int>): (alive: bool)
  {
    status == Some(200)
  }

  /** Records one probe's verdict on a backend. */
  method RecordProbe(backend: Backend, status: Option<int>)
    modifies backend
    ensures backend.IsAlive() <==> status.Some? && status.value == 200
  {
    backend.SetAlive(ProbeAlive(status));
  }

  /** The alive flags of the pool, in order. */
  function AliveFlags(backends: seq<Backend>): (flags: seq<bool>)
    reads backends
    ensures |flags| == |backends|
    ensures forall i :: 0 <= i < |backends| ==> flags[i] == backends[i].alive
  {
    if backends == [] then [] else [backends[0].alive] + AliveFlags(backends[1..])
  }

  // ---------------------------------------------------------------------
  // Least-connections: the first alive backend

  /** The lowest index whose flag is set, if any. */
  function FirstAlive(flags: seq<bool>): (r: Option<nat>)
    ensures r.Some? ==> r.value < |flags| && flags[r.value]
    ensures r.Some? ==> forall j :: 0 <= j < r.value ==> !flags[j]
    ensures r.None? ==> forall j :: 0 <= j < |flags| ==> !flags[j]
  {
    if flags == [] then None
    else if flags[0] then Some(0)
    else match FirstAlive(flags[1..])
         case Some(i) => Some(i + 1)
         case None => None
  }

  /** The pieces that characterise FirstAlive determine it. */
  lemma FirstAliveUnique(flags: seq<bool>, r: Option<nat>)
    requires r.Some? ==> r.value < |flags| && flags[r.value] && forall j :: 0 <= j < r.value ==> !flags[j]
    requires r.None? ==> forall j :: 0 <= j < |flags| ==> !flags[j]
    ensures r == FirstAlive(flags)
  {
  }

  /** The scan of LeastConnections.GetNextBackend: it walks the whole pool and
      keeps the first alive backend it meets. It reads the flags and changes
      nothing. */
  method LeastConnectionsScan(backends: seq<Backend>) returns (best: Option<nat>)
    ensures best == FirstAlive(AliveFlags(backends))
  {
    best := None;
    for i := 0 to |backends|
      invariant best.Some? ==> best.value < i && backends[best.value].alive
      invariant best.Some? ==> forall j :: 0 <= j < best.value ==> !backends[j].alive
      invariant best.None? ==> forall j :: 0 <= j < i ==> !backends[j].alive
    {
      if !backends[i].IsAlive() {
        continue;
      }
      if best == None {
        best := Some(i);
        continue;
      }
    }
    FirstAliveUnique(AliveFlags(backends), best);
  }

  // ---------------------------------------------------------------------
  // The strategies

  /** What a strategy hands back: a backend, nil, or the run-time panic of
      round-robin's index computation on an empty pool. */
  datatype Pick = Picked(index: nat) | Nil | DivideByZero

  /** One strategy call: the pick and the counter it leaves. */
  datatype Step = Step(pick: Pick, counter: nat)

  /** Round-robin increments its counter first and then takes it modulo the pool
      length; least-connections leaves the counter alone and picks the first
      alive backend. */
  function StrategyStep(kind: StrategyKind, counter: nat, flags: seq<bool>): (r: Step)
    ensures r.pick.Picked? ==> r.pick.index < |flags|
    ensures kind == LeastConnections ==> r.counter == counter && r.pick != DivideByZero
    ensures kind == RoundRobin ==> r.counter == counter + 1 && r.pick != Nil
    ensures r.pick == DivideByZero <==> kind == RoundRobin && |flags| == 0
  {
    match kind
    case RoundRobin =>
      if |flags| == 0 then Step(DivideByZero, counter + 1)
      else Step(Picked((counter + 1) % |flags|), counter + 1)
    case LeastConnections =>
      match FirstAlive(flags)
      case Some(i) => Step(Picked(i), counter)
      case None => Step(Nil, counter)
  }

  /** Least-connections picks the first alive backend, and nil only when none is. */
  lemma LeastConnectionsPicksFirstAlive(counter: nat, flags: seq<bool>)
    ensures var r := StrategyStep(LeastConnections, counter, flags);
            && (r.pick.Picked? ==> flags[r.pick.index] && forall j :: 0 <= j < r.pick.index ==> !flags[j])
            && (r.pick == Nil <==> forall j :: 0 <= j < |flags| ==> !flags[j])
  {
  }

  /** The Strategy interface with its two implementations: RoundRobin holds the
      counter; LeastConnections holds nothing. The counter is unbounded (the
      uint64 wrap-around is not modelled). */
  class Strategy {
    const kind: StrategyKind
    var counter: nat

    /** NewStrategy. */
    constructor (strategyType: string)
      ensures kind == KindOf(strategyType) && counter == 0
    {
      kind := KindOf(strategyType);
      counter := 0;
    }

    method GetNextBackend(backends: seq<Backend>) returns (next: Pick)
      modifies this
      ensures Step(next, counter) == StrategyStep(kind, old(counter), AliveFlags(backends))
    {
      if kind == RoundRobin {
        counter := counter + 1;
        if |backends| == 0 {
          next := DivideByZero;
        } else {
          next := Picked(counter % |backends|);
        }
      } else {
        var best := LeastConnectionsScan(backends);
        next := if best.Some? then Picked(best.value) else Nil;
      }
    }
  }

  // ---------------------------------------------------------------------
  // Modular arithmetic for the round-robin index

  lemma MulAtLeast(n: int, d: int)
    requires n > 0 && d >= 1
    ensures n * d >= n
  {
  }

  lemma MulDiff(n: int, a: int, b: int)
    ensures n * a - n * b == n * (a - b)
  {
  }

  /** Euclidean division has one remainder. */
  lemma DivModUnique(x: int, n: int, q: int, r: int)
    requires n > 0 && 0 <= r < n && x == n * q + r
    ensures x % n == r
  {
    var q', r' := x / n, x % n;
    assert x == n * q' + r';
    MulDiff(n, q', q);
    MulDiff(n, q, q');
    if q' > q {
      MulAtLeast(n, q' - q);
    } else if q' < q {
      MulAtLeast(n, q - q');
    }
  }

  /** Every index is reached from any counter within n steps. */
  lemma ModCover(c: int, i: int, n: int)
    requires n > 0 && 0 <= i < n
    ensures var k := (i - c) % n; 0 <= k < n && (c + k) % n == i
  {
    var a := i - c;
    var k := a % n;
    assert a == n * (a / n) + k;
    DivModUnique(c + k, n, -(a / n), i);
  }

  /** Fewer than n steps never come back to the same index. */
  lemma ModDistinct(c: int, j: int, k: int, n: int)
    requires n > 0 && 0 <= j < k < j + n
    ensures (c + j) % n != (c + k) % n
  {
    var x := c + j;
    var r, d := x % n, k - j;
    assert x == n * (x / n) + r;
    if r + d < n {
      DivModUnique(c + k, n, x / n, r + d);
    } else {
      DivModUnique(c + k, n, x / n + 1, r + d - n);
    }
  }

  // ---------------------------------------------------------------------
  // Round-robin picks

  /** The indexes k calls of round-robin return, starting from counter c. */
  function RoundRobinPicks(c: nat, n: nat, k: nat): (picks: seq<int>)
    requires n > 0
    ensures |picks| == k
    ensures forall j :: 0 <= j < k ==> picks[j] == (c + j + 1) % n
  {
    seq(k, j => (c + j + 1) % n)
  }

  /** Any n consecutive round-robin calls return every index exactly once. */
  lemma RoundRobinFair(c: nat, n: nat)
    requires n > 0
    ensures var picks := RoundRobinPicks(c, n, n);
            && (forall i :: 0 <= i < n ==> i in picks)
            && (forall j, k :: 0 <= j < k < n ==> picks[j] != picks[k])
  {
    var picks := RoundRobinPicks(c, n, n);
    forall i | 0 <= i < n
      ensures i in picks
    {
      ModCover(c + 1, i, n);
      var k := (i - (c + 1)) % n;
      assert picks[k] == i;
    }
    forall j, k | 0 <= j < k < n
      ensures picks[j] != picks[k]
    {
      ModDistinct(c + 1, j, k, n);
    }
  }

  /** Call k of a new round-robin strategy (counting from 1) returns index
      k mod n, so the first pick is index 1. */
  method RoundRobinCalls(backends: seq<Backend>, calls: nat) returns (picks: seq<int>)
    requires |backends| > 0
    ensures picks == RoundRobinPicks(0, |backends|, calls)
  {
    var strategy := new Strategy(RoundRobinStrategy);
    picks := [];
    for k := 0 to calls
      invariant strategy.kind == RoundRobin && strategy.counter == k
      invariant picks == RoundRobinPicks(0, |backends|, k)
    {
      var next := strategy.GetNextBackend(backends);
      picks := picks + [next.index];
    }
  }

  // ---------------------------------------------------------------------
  // GetNextBackend

  /** The result of LoadBalancer.GetNextBackend: a backend, nil, or one of the two
      panics the code can reach (nil dereference, division by zero). */
  datatype Selection = Chosen(index: nat) | NoBackend | NilDereference | DivisionByZero

  /** A selection with the strategy counter it leaves behind. */
  datatype Outcome = Outcome(selection: Selection, counter: nat)

  /** The retry loop of GetNextBackend with `attempts` checks left: a nil
      candidate is dereferenced, an alive one is returned, a dead one is replaced
      by the strategy's next pick. */
  function Retry(kind: StrategyKind, flags: seq<bool>, next: Pick, counter: nat, attempts: nat): (r: Outcome)
    requires next != DivideByZero
    requires next.Picked? ==> next.index < |flags|
    ensures r.selection.Chosen? ==> r.selection.index < |flags| && flags[r.selection.index]
    ensures r.selection != DivisionByZero
    ensures kind == LeastConnections ==> r.counter == counter
    ensures kind == RoundRobin ==> counter <= r.counter <= counter + attempts
    decreases attempts
  {
    if attempts == 0 then Outcome(NoBackend, counter)
    else match next
      case Nil => Outcome(NilDereference, counter)
      case Picked(i) =>
        if flags[i] then Outcome(Chosen(i), counter)
        else
          var step := StrategyStep(kind, counter, flags);
          Retry(kind, flags, step.pick, step.counter, attempts - 1)
  }

  /** The retry loop under round-robin, on counters: check the candidate at
      counter, move on when it is dead, at most `attempts` times. */
  function RoundRobinRetry(flags: seq<bool>, counter: nat, attempts: nat): (r: Outcome)
    requires |flags| > 0
    ensures counter <= r.counter <= counter + attempts
    ensures r.selection.Chosen? || r.selection.NoBackend?
    ensures r.selection.Chosen? ==>
              r.selection.index == r.counter % |flags| && flags[r.selection.index] && r.counter < counter + attempts
    ensures r.selection.NoBackend? ==> r.counter == counter + attempts
    ensures forall k :: counter <= k < r.counter ==> !flags[k % |flags|]
    decreases attempts
  {
    if attempts == 0 then Outcome(NoBackend, counter)
    else if flags[counter % |flags|] then Outcome(Chosen(counter % |flags|), counter)
    else RoundRobinRetry(flags, counter + 1, attempts - 1)
  }

  /** GetNextBackend as written: one strategy call, then up to n checks, each
      failed check followed by another strategy call. A non-nil result is alive,
      and round-robin calls the strategy at most n + 1 times. */
  function Select(kind: StrategyKind, counter: nat, flags: seq<bool>): (r: Outcome)
    ensures r.selection.Chosen? ==> r.selection.index < |flags| && flags[r.selection.index]
    ensures kind == LeastConnections ==> r.counter == counter
    ensures kind == RoundRobin ==> counter < r.counter <= counter + |flags| + 1
  {
    var step := StrategyStep(kind, counter, flags);
    if step.pick == DivideByZero then Outcome(DivisionByZero, step.counter)
    else Retry(kind, flags, step.pick, step.counter, |flags|)
  }

  /** Under round-robin the retry loop is a walk over consecutive counters. */
  lemma {:induction false} RetryRoundRobin(flags: seq<bool>, counter: nat, attempts: nat)
    requires |flags| > 0
    ensures Retry(RoundRobin, flags, Picked(counter % |flags|), counter, attempts)
            == RoundRobinRetry(flags, counter, attempts)
    decreases attempts
  {
    if attempts > 0 && !flags[counter % |flags|] {
      RetryRoundRobin(flags, counter + 1, attempts - 1);
    }
  }

  /** Under round-robin with a non-empty pool, GetNextBackend returns nil exactly
      when no backend is alive, and never panics. */
  lemma RoundRobinNilIffNoneAlive(counter: nat, flags: seq<bool>)
    requires |flags| > 0
    ensures Select(RoundRobin, counter, flags).selection.Chosen?
            || Select(RoundRobin, counter, flags).selection.NoBackend?
    ensures Select(RoundRobin, counter, flags).selection == NoBackend
            <==> forall i :: 0 <= i < |flags| ==> !flags[i]
  {
    var n := |flags|;
    var r := RoundRobinRetry(flags, counter + 1, n);
    RetryRoundRobin(flags, counter + 1, n);
    if r.selection == NoBackend {
      forall i | 0 <= i < n
        ensures !flags[i]
      {
        ModCover(counter + 1, i, n);
        var k := (i - (counter + 1)) % n;
        assert !flags[(counter + 1 + k) % n];
      }
    }
  }

  /** As written, least-connections over a non-empty pool with no alive backend
      hands back nil, and GetNextBackend then calls IsAlive on it. */
  lemma LeastConnectionsAllDeadDereferencesNil(counter: nat, flags: seq<bool>)
    requires |flags| > 0 && forall i :: 0 <= i < |flags| ==> !flags[i]
    ensures Select(LeastConnections, counter, flags).selection == NilDereference
  {
  }

  /** GetNextBackend with the nil check it evidently lacks: a nil candidate ends
      the search with nil instead of a dereference. */
  function SelectChecked(kind: StrategyKind, counter: nat, flags: seq<bool>): (r: Outcome)
    ensures r.selection != NilDereference
    ensures r.selection.Chosen? ==> r.selection.index < |flags| && flags[r.selection.index]
    ensures Select(kind, counter, flags).selection != NilDereference ==> r == Select(kind, counter, flags)
  {
    WithNilCheck(Select(kind, counter, flags))
  }

  /** A nil dereference becomes a nil result. */
  function WithNilCheck(r: Outcome): (checked: Outcome)
  {
    if r.selection == NilDereference then Outcome(NoBackend, r.counter) else r
  }

  /** With the nil check, both strategies return nil over a non-empty pool exactly
      when no backend is alive, and least-connections returns the first alive one. */
  lemma SelectCheckedNilIffNoneAlive(kind: StrategyKind, counter: nat, flags: seq<bool>)
    requires |flags| > 0
    ensures SelectChecked(kind, counter, flags).selection.Chosen?
            || SelectChecked(kind, counter, flags).selection.NoBackend?
    ensures SelectChecked(kind, counter, flags).selection == NoBackend
            <==> forall i :: 0 <= i < |flags| ==> !flags[i]
    ensures kind == LeastConnections && FirstAlive(flags).Some? ==>
              SelectChecked(kind, counter, flags).selection == Chosen(FirstAlive(flags).value)
  {
    if kind == RoundRobin {
      RoundRobinNilIffNoneAlive(counter, flags);
    }
  }

  /** Three alive backends under round-robin: four requests go to 1, 2, 0, 1. */
  lemma ThreeAliveScenario()
    ensures var flags := [true, true, true];
            var r1 := Select(RoundRobin, 0, flags);
            var r2 := Select(RoundRobin, r1.counter, flags);
            var r3 := Select(RoundRobin, r2.counter, flags);
            var r4 := Select(RoundRobin, r3.counter, flags);
            [r1.selection, r2.selection, r3.selection, r4.selection]
            == [Chosen(1), Chosen(2), Chosen(0), Chosen(1)]
  {
  }

  /** Two backends with the first one dead: every request goes to index 1. */
  lemma OneDeadScenario()
    ensures var flags := [false, true];
            var r1 := Select(RoundRobin, 0, flags);
            var r2 := Select(RoundRobin, r1.counter, flags);
            var r3 := Select(RoundRobin, r2.counter, flags);
            [r1.selection, r2.selection, r3.selection] == [Chosen(1), Chosen(1), Chosen(1)]
  {
  }

  // ---------------------------------------------------------------------
  // The load balancer

  /** What ServeHTTP does with a selection: forward to the backend, answer 503
      "No available backends", or abort the request with a panic. */
  datatype Served = Forwarded(index: nat) | ServiceUnavailable | Crashed

  function ServeOutcome(s: Selection): (r: Served)
    ensures r == ServiceUnavailable <==> s == NoBackend
    ensures r.Forwarded? <==> s.Chosen?
    ensures r.Forwarded? ==> r.index == s.index
  {
    match s
    case Chosen(i) => Forwarded(i)
    case NoBackend => ServiceUnavailable
    case _ => Crashed
  }

  class LoadBalancer {
    const backends: seq<Backend>
    const strategy: Strategy

    /** NewLoadBalancer: one new, alive backend per URL, in the given order. */
    constructor (serverUrls: seq<string>, strategy: Strategy)
      ensures this.strategy == strategy
      ensures |backends| == |serverUrls|
      ensures forall i :: 0 <= i < |backends| ==>
                backends[i].url == serverUrls[i] && backends[i].alive && fresh(backends[i])
      ensures forall i, j :: 0 <= i < j < |backends| ==> backends[i] != backends[j]
    {
      var built: seq<Backend> := [];
      for i := 0 to |serverUrls|
        invariant |built| == i
        invariant forall j :: 0 <= j < i ==> built[j].url == serverUrls[j] && built[j].alive && fresh(built[j])
        invariant forall j, k :: 0 <= j < k < i ==> built[j] != built[k]
      {
        var backend := new Backend(serverUrls[i]);
        built := built + [backend];
      }
      backends := built;
      this.strategy := strategy;
    }

    /** GetNextBackend as written. */
    method GetNextBackend() returns (result: Selection)
      modifies strategy
      ensures Outcome(result, strategy.counter) == Select(strategy.kind, old(strategy.counter), AliveFlags(backends))
    {
      ghost var flags := AliveFlags(backends);
      ghost var goal := Select(strategy.kind, strategy.counter, flags);
      var next := strategy.GetNextBackend(backends);
      if next == DivideByZero {
        return DivisionByZero;
      }
      var attempts := |backends|;
      for i := 0 to attempts
        invariant AliveFlags(backends) == flags
        invariant next != DivideByZero && (next.Picked? ==> next.index < attempts)
        invariant Retry(strategy.kind, flags, next, strategy.counter, attempts - i) == goal
      {
        if next == Nil {
          return NilDereference;
        }
        if backends[next.index].IsAlive() {
          return Chosen(next.index);
        }
        next := strategy.GetNextBackend(backends);
      }
      return NoBackend;
    }

    /** GetNextBackend with a nil check before each IsAlive call. */
    method GetNextBackendChecked() returns (result: Selection)
      modifies strategy
      ensures Outcome(result, strategy.counter) == SelectChecked(strategy.kind, old(strategy.counter), AliveFlags(backends))
    {
      ghost var flags := AliveFlags(backends);
      ghost var goal := SelectChecked(strategy.kind, strategy.counter, flags);
      var next := strategy.GetNextBackend(backends);
      if next == DivideByZero {
        return DivisionByZero;
      }
      var attempts := |backends|;
      for i := 0 to attempts
        invariant AliveFlags(backends) == flags
        invariant next != DivideByZero && (next.Picked? ==> next.index < attempts)
        invariant WithNilCheck(Retry(strategy.kind, flags, next, strategy.counter, attempts - i)) == goal
      {
        if next == Nil {
          return NoBackend;
        }
        if backends[next.index].IsAlive() {
          return Chosen(next.index);
        }
        next := strategy.GetNextBackend(backends);
      }
      return NoBackend;
    }

    /** ServeHTTP as written: forward to the selected backend, answer 503 when
        there is none, and abort when the selection dereferences nil or divides
        by zero. */
    method ServeHTTP() returns (served: Served)
      modifies strategy
      ensures var r := Select(strategy.kind, old(strategy.counter), AliveFlags(backends));
              served == ServeOutcome(r.selection) && strategy.counter == r.counter
    {
      var selection := GetNextBackend();
      served := ServeOutcome(selection);
    }

    /** ServeHTTP over the nil-checked selection: a pool with no alive backend
        is answered with 503 under either strategy. */
    method ServeHTTPChecked() returns (served: Served)
      modifies strategy
      ensures var r := SelectChecked(strategy.kind, old(strategy.counter), AliveFlags(backends));
              served == ServeOutcome(r.selection) && strategy.counter == r.counter
    {
      var selection := GetNextBackendChecked();
      served := ServeOutcome(selection);
    }
  }

  /** The second scenario on the objects: two backends, the first marked dead,
      three requests all forwarded to the second. */
  method OneDeadRun() returns (served: seq<Served>)
    ensures served == [Forwarded(1), Forwarded(1), Forwarded(1)]
  {
    var strategy := new Strategy(RoundRobinStrategy);
    var lb := new LoadBalancer(["http://a", "http://b"], strategy);
    lb.backends[0].SetAlive(false);
    assert AliveFlags(lb.backends) == [false, true];
    OneDeadScenario();
    var s1 := lb.ServeHTTP();
    var s2 := lb.ServeHTTP();
    var s3 := lb.ServeHTTP();
    served := [s1, s2, s3];
  }
}
