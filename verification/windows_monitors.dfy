/**
 * The host collectors: sustained-CPU detection over a stream of samples and the
 * top-N processes by CPU. psutil is an input: `cpu_percent(interval=1)` readings are
 * a sequence, and each enumerated process either yields a reading or raises.
 */
module WindowsMonitors {

  // ===========================================================================
  // cpu_high_for
  // ===========================================================================

  /** How many one-second samples the loop takes when none of them is low. */
  function SampleBudget(durationSeconds: int): nat {
    if durationSeconds <= 0 then 0 else durationSeconds
  }

  /** The first `k` samples are all at or above the threshold. */
  predicate AllHigh(samples: seq<real>, k: nat, threshold: real)
    requires k <= |samples|
  {
    forall i :: 0 <= i < k ==> samples[i] >= threshold
  }

  /**
   * cpu_high_for. Each reading blocks for one second, so the loop test sees `k`
   * elapsed seconds after `k` readings; `samples` holds the readings psutil would
   * return, at least as many as the duration allows. `taken` is how many were read.
   */
  method CpuHighFor(durationSeconds: int, thresholdPct: real, samples: seq<real>)
    returns (high: bool, taken: nat)
    requires |samples| >= SampleBudget(durationSeconds)
    ensures taken <= SampleBudget(durationSeconds)
    ensures high <==> AllHigh(samples, SampleBudget(durationSeconds), thresholdPct)
    ensures high ==> taken == SampleBudget(durationSeconds)
    ensures !high ==>
      taken >= 1 && samples[taken - 1] < thresholdPct && AllHigh(samples, taken - 1, thresholdPct)
  {
    var elapsed := 0;
    taken := 0;
    while elapsed < durationSeconds
      invariant taken == elapsed <= SampleBudget(durationSeconds)
      invariant AllHigh(samples, taken, thresholdPct)
    {
      var cpu := samples[taken];
      taken := taken + 1;
      elapsed := elapsed + 1;
      if cpu < thresholdPct {
        return false, taken;
      }
    }
    high := true;
  }

  // ===========================================================================
  // top_cpu_processes
  // ===========================================================================

  /** One process as enumerated: its CPU reading, or an exception while sampling it. */
  datatype ProcSample = Sampled(cpu: real, pid: int, name: string) | Vanished

  /** (cpu, pid, name) */
  datatype ProcCpu = ProcCpu(cpu: real, pid: int, name: string)

  /** The processes that answered, in enumeration order. */
  function Answered(ps: seq<ProcSample>): (r: seq<ProcCpu>)
    ensures |r| <= |ps|
  {
    if ps == [] then []
    else
      var last := ps[|ps| - 1];
      Answered(ps[..|ps| - 1]) + (match last case Sampled(c, p, n) => [ProcCpu(c, p, n)] case Vanished => [])
  }

  predicate SortedDesc(xs: seq<ProcCpu>) {
    forall i, j :: 0 <= i < j < |xs| ==> xs[i].cpu >= xs[j].cpu
  }

  /** Place `x` before the first element whose cpu is not above it. */
  function Insert(x: ProcCpu, ys: seq<ProcCpu>): (r: seq<ProcCpu>)
    ensures |r| == |ys| + 1
    ensures multiset(r) == multiset(ys) + multiset{x}
  {
    if ys == [] || x.cpu >= ys[0].cpu then [x] + ys
    else
      assert ys == [ys[0]] + ys[1..];
      [ys[0]] + Insert(x, ys[1..])
  }

  /** list.sort(reverse=True, key=cpu): a stable sort by descending cpu. */
  function SortByCpuDesc(xs: seq<ProcCpu>): (r: seq<ProcCpu>)
    ensures |r| == |xs|
    ensures multiset(r) == multiset(xs)
  {
    if xs == [] then []
    else
      assert xs == [xs[0]] + xs[1..];
      Insert(xs[0], SortByCpuDesc(xs[1..]))
  }

  lemma {:induction false} InsertSorted(x: ProcCpu, ys: seq<ProcCpu>)
    requires SortedDesc(ys)
    ensures SortedDesc(Insert(x, ys))
    ensures Insert(x, ys)[0] == x || Insert(x, ys)[0] == ys[0]
  {
    if ys != [] && x.cpu < ys[0].cpu {
      InsertSorted(x, ys[1..]);
      var r := Insert(x, ys);
      assert r == [ys[0]] + Insert(x, ys[1..]);
      forall j | 0 < j < |r| ensures r[0].cpu >= r[j].cpu {
        var t := Insert(x, ys[1..]);
        assert r[j] == t[j - 1];
        assert t[j - 1] in multiset(t);
        assert t[j - 1] in multiset(ys[1..]) + multiset{x};
        if t[j - 1] != x {
          assert t[j - 1] in ys[1..];
        }
      }
    }
  }

  /** The sort orders by descending cpu. */
  lemma {:induction false} SortIsSorted(xs: seq<ProcCpu>)
    ensures SortedDesc(SortByCpuDesc(xs))
  {
    if xs != [] {
      SortIsSorted(xs[1..]);
      InsertSorted(xs[0], SortByCpuDesc(xs[1..]));
    }
  }

  /** The processes of a list whose reading is exactly `c`, in order. */
  function WithCpu(xs: seq<ProcCpu>, c: real): seq<ProcCpu>
  {
    if xs == [] then [] else (if xs[0].cpu == c then [xs[0]] else []) + WithCpu(xs[1..], c)
  }

  lemma WithCpuCons(h: ProcCpu, t: seq<ProcCpu>, c: real)
    ensures WithCpu([h] + t, c) == (if h.cpu == c then [h] else []) + WithCpu(t, c)
  {
    assert ([h] + t)[1..] == t;
  }

  lemma {:induction false} InsertStable(x: ProcCpu, ys: seq<ProcCpu>, c: real)
    requires SortedDesc(ys)
    ensures WithCpu(Insert(x, ys), c) == WithCpu([x] + ys, c)
  {
    if ys != [] && x.cpu < ys[0].cpu {
      var t := ys[1..];
      assert ys == [ys[0]] + t;
      InsertStable(x, t, c);
      var hx := if x.cpu == c then [x] else [];
      var hy := if ys[0].cpu == c then [ys[0]] else [];
      assert hx == [] || hy == [];
      calc {
        WithCpu(Insert(x, ys), c);
        WithCpu([ys[0]] + Insert(x, t), c);
        { WithCpuCons(ys[0], Insert(x, t), c); }
        hy + WithCpu([x] + t, c);
        { WithCpuCons(x, t, c); }
        hy + (hx + WithCpu(t, c));
        hx + (hy + WithCpu(t, c));
        { WithCpuCons(ys[0], t, c); }
        hx + WithCpu(ys, c);
        { WithCpuCons(x, ys, c); }
        WithCpu([x] + ys, c);
      }
    }
  }

  /**
   * Stability: among processes with equal cpu the sort keeps the enumeration order,
   * i.e. each group of equal readings appears in the output as in the input.
   */
  lemma {:induction false} SortIsStable(xs: seq<ProcCpu>, c: real)
    ensures WithCpu(SortByCpuDesc(xs), c) == WithCpu(xs, c)
  {
    if xs != [] {
      SortIsStable(xs[1..], c);
      SortIsSorted(xs[1..]);
      InsertStable(xs[0], SortByCpuDesc(xs[1..]), c);
      assert ([xs[0]] + SortByCpuDesc(xs[1..]))[1..] == SortByCpuDesc(xs[1..]);
    }
  }

  /** procs[:n] with Python's slice bounds: a negative `n` drops that many from the end. */
  function TakePrefix(xs: seq<ProcCpu>, n: int): (r: seq<ProcCpu>)
    ensures n >= 0 ==> |r| == if n < |xs| then n else |xs|
    ensures n < 0 ==> |r| == if |xs| + n > 0 then |xs| + n else 0
    ensures r == xs[..|r|]
  {
    var k := if n >= 0 then (if n < |xs| then n else |xs|) else (if |xs| + n > 0 then |xs| + n else 0);
    xs[..k]
  }

  /**
   * top_cpu_processes: sample every process (skipping the ones that raise), sort the
   * readings by descending cpu, keep the first `n`.
   */
  method TopCpuProcesses(n: int, ps: seq<ProcSample>) returns (top: seq<ProcCpu>)
    ensures top == TakePrefix(SortByCpuDesc(Answered(ps)), n)
    ensures n >= 0 ==> |top| <= n
    ensures SortedDesc(top)
  {
    var procs: seq<ProcCpu> := [];
    var i := 0;
    while i < |ps|
      invariant 0 <= i <= |ps|
      invariant procs == Answered(ps[..i])
    {
      assert ps[..i + 1][..i] == ps[..i];
      match ps[i] {
        case Sampled(cpu, pid, name) =>
          procs := procs + [ProcCpu(cpu, pid, name)];
        case Vanished =>
      }
      i := i + 1;
    }
    assert ps[..i] == ps;
    var sorted := SortByCpuDesc(procs);
    SortIsSorted(procs);
    top := TakePrefix(sorted, n);
  }

  /** Every process in the answer answered the sampling, and none appears more often than it did. */
  lemma TopAreAnswered(n: int, ps: seq<ProcSample>)
    ensures multiset(TakePrefix(SortByCpuDesc(Answered(ps)), n)) <= multiset(Answered(ps))
  {
    var s := SortByCpuDesc(Answered(ps));
    var t := TakePrefix(s, n);
    assert s == t + s[|t|..];
    assert multiset(s) == multiset(t) + multiset(s[|t|..]);
  }

  /** A process that raised while being sampled is skipped, not reported. */
  lemma VanishedSkipped(ps: seq<ProcSample>)
    ensures Answered(ps + [Vanished]) == Answered(ps)
  {
    assert (ps + [Vanished])[..|ps|] == ps;
  }
}
