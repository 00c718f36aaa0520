/** The per-grouping estimation loop of `main` (src/main.cpp), seen from one
    MPI process. Every step with an effect outside the process's own
    variables is recorded as an event; a broadcast and the optimizer
    `rcg_optl` are collective calls, which every process must issue in the
    same order. What the steps compute is modelled in Likelihood and
    Bootstrap; here only their order, their arguments and the process that
    performs them matter. */
module Driver {
  import opened Reference
  import opened Options

  /** What the root process has read: the number of groups of each grouping
      (`get_n_groups()`, a `uint32_t`) and the sample's observed read total. */
  datatype RootInput = RootInput(groupCounts: seq<U32>, countsTotal: nat)

  datatype Event =
    | ReadInput                                             // reading indicators and alignments
    | BcastNGroupings(count: U16)                           // MPI_Bcast of n_groupings
    | BcastNGroups(grouping: nat, count: U16)               // MPI_Bcast of n_groups
    | ConstructLikelihood(grouping: nat, last: bool)
    | Optimize(grouping: nat, round: nat, prior: seq<real>) // rcg_optl; round 0 is the point estimate
    | MixtureComponents(grouping: nat)                      // relative_abundances of round 0
    | InitBootstrap(grouping: nat)
    | ResampleCounts(grouping: nat, iteration: nat, draws: nat)
    | AppendBootstrapResult(grouping: nat, iteration: nat)  // bootstrap_results.emplace_back
    | WriteResults(grouping: nat)

  predicate IsCollective(e: Event) {
    e.BcastNGroupings? || e.BcastNGroups? || e.Optimize?
  }

  predicate IsOptimize(e: Event) {
    e.Optimize?
  }

  predicate IsAppend(e: Event) {
    e.AppendBootstrapResult?
  }

  predicate IsWrite(e: Event) {
    e.WriteResults?
  }

  // ---------------------------------------------------------------------
  // Event sequences.

  /** The events of `s` that satisfy `p`, in order. */
  function Filter(s: seq<Event>, p: Event -> bool): seq<Event> {
    if s == [] then [] else (if p(s[0]) then [s[0]] else []) + Filter(s[1..], p)
  }

  /** `parts(0) + parts(1) + ... + parts(k-1)`. */
  function Concat(k: nat, parts: nat -> seq<Event>): seq<Event> {
    if k == 0 then [] else Concat(k - 1, parts) + parts(k - 1)
  }

  lemma AppendAssoc(a: seq<Event>, b: seq<Event>, c: seq<Event>)
    ensures (a + b) + c == a + (b + c)
  {
  }

  lemma {:induction false} FilterAppend(a: seq<Event>, b: seq<Event>, p: Event -> bool)
    ensures Filter(a + b, p) == Filter(a, p) + Filter(b, p)
  {
    if a != [] {
      assert (a + b)[1..] == a[1..] + b;
      assert (a + b)[0] == a[0];
      FilterAppend(a[1..], b, p);
    } else {
      assert a + b == b;
    }
  }

  lemma FilterOne(e: Event, p: Event -> bool)
    ensures Filter([e], p) == if p(e) then [e] else []
  {
    assert [e][1..] == [];
  }

  lemma {:induction false} FilterKeepsAll(s: seq<Event>, p: Event -> bool)
    requires forall i :: 0 <= i < |s| ==> p(s[i])
    ensures Filter(s, p) == s
  {
    if s != [] {
      FilterKeepsAll(s[1..], p);
    }
  }

  /** Keeping the optimizer calls among the collective calls keeps every
      optimizer call. */
  lemma {:induction false} OptimizeIsCollective(s: seq<Event>)
    ensures Filter(Filter(s, IsCollective), IsOptimize) == Filter(s, IsOptimize)
  {
    if s != [] {
      OptimizeIsCollective(s[1..]);
      FilterAppend(if IsCollective(s[0]) then [s[0]] else [], Filter(s[1..], IsCollective), IsOptimize);
    }
  }

  /** Filtering a concatenation filters each part. */
  lemma {:induction false} FilterConcat(k: nat, parts: nat -> seq<Event>, kept: nat -> seq<Event>, p: Event -> bool)
    requires forall i :: 0 <= i < k ==> Filter(parts(i), p) == kept(i)
    ensures Filter(Concat(k, parts), p) == Concat(k, kept)
  {
    if k > 0 {
      FilterConcat(k - 1, parts, kept, p);
      FilterAppend(Concat(k - 1, parts), parts(k - 1), p);
    }
  }

  lemma {:induction false} ConcatPointwise(k: nat, parts: nat -> seq<Event>, others: nat -> seq<Event>)
    requires forall i :: 0 <= i < k ==> parts(i) == others(i)
    ensures Concat(k, parts) == Concat(k, others)
  {
    if k > 0 {
      ConcatPointwise(k - 1, parts, others);
    }
  }

  lemma {:induction false} ConcatEmpty(k: nat, parts: nat -> seq<Event>)
    requires forall i :: 0 <= i < k ==> parts(i) == []
    ensures Concat(k, parts) == []
  {
    if k > 0 {
      ConcatEmpty(k - 1, parts);
    }
  }

  /** Concatenating one event per part lists those events in order. */
  lemma {:induction false} ConcatSingletons(k: nat, parts: nat -> seq<Event>)
    requires forall i :: 0 <= i < k ==> |parts(i)| == 1
    ensures |Concat(k, parts)| == k
    ensures forall i :: 0 <= i < k ==> Concat(k, parts)[i] == parts(i)[0]
  {
    if k > 0 {
      ConcatSingletons(k - 1, parts);
    }
  }

  /** Every resampling event in `s` draws `count` reads. */
  predicate DrawsAgree(s: seq<Event>, count: nat) {
    forall i :: 0 <= i < |s| && s[i].ResampleCounts? ==> s[i].draws == count
  }

  lemma DrawsAgreeAppend(a: seq<Event>, b: seq<Event>, count: nat)
    requires DrawsAgree(a, count) && DrawsAgree(b, count)
    ensures DrawsAgree(a + b, count)
  {
    forall i | 0 <= i < |a + b| && (a + b)[i].ResampleCounts?
      ensures (a + b)[i].draws == count
    {
      if i >= |a| {
        assert (a + b)[i] == b[i - |a|];
      }
    }
  }

  lemma {:induction false} DrawsAgreeConcat(k: nat, parts: nat -> seq<Event>, count: nat)
    requires forall i :: 0 <= i < k ==> DrawsAgree(parts(i), count)
    ensures DrawsAgree(Concat(k, parts), count)
  {
    if k > 0 {
      DrawsAgreeConcat(k - 1, parts, count);
      DrawsAgreeAppend(Concat(k - 1, parts), parts(k - 1), count);
    }
  }

  // ---------------------------------------------------------------------
  // The values the loop works with.

  /** Narrowing to `uint16_t`. */
  function Wrap16(x: nat): U16 {
    x % 0x1_0000
  }

  /** `n_groupings`, a `uint16_t`. */
  function NGroupings(root: RootInput): U16 {
    Wrap16(|root.groupCounts|)
  }

  /** `n_groups` of grouping `i`, a `uint16_t`. */
  function NGroups(root: RootInput, i: nat): U16 {
    if i < |root.groupCounts| then Wrap16(root.groupCounts[i]) else 0
  }

  /** The prior: `n` copies of 1.0. */
  function Prior(n: U16): (alphas: seq<real>)
    ensures |alphas| == n && forall k :: 0 <= k < n ==> alphas[k] == 1.0
  {
    seq(n, _ => 1.0)
  }

  /** The pseudo-reads drawn per bootstrap round. */
  function DrawCount(args: Arguments, root: RootInput): nat {
    if args.bootstrapCount == 0 then root.countsTotal else args.bootstrapCount
  }

  /** `evs` on the root process, nothing elsewhere. */
  function RootOnly(rank: nat, evs: seq<Event>): seq<Event> {
    if rank == 0 then evs else []
  }

  // ---------------------------------------------------------------------
  // What process `rank` does.

  /** Bootstrap round `k` of grouping `g`: rank 0 resamples, every process
      calls the optimizer, rank 0 keeps the estimate. */
  function RoundTrace(args: Arguments, rank: nat, root: RootInput, g: nat, prior: seq<real>, k: nat): seq<Event> {
    RootOnly(rank, [ResampleCounts(g, k, DrawCount(args, root))])
      + [Optimize(g, k + 1, prior)]
      + RootOnly(rank, [AppendBootstrapResult(g, k)])
  }

  function Rounds(args: Arguments, rank: nat, root: RootInput, g: nat, prior: seq<real>): nat -> seq<Event> {
    (k: nat) => RoundTrace(args, rank, root, g, prior, k)
  }

  /** The bootstrap of grouping `g` up to round `k`: its initialisation on
      rank 0, then the first `k` rounds. */
  function BootstrapTrace(args: Arguments, rank: nat, root: RootInput, g: nat, prior: seq<real>, k: nat): seq<Event> {
    RootOnly(rank, [InitBootstrap(g)]) + Concat(k, Rounds(args, rank, root, g, prior))
  }

  /** The estimation of grouping `g` with the prior `prior`. */
  function EstimateTrace(args: Arguments, rank: nat, root: RootInput, g: nat, prior: seq<real>): seq<Event> {
    [Optimize(g, 0, prior)]
      + RootOnly(rank, [MixtureComponents(g)])
      + (if args.bootstrapMode then BootstrapTrace(args, rank, root, g, prior, args.iters) else [])
  }

  /** Grouping `g` of `n`. */
  function GroupingTrace(args: Arguments, rank: nat, root: RootInput, g: nat, n: U16): seq<Event> {
    [BcastNGroups(g, NGroups(root, g))]
      + RootOnly(rank, [ConstructLikelihood(g, g == n - 1)])
      + FitTrace(args, rank, root, g)
      + RootOnly(rank, [WriteResults(g)])
  }

  /** The model fit of grouping `g`, skipped with `no_fit_model`. */
  function FitTrace(args: Arguments, rank: nat, root: RootInput, g: nat): seq<Event> {
    if args.optimizer.noFitModel then [] else EstimateTrace(args, rank, root, g, Prior(NGroups(root, g)))
  }

  function Groupings(args: Arguments, rank: nat, root: RootInput, n: U16): nat -> seq<Event> {
    (g: nat) => GroupingTrace(args, rank, root, g, n)
  }

  /** Everything process `rank` does from reading the input to the last report. */
  function DriverTrace(args: Arguments, rank: nat, root: RootInput): seq<Event> {
    var n := NGroupings(root);
    RootOnly(rank, [ReadInput]) + [BcastNGroupings(n)] + Concat(n, Groupings(args, rank, root, n))
  }

  /** The `if (args.bootstrap_mode)` block of grouping `g`. */
  method RunBootstrap(args: Arguments, rank: nat, root: RootInput, g: nat, prior: seq<real>)
    returns (events: seq<Event>)
    ensures events == BootstrapTrace(args, rank, root, g, prior, args.iters)
  {
    events := [];
    if rank == 0 {
      events := events + [InitBootstrap(g)];
    }
    ghost var init := events;
    var k: U16 := 0;
    while k < args.iters
      invariant 0 <= k <= args.iters
      invariant events == init + Concat(k, Rounds(args, rank, root, g, prior))
    {
      ghost var before := events;
      ghost var resample := RootOnly(rank, [ResampleCounts(g, k, DrawCount(args, root))]);
      ghost var optimize := [Optimize(g, k + 1, prior)];
      ghost var append := RootOnly(rank, [AppendBootstrapResult(g, k)]);
      if rank == 0 {
        events := events + [ResampleCounts(g, k, if args.bootstrapCount == 0 then root.countsTotal else args.bootstrapCount)];
      }
      assert events == before + resample;
      events := events + [Optimize(g, k + 1, prior)];
      if rank == 0 {
        events := events + [AppendBootstrapResult(g, k)];
      }
      assert events == before + resample + optimize + append;
      AppendAssoc(before, resample, optimize);
      AppendAssoc(before, resample + optimize, append);
      ghost var rounds := Rounds(args, rank, root, g, prior);
      assert rounds(k) == resample + optimize + append;
      assert Concat(k + 1, rounds) == Concat(k, rounds) + rounds(k);
      AppendAssoc(init, Concat(k, rounds), rounds(k));
      k := k + 1;
    }
  }

  /** The estimation of grouping `g`: the prior is reset to `nGroups` ones,
      then the point estimate and, when bootstrapping, the bootstrap. */
  method RunEstimate(args: Arguments, rank: nat, root: RootInput, g: nat, nGroups: U16)
    returns (events: seq<Event>, alphas: seq<real>)
    ensures alphas == Prior(nGroups)
    ensures events == EstimateTrace(args, rank, root, g, alphas)
  {
    alphas := seq(nGroups, _ => 1.0);
    events := [Optimize(g, 0, alphas)];
    if rank == 0 {
      events := events + [MixtureComponents(g)];
    }
    ghost var head := [Optimize(g, 0, alphas)] + RootOnly(rank, [MixtureComponents(g)]);
    assert events == head;
    if args.bootstrapMode {
      var boot := RunBootstrap(args, rank, root, g, alphas);
      events := events + boot;
    } else {
      assert events == head + [];
    }
  }

  /** One pass of the grouping loop. `alphas` is `args.optimizer.alphas`
      before the pass and `alphasAfter` after it: it is reset to the prior
      of the grouping unless model fitting is switched off. */
  method RunGrouping(args: Arguments, alphas: seq<real>, rank: nat, root: RootInput, g: U16, n: U16)
    returns (events: seq<Event>, alphasAfter: seq<real>)
    ensures events == GroupingTrace(args, rank, root, g, n)
    ensures alphasAfter == if args.optimizer.noFitModel then alphas else Prior(NGroups(root, g))
  {
    var nGroups := NGroups(root, g);
    events := [BcastNGroups(g, nGroups)];
    if rank == 0 {
      events := events + [ConstructLikelihood(g, g == n - 1)];
    }
    ghost var head := [BcastNGroups(g, nGroups)] + RootOnly(rank, [ConstructLikelihood(g, g == n - 1)]);
    assert events == head;
    alphasAfter := alphas;
    if !args.optimizer.noFitModel {
      var estimate;
      estimate, alphasAfter := RunEstimate(args, rank, root, g, nGroups);
      assert estimate == FitTrace(args, rank, root, g);
      events := events + estimate;
    } else {
      assert events == head + FitTrace(args, rank, root, g);
    }
    ghost var fitted := events;
    if rank == 0 {
      events := events + [WriteResults(g)];
    }
    assert events == fitted + RootOnly(rank, [WriteResults(g)]);
  }

  /** The whole loop on process `rank`; the broadcasts hand every process
      the root's counts. */
  method Run(args: Arguments, rank: nat, root: RootInput) returns (trace: seq<Event>)
    ensures trace == DriverTrace(args, rank, root)
  {
    trace := [];
    if rank == 0 {
      trace := trace + [ReadInput];
    }
    var nGroupings := NGroupings(root);
    trace := trace + [BcastNGroupings(nGroupings)];
    ghost var start := trace;
    var alphas := args.optimizer.alphas;
    var i: U16 := 0;
    while i < nGroupings
      invariant 0 <= i <= nGroupings
      invariant trace == start + Concat(i, Groupings(args, rank, root, nGroupings))
    {
      var events;
      events, alphas := RunGrouping(args, alphas, rank, root, i, nGroupings);
      ghost var groupings := Groupings(args, rank, root, nGroupings);
      assert groupings(i) == events;
      assert Concat(i + 1, groupings) == Concat(i, groupings) + events;
      AppendAssoc(start, Concat(i, groupings), events);
      trace := trace + events;
      i := i + 1;
    }
  }

  // ---------------------------------------------------------------------
  // The collective calls, defined independently of the process.

  /** Optimizer calls of grouping `g` for rounds `first .. first+count-1`. */
  function Optimizations(g: nat, prior: seq<real>, first: nat, count: nat): (calls: seq<Event>)
    ensures |calls| == count
  {
    seq(count, r requires 0 <= r => Optimize(g, first + r, prior))
  }

  /** The optimizer calls of grouping `g`: none when fitting is off, else the
      point estimate and one per bootstrap round, all with the prior of
      `n_groups` ones. */
  function OptimizeCalls(args: Arguments, root: RootInput, g: nat): (calls: seq<Event>)
    ensures |calls| == if args.optimizer.noFitModel then 0 else 1 + (if args.bootstrapMode then args.iters else 0)
  {
    if args.optimizer.noFitModel then []
    else Optimizations(g, Prior(NGroups(root, g)), 0, 1 + (if args.bootstrapMode then args.iters else 0))
  }

  /** The collective calls of each grouping: the broadcast of `n_groups`,
      then its optimizer calls. */
  function GroupingCalls(args: Arguments, root: RootInput): nat -> seq<Event> {
    (g: nat) => [BcastNGroups(g, NGroups(root, g))] + OptimizeCalls(args, root, g)
  }

  /** The collective calls of the run: the broadcast of `n_groupings`, then
      those of each grouping. */
  function CollectiveTrace(args: Arguments, root: RootInput): seq<Event> {
    [BcastNGroupings(NGroupings(root))] + Concat(NGroupings(root), GroupingCalls(args, root))
  }

  lemma RoundCollective(args: Arguments, rank: nat, root: RootInput, g: nat, prior: seq<real>, k: nat)
    ensures Filter(RoundTrace(args, rank, root, g, prior, k), IsCollective) == [Optimize(g, k + 1, prior)]
    ensures rank != 0 ==> RoundTrace(args, rank, root, g, prior, k) == [Optimize(g, k + 1, prior)]
  {
    var a := RootOnly(rank, [ResampleCounts(g, k, DrawCount(args, root))]);
    var o := [Optimize(g, k + 1, prior)];
    var b := RootOnly(rank, [AppendBootstrapResult(g, k)]);
    FilterAppend(a, o, IsCollective);
    FilterAppend(a + o, b, IsCollective);
  }

  function RoundCalls(g: nat, prior: seq<real>): nat -> seq<Event> {
    (k: nat) => [Optimize(g, k + 1, prior)]
  }

  lemma RoundCallsAreOptimizations(g: nat, prior: seq<real>, k: nat)
    ensures Concat(k, RoundCalls(g, prior)) == Optimizations(g, prior, 1, k)
  {
    ConcatSingletons(k, RoundCalls(g, prior));
  }

  lemma OptimizationsSplit(g: nat, prior: seq<real>, count: nat)
    ensures Optimizations(g, prior, 0, count + 1) == [Optimize(g, 0, prior)] + Optimizations(g, prior, 1, count)
  {
  }

  lemma BootstrapCollective(args: Arguments, rank: nat, root: RootInput, g: nat, prior: seq<real>, k: nat)
    ensures Filter(BootstrapTrace(args, rank, root, g, prior, k), IsCollective) == Optimizations(g, prior, 1, k)
    ensures rank != 0 ==> BootstrapTrace(args, rank, root, g, prior, k) == Optimizations(g, prior, 1, k)
  {
    var rounds := Rounds(args, rank, root, g, prior);
    var calls := RoundCalls(g, prior);
    forall r | 0 <= r < k
      ensures Filter(rounds(r), IsCollective) == calls(r)
      ensures rank != 0 ==> rounds(r) == calls(r)
    {
      RoundCollective(args, rank, root, g, prior, r);
    }
    FilterConcat(k, rounds, calls, IsCollective);
    if rank != 0 {
      ConcatPointwise(k, rounds, calls);
    }
    RoundCallsAreOptimizations(g, prior, k);
    FilterAppend(RootOnly(rank, [InitBootstrap(g)]), Concat(k, rounds), IsCollective);
  }

  lemma EstimateCollective(args: Arguments, rank: nat, root: RootInput, g: nat, prior: seq<real>)
    ensures Filter(EstimateTrace(args, rank, root, g, prior), IsCollective)
         == Optimizations(g, prior, 0, 1 + (if args.bootstrapMode then args.iters else 0))
    ensures rank != 0 ==>
              EstimateTrace(args, rank, root, g, prior) == Optimizations(g, prior, 0, 1 + (if args.bootstrapMode then args.iters else 0))
  {
    var o := [Optimize(g, 0, prior)];
    var m := RootOnly(rank, [MixtureComponents(g)]);
    var rounds := if args.bootstrapMode then args.iters as nat else 0;
    var boot := if args.bootstrapMode then BootstrapTrace(args, rank, root, g, prior, args.iters) else [];
    if args.bootstrapMode {
      BootstrapCollective(args, rank, root, g, prior, args.iters);
    }
    assert Filter(boot, IsCollective) == Optimizations(g, prior, 1, rounds);
    FilterAppend(o, m, IsCollective);
    FilterAppend(o + m, boot, IsCollective);
    OptimizationsSplit(g, prior, rounds);
  }

  lemma FitCollective(args: Arguments, rank: nat, root: RootInput, g: nat)
    ensures Filter(FitTrace(args, rank, root, g), IsCollective) == OptimizeCalls(args, root, g)
    ensures rank != 0 ==> FitTrace(args, rank, root, g) == OptimizeCalls(args, root, g)
  {
    if !args.optimizer.noFitModel {
      EstimateCollective(args, rank, root, g, Prior(NGroups(root, g)));
    }
  }

  lemma GroupingCollective(args: Arguments, rank: nat, root: RootInput, g: nat, n: U16)
    ensures Filter(GroupingTrace(args, rank, root, g, n), IsCollective) == GroupingCalls(args, root)(g)
    ensures rank != 0 ==> GroupingTrace(args, rank, root, g, n) == GroupingCalls(args, root)(g)
  {
    var b := [BcastNGroups(g, NGroups(root, g))];
    var c := RootOnly(rank, [ConstructLikelihood(g, g == n - 1)]);
    var fit := FitTrace(args, rank, root, g);
    var w := RootOnly(rank, [WriteResults(g)]);
    FitCollective(args, rank, root, g);
    FilterOne(BcastNGroups(g, NGroups(root, g)), IsCollective);
    FilterOne(ConstructLikelihood(g, g == n - 1), IsCollective);
    FilterOne(WriteResults(g), IsCollective);
    FilterAppend(b, c, IsCollective);
    FilterAppend(b + c, fit, IsCollective);
    FilterAppend(b + c + fit, w, IsCollective);
  }

  /** The optimizer calls of grouping `g` are the same on every process:
      none with `no_fit_model`, otherwise one plus one per bootstrap round,
      all with the prior of `n_groups` ones. */
  lemma GroupingOptimizeCalls(args: Arguments, rank: nat, root: RootInput, g: nat, n: U16)
    ensures Filter(GroupingTrace(args, rank, root, g, n), IsOptimize) == OptimizeCalls(args, root, g)
  {
    var t := GroupingTrace(args, rank, root, g, n);
    var b := [BcastNGroups(g, NGroups(root, g))];
    GroupingCollective(args, rank, root, g, n);
    OptimizeIsCollective(t);
    FilterAppend(b, OptimizeCalls(args, root, g), IsOptimize);
    FilterKeepsAll(OptimizeCalls(args, root, g), IsOptimize);
  }

  /** Every process issues the same collective calls: those of
      `CollectiveTrace`, which does not depend on the process. A process
      other than the root issues nothing else. */
  lemma CollectiveCalls(args: Arguments, rank: nat, root: RootInput)
    ensures Filter(DriverTrace(args, rank, root), IsCollective) == CollectiveTrace(args, root)
    ensures rank != 0 ==> DriverTrace(args, rank, root) == CollectiveTrace(args, root)
  {
    var n := NGroupings(root);
    var groupings := Groupings(args, rank, root, n);
    var calls := GroupingCalls(args, root);
    forall g | 0 <= g < n
      ensures Filter(groupings(g), IsCollective) == calls(g)
      ensures rank != 0 ==> groupings(g) == calls(g)
    {
      GroupingCollective(args, rank, root, g, n);
    }
    FilterConcat(n, groupings, calls, IsCollective);
    if rank != 0 {
      ConcatPointwise(n, groupings, calls);
    }
    FilterAppend(RootOnly(rank, [ReadInput]), [BcastNGroupings(n)], IsCollective);
    FilterAppend(RootOnly(rank, [ReadInput]) + [BcastNGroupings(n)], Concat(n, groupings), IsCollective);
  }

  /** Any two processes issue their collective calls in lockstep. */
  lemma Lockstep(args: Arguments, rank1: nat, rank2: nat, root: RootInput)
    ensures Filter(DriverTrace(args, rank1, root), IsCollective) == Filter(DriverTrace(args, rank2, root), IsCollective)
  {
    CollectiveCalls(args, rank1, root);
    CollectiveCalls(args, rank2, root);
  }

  /** A process other than the root does nothing but the collective calls:
      reading, building the likelihood, mixing, resampling, collecting and
      writing happen on rank 0 only. */
  lemma NonRootOnlyCollective(args: Arguments, rank: nat, root: RootInput)
    requires rank != 0
    ensures Filter(DriverTrace(args, rank, root), IsCollective) == DriverTrace(args, rank, root)
  {
    CollectiveCalls(args, rank, root);
  }

  function AppendCalls(g: nat): nat -> seq<Event> {
    (k: nat) => [AppendBootstrapResult(g, k)]
  }

  /** On rank 0 the bootstrap of a grouping collects one result per round. */
  lemma BootstrapAppends(args: Arguments, root: RootInput, g: nat, prior: seq<real>, k: nat)
    ensures Filter(BootstrapTrace(args, 0, root, g, prior, k), IsAppend) == seq(k, r requires 0 <= r => AppendBootstrapResult(g, r))
  {
    var rounds := Rounds(args, 0, root, g, prior);
    var appends := AppendCalls(g);
    forall r | 0 <= r < k
      ensures Filter(rounds(r), IsAppend) == appends(r)
    {
      var a := [ResampleCounts(g, r, DrawCount(args, root))];
      FilterAppend(a, [Optimize(g, r + 1, prior)], IsAppend);
      FilterAppend(a + [Optimize(g, r + 1, prior)], [AppendBootstrapResult(g, r)], IsAppend);
    }
    FilterConcat(k, rounds, appends, IsAppend);
    ConcatSingletons(k, appends);
    FilterAppend([InitBootstrap(g)], Concat(k, rounds), IsAppend);
  }

  /** On rank 0 a grouping collects one bootstrap result per round when it
      estimates and bootstraps, and none otherwise. */
  lemma GroupingAppends(args: Arguments, root: RootInput, g: nat, n: U16)
    ensures Filter(GroupingTrace(args, 0, root, g, n), IsAppend)
         == if !args.optimizer.noFitModel && args.bootstrapMode then seq(args.iters, r requires 0 <= r => AppendBootstrapResult(g, r)) else []
  {
    var prior := Prior(NGroups(root, g));
    var b := [BcastNGroups(g, NGroups(root, g))] + [ConstructLikelihood(g, g == n - 1)];
    var est := FitTrace(args, 0, root, g);
    FilterAppend([BcastNGroups(g, NGroups(root, g))], [ConstructLikelihood(g, g == n - 1)], IsAppend);
    if !args.optimizer.noFitModel {
      var head := [Optimize(g, 0, prior)] + [MixtureComponents(g)];
      var boot := if args.bootstrapMode then BootstrapTrace(args, 0, root, g, prior, args.iters) else [];
      if args.bootstrapMode {
        BootstrapAppends(args, root, g, prior, args.iters);
      }
      FilterAppend([Optimize(g, 0, prior)], [MixtureComponents(g)], IsAppend);
      FilterAppend(head, boot, IsAppend);
    }
    FilterAppend(b, est, IsAppend);
    FilterAppend(b + est, [WriteResults(g)], IsAppend);
  }

  function NoEvents(): nat -> seq<Event> {
    (_: nat) => []
  }

  lemma BootstrapWritesNothing(args: Arguments, rank: nat, root: RootInput, g: nat, prior: seq<real>, k: nat)
    ensures Filter(BootstrapTrace(args, rank, root, g, prior, k), IsWrite) == []
  {
    var rounds := Rounds(args, rank, root, g, prior);
    forall r | 0 <= r < k
      ensures Filter(rounds(r), IsWrite) == NoEvents()(r)
    {
      var a := RootOnly(rank, [ResampleCounts(g, r, DrawCount(args, root))]);
      var o := [Optimize(g, r + 1, prior)];
      FilterAppend(a, o, IsWrite);
      FilterAppend(a + o, RootOnly(rank, [AppendBootstrapResult(g, r)]), IsWrite);
    }
    FilterConcat(k, rounds, NoEvents(), IsWrite);
    ConcatEmpty(k, NoEvents());
    FilterAppend(RootOnly(rank, [InitBootstrap(g)]), Concat(k, rounds), IsWrite);
  }

  /** Grouping `g` writes its results once, on rank 0, as its last step. */
  lemma GroupingWrites(args: Arguments, rank: nat, root: RootInput, g: nat, n: U16)
    ensures Filter(GroupingTrace(args, rank, root, g, n), IsWrite) == RootOnly(rank, [WriteResults(g)])
  {
    var prior := Prior(NGroups(root, g));
    var b := [BcastNGroups(g, NGroups(root, g))];
    var c := RootOnly(rank, [ConstructLikelihood(g, g == n - 1)]);
    var est := FitTrace(args, rank, root, g);
    if !args.optimizer.noFitModel {
      var m := RootOnly(rank, [MixtureComponents(g)]);
      var boot := if args.bootstrapMode then BootstrapTrace(args, rank, root, g, prior, args.iters) else [];
      if args.bootstrapMode {
        BootstrapWritesNothing(args, rank, root, g, prior, args.iters);
      }
      FilterAppend([Optimize(g, 0, prior)], m, IsWrite);
      FilterAppend([Optimize(g, 0, prior)] + m, boot, IsWrite);
    }
    FilterAppend(b, c, IsWrite);
    FilterAppend(b + c, est, IsWrite);
    FilterAppend(b + c + est, RootOnly(rank, [WriteResults(g)]), IsWrite);
  }

  function WriteCalls(rank: nat): nat -> seq<Event> {
    (g: nat) => RootOnly(rank, [WriteResults(g)])
  }

  /** The results are written once per grouping, in grouping order, by the
      root process alone. */
  lemma WritesPerGrouping(args: Arguments, rank: nat, root: RootInput)
    ensures Filter(DriverTrace(args, rank, root), IsWrite)
         == RootOnly(rank, seq(NGroupings(root), g requires 0 <= g => WriteResults(g)))
  {
    var n := NGroupings(root);
    var groupings := Groupings(args, rank, root, n);
    var writes := WriteCalls(rank);
    forall g | 0 <= g < n
      ensures Filter(groupings(g), IsWrite) == writes(g)
    {
      GroupingWrites(args, rank, root, g, n);
    }
    FilterConcat(n, groupings, writes, IsWrite);
    if rank == 0 {
      ConcatSingletons(n, writes);
    } else {
      ConcatEmpty(n, writes);
    }
    FilterAppend(RootOnly(rank, [ReadInput]), [BcastNGroupings(n)], IsWrite);
    FilterAppend(RootOnly(rank, [ReadInput]) + [BcastNGroupings(n)], Concat(n, groupings), IsWrite);
  }

  lemma BootstrapDraws(args: Arguments, rank: nat, root: RootInput, g: nat, prior: seq<real>, k: nat)
    ensures DrawsAgree(BootstrapTrace(args, rank, root, g, prior, k), DrawCount(args, root))
  {
    var count := DrawCount(args, root);
    var rounds := Rounds(args, rank, root, g, prior);
    forall r | 0 <= r < k
      ensures DrawsAgree(rounds(r), count)
    {
      var a := RootOnly(rank, [ResampleCounts(g, r, count)]);
      var o := [Optimize(g, r + 1, prior)];
      DrawsAgreeAppend(a, o, count);
      DrawsAgreeAppend(a + o, RootOnly(rank, [AppendBootstrapResult(g, r)]), count);
    }
    DrawsAgreeConcat(k, rounds, count);
    DrawsAgreeAppend(RootOnly(rank, [InitBootstrap(g)]), Concat(k, rounds), count);
  }

  lemma FitDraws(args: Arguments, rank: nat, root: RootInput, g: nat)
    ensures DrawsAgree(FitTrace(args, rank, root, g), DrawCount(args, root))
  {
    if !args.optimizer.noFitModel {
      var count := DrawCount(args, root);
      var prior := Prior(NGroups(root, g));
      var m := RootOnly(rank, [MixtureComponents(g)]);
      var boot := if args.bootstrapMode then BootstrapTrace(args, rank, root, g, prior, args.iters) else [];
      if args.bootstrapMode {
        BootstrapDraws(args, rank, root, g, prior, args.iters);
      }
      DrawsAgreeAppend([Optimize(g, 0, prior)], m, count);
      DrawsAgreeAppend([Optimize(g, 0, prior)] + m, boot, count);
    }
  }

  lemma GroupingDraws(args: Arguments, rank: nat, root: RootInput, g: nat, n: U16)
    ensures DrawsAgree(GroupingTrace(args, rank, root, g, n), DrawCount(args, root))
  {
    var count := DrawCount(args, root);
    var b := [BcastNGroups(g, NGroups(root, g))];
    var c := RootOnly(rank, [ConstructLikelihood(g, g == n - 1)]);
    var fit := FitTrace(args, rank, root, g);
    FitDraws(args, rank, root, g);
    DrawsAgreeAppend(b, c, count);
    DrawsAgreeAppend(b + c, fit, count);
    DrawsAgreeAppend(b + c + fit, RootOnly(rank, [WriteResults(g)]), count);
  }

  /** Every bootstrap round draws `bootstrap_count` pseudo-reads, or the
      observed total when that is 0. */
  lemma ResampleDraws(args: Arguments, rank: nat, root: RootInput)
    ensures DrawsAgree(DriverTrace(args, rank, root), DrawCount(args, root))
  {
    var n := NGroupings(root);
    var count := DrawCount(args, root);
    var groupings := Groupings(args, rank, root, n);
    forall g | 0 <= g < n
      ensures DrawsAgree(groupings(g), count)
    {
      GroupingDraws(args, rank, root, g, n);
    }
    DrawsAgreeConcat(n, groupings, count);
    DrawsAgreeAppend(RootOnly(rank, [ReadInput]), [BcastNGroupings(n)], count);
    DrawsAgreeAppend(RootOnly(rank, [ReadInput]) + [BcastNGroupings(n)], Concat(n, groupings), count);
  }
}
