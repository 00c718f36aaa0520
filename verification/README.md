# mSWEEP estimation core in Dafny

This project models three parts of mSWEEP's abundance-estimation engine and
proves properties of them.

- **Likelihood construction** (`src/likelihood.cpp`, module `Likelihood`).
  - The beta-binomial log-likelihood table of a grouping: one row per group and one column per hit count `0 .. max_size`.
  - The groups-by-equivalence-classes (EC) likelihood matrix gathered from that table by each EC's hit counts.
  - `std::lgamma` is an uninterpreted function over `real`.
  - Both loops are imperative methods over `array2<real>`.
- **Bootstrap engine** (`src/BootstrapSample.cpp`, module `Bootstrap`).
  - A `BootstrapSample` class whose methods update its fields in place.
  - Sampling weights; resampling of the observed read counts into log counts.
  - `iters + 1` rounds of estimate-then-resample.
  - The report: its destination path and its text.
  - The random generator is replaced by the EC indices it draws. The optimizer, `group_abundances`, `std::log` and number formatting are function parameters.
- **Per-grouping driver** (`src/main.cpp:122-181`, module `Driver`).
  - The loop over groupings and bootstrap rounds, run by one MPI process of rank `rank`.
  - The run is recorded as a trace of events: broadcasts, optimizer calls and the steps only the root performs.
  - `rcg_optl` is an opaque collective call. The process-independent sequence of collective calls is defined separately (`CollectiveTrace`) and related to every process's trace.

Shared modules:
- `Reference` holds the `Grouping` record of `include/Reference.hpp` and the `uint16_t`/`uint32_t` ranges.
- `Options` holds the command-line settings the core reads.

Integer widths are explicit: `U16`/`U32` subset types, with every narrowing written as `% 0x1_0000`.

In three places the model follows the code as written:
- Column 0 of the table keeps the fill value `-4.60517` (log 0.01). Every other column adds `log 0.99` (subtracts `0.01005034`). This holds for all columns up to `max_size`, also those beyond the group's own size. The code does not check that hit counts stay within a group's size. The only bound it relies on is the table width, which `LikelihoodArrayMat` requires.
- `BootstrapSample::ResampleCounts` draws `counts_total` reads. The driver's resampling call is given `bootstrap_count`, or the observed total when that is 0. Each file is modelled as written.
- `BootstrapAbundances` appends `iters + 1` vectors to `relative_abundances`. In `main`, the root's `bootstrap_results` receives one vector per bootstrap round, `iters` in all.

## Model

| member | source | states |
|---|---|---|
| Likelihood.LBetaSymmetric | src/likelihood.cpp:8-10 | `Likelihood.LBeta` models `lbeta`; the lemma states `lbeta(x, y) == lbeta(y, x)` for any log-gamma function |
| Likelihood.LogBinCoeffSymmetric | src/likelihood.cpp:12-14 | `Likelihood.LogBinCoeff` models `log_bin_coeff`, with the differences taken in `int` as after integer promotion; the lemma states `log_bin_coeff(n, n-k) == log_bin_coeff(n, k)` for `k <= n` |
| Likelihood.LdbbScaledReflection | src/likelihood.cpp:16-18 | `Likelihood.LdbbScaled` models `ldbb_scaled`; the lemma states that mirroring the hit count (`k` to `n-k`) and swapping alpha and beta changes `ldbb_scaled` only through its normalising `lbeta(n+alpha, beta)` term |
| Likelihood.MaxSizeIsMaximum | src/likelihood.cpp:24-27 | the running maximum of the group sizes is at least every size, is one of the sizes, and is 0 when there are no groups |
| Likelihood.PrecalcLls | src/likelihood.cpp:20-36 | `Likelihood.TableCell` is the cell formula of line 33 and the fill value of line 29; the table has `n_groups` rows and `max_size + 1` columns; column 0 of every row is `-4.60517`; every cell `(i, j)` with `j >= 1` is `ldbb_scaled(j, sizes[i], alpha_i, beta_i) - 0.01005034`, so row `i` depends on group `i` alone |
| Likelihood.ColumnLoopNeverExits | src/likelihood.cpp:32 | with `max_size == 65535` the guard `j <= max_size` holds for every `uint16_t` counter and `++j` wraps 65535 to 0: the column loop as written never ends |
| Likelihood.LikelihoodArrayMat | src/likelihood.cpp:38-52 | the matrix has `n_groups` (narrowed to `uint16_t`) rows and `num_ecs` columns, and cell `(i, j)` is `TableCell` of group `i` at EC `j`'s hit count in that group, a function of the inputs alone |
| Bootstrap.Tally | src/BootstrapSample.cpp:13 | the tally has one slot per EC |
| Bootstrap.TallyCountsOccurrences | src/BootstrapSample.cpp:13-17 | starting from zero, slot `e` of the tally ends as the number of draws equal to `e` |
| Bootstrap.TallySum | src/BootstrapSample.cpp:14-17 | each draw increments exactly one slot, so the tallies sum to the number of draws |
| Bootstrap.LogCounts | src/BootstrapSample.cpp:18-21 | the resampled log counts have one entry per EC |
| Bootstrap.BootstrapSample.InitBootstrap | src/BootstrapSample.cpp:7-10 | the sampling distribution's weights are the observed read counts, in EC order |
| Bootstrap.BootstrapSample.ResampleCounts | src/BootstrapSample.cpp:12-22 | `counts_total` draws are tallied into zeroed slots; then every `log_ec_counts[e]` becomes `log` of the number of draws of `e`, which is `log(0)` for an EC never drawn |
| Bootstrap.BootstrapSample.BootstrapIter | src/BootstrapSample.cpp:24-28 | `ec_probs` becomes the optimizer's result on the current log counts, and exactly one abundance vector computed from it is appended |
| Bootstrap.BootstrapSample.BootstrapAbundances | src/BootstrapSample.cpp:30-50 | weights become the read counts; `relative_abundances` grows by exactly `iters + 1` vectors and keeps its old prefix; entry 0 is estimated from the original log counts and entry `r` from those resampled with the `r`-th draw sequence; `ec_probs` ends as the optimizer's result of the last round; a final resampling follows the last estimate |
| Bootstrap.BootstrapSample.WriteBootstrap | src/BootstrapSample.cpp:53-82 | the path gains `/cell_id` only in batch mode with a non-empty path, and `_abundances.txt` only when non-empty; an empty path means standard output; the text is the four header lines in order, one row per cluster, then an empty line |
| Bootstrap.WriteRow | src/BootstrapSample.cpp:73-76 | one row: the cluster name, a tab, its `iters + 1` estimates separated by tabs, a newline |
| Bootstrap.WriteRows | src/BootstrapSample.cpp:72-78 | after the header, the rows of all clusters in order, then the newline of `std::endl` |
| Bootstrap.RowFields | src/BootstrapSample.cpp:73-76 | when names and formatted values hold no tab, every row has exactly `iters + 1` tabs, so `iters + 2` fields |
| Bootstrap.ReportLines | src/BootstrapSample.cpp:67-78 | when no field holds a newline, the report has exactly `4 + clusters + 1` lines |
| Driver.Prior | src/main.cpp:150 | the prior is `n_groups` copies of 1.0 |
| Driver.RunBootstrap | src/main.cpp:161-175 | the bootstrap block yields `BootstrapTrace`: root initialises, then each round resamples (root), optimizes (all) and appends (root) |
| Driver.RunEstimate | src/main.cpp:146-176 | the prior is reset to `n_groups` ones before the first optimizer call, and the steps are those of `EstimateTrace` |
| Driver.RunGrouping | src/main.cpp:132-181 | one grouping yields `GroupingTrace`; `alphas` changes only when the model is fitted |
| Driver.Run | src/main.cpp:122-181 | the whole loop on any rank yields `DriverTrace` |
| Driver.OptimizeCalls | src/main.cpp:146-176 | a grouping has 0 optimizer calls under `no_fit_model`, else `1 + iters` when bootstrapping and 1 otherwise |
| Driver.GroupingOptimizeCalls | src/main.cpp:146-176 | on every rank, the optimizer calls of a grouping are exactly `OptimizeCalls`, with the `n_groups`-ones prior and rounds `0, 1, ..` |
| Driver.CollectiveCalls | src/main.cpp:127-176 | on every rank, the collective calls (the two broadcasts and `rcg_optl`) are exactly `CollectiveTrace`, which does not depend on the rank; off the root nothing else happens |
| Driver.Lockstep | src/main.cpp:127-176 | any two ranks issue identical sequences of collective calls |
| Driver.NonRootOnlyCollective | src/main.cpp:105-180 | a non-root rank performs only collective calls: reading, likelihood construction, mixture components, bootstrap state, appends and writes are root-only |
| Driver.BootstrapAppends | src/main.cpp:164-175 | on the root, the bootstrap appends one result per round, for rounds `0 .. iters-1` in order |
| Driver.GroupingAppends | src/main.cpp:164-175 | on the root, a grouping appends exactly `iters` results when it fits and bootstraps, and none otherwise |
| Driver.GroupingWrites | src/main.cpp:179-180 | a grouping writes its results exactly once on the root and never elsewhere |
| Driver.WritesPerGrouping | src/main.cpp:132-180 | over the run, `WriteResults` is called once per grouping, in increasing grouping order, on the root only |
| Driver.ResampleDraws | src/main.cpp:169 | every resampling draws `bootstrap_count` pseudo-reads, or the observed total when `bootstrap_count == 0` |

## Left out

- `std::lgamma`, `std::log` and floating point: uninterpreted functions over `real`. No finiteness or numeric value of a table cell is claimed.
- The random generator (`std::discrete_distribution`, `std::mt19937_64`, `std::random_device`) and seeding. Draws are caller-supplied sequences of EC indices below `num_ecs`, so seed reproducibility is not modelled.
- The optimizer (`rcg_optl_mat`, `rcg_optl_mpi/omp`), `group_abundances` and `mixture_components` are external. They are opaque functions (`Bootstrap`) or opaque events (`Driver`).
- MPI and OpenMP: the `#pragma omp parallel for` loops are sequential loops. Each process is a separate run of `Driver.Run`, and broadcasts are events. An abort on failed input reading is not modelled.
- Logging, `std::cout`/`std::cerr` progress messages, argument parsing and `finalize`.
- `ReadGroupIndicators`, `ReadPseudoalignments`, `ReadLikelihoodFromFile` and `WriteResults` are not part of this model. In `Driver` they appear as events only.
- The root's counts are an input (`RootInput`): each grouping's `n_groups` and the sample's `counts_total`. `get_n_groupings()` is not part of this model, so `n_groupings` is the number of groupings narrowed to `uint16_t`.
- `Bootstrap.BootstrapSample.InitBootstrap`: the call `likelihood_array_mat(*this, grouping)` targets an overload that is not part of this model. The method sets only the weights; `Likelihood.LikelihoodArrayMat` models the four-argument builder.
- `sample.group_counts(...)`: not part of this model. `Likelihood.LikelihoodArrayMat` takes each EC's per-group hit counts as an input.
- `grouping.bb_parameters(bb_constants)`: not part of this model. The per-group alpha and beta are fields of `Grouping`.
- `Likelihood.LikelihoodArrayMat`: requires every hit count to be at most `max_size`. The code does not check this; reading past the table would be undefined behaviour.
- `Bootstrap.BootstrapSample.WriteBootstrap`: the stream and file handling is left out. The model returns the destination and the text, and numbers are rendered by caller-supplied formatting functions.
- `Driver`: the values computed by the steps (likelihood matrices, responsibilities, abundances) are not carried in the trace. The `Likelihood` and `Bootstrap` modules model them. On non-root ranks the resampled log counts handed to the optimizer are placeholders and are not modelled.

## Findings

| source | as written | input that shows it | evidently intended | confidence | as-written member | corrected member |
|---|---|---|---|---|---|---|
| src/likelihood.cpp:32 | the column counter `j` is a `uint16_t` and the guard is `j <= max_size` | a group of 65535 members (`max_size == 65535`): `++j` wraps 65535 to 0 and the guard stays true, so the loop never ends | fill columns `1 .. max_size` exactly once | not executed | Likelihood.ColumnLoopNeverExits | Likelihood.PrecalcLls |
