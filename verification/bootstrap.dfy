/** The bootstrap-capable sample of src/BootstrapSample.cpp: resampling of
    the observed read counts, repeated re-estimation, and the report. The
    random generator is replaced by the sequences of EC indices it draws;
    `std::log`, the optimizer and number formatting are parameters. */
module Bootstrap {
  import opened Reference
  import opened Options

  /** `rcg_optl_mat(ll_mat, sample, alpha0, tolerance, max_iters)` for the
      sample's fixed likelihood matrix, as a function of the prior, the
      tolerance, the iteration cap and the log read counts; it returns the
      responsibility matrix. */
  type Optimizer = (seq<real>, real, U16, seq<real>) -> seq<seq<real>>

  /** `group_abundances()`: abundances from the responsibilities and the log
      read counts. */
  type AbundanceMap = (seq<seq<real>>, seq<real>) -> seq<real>

  /** The natural logarithm, left uninterpreted. */
  type Log = real -> real

  /** One round's estimate: optimize, then turn responsibilities into
      abundances. */
  function Estimate(optimize: Optimizer, abundances: AbundanceMap, alpha0: seq<real>, tolerance: real,
                    maxIters: U16, logCounts: seq<real>): seq<real>
  {
    abundances(optimize(alpha0, tolerance, maxIters, logCounts), logCounts)
  }

  /** Every draw is an index below `n`. */
  predicate DrawsBelow(draws: seq<nat>, n: nat) {
    forall k :: 0 <= k < |draws| ==> draws[k] < n
  }

  /** The tally of `draws` into `n` slots that start at zero, one draw at a
      time. */
  function Tally(draws: seq<nat>, n: nat): (counts: seq<nat>)
    requires DrawsBelow(draws, n)
    ensures |counts| == n
  {
    if draws == [] then seq(n, _ => 0)
    else
      var counts := Tally(draws[..|draws| - 1], n);
      var e := draws[|draws| - 1];
      counts[e := counts[e] + 1]
  }

  function Sum(s: seq<nat>): nat {
    if s == [] then 0 else s[0] + Sum(s[1..])
  }

  lemma {:induction false} SumOfZeros(n: nat)
    ensures Sum(seq(n, _ => 0)) == 0
  {
    if n > 0 {
      assert seq(n, _ => 0)[1..] == seq(n - 1, _ => 0);
      SumOfZeros(n - 1);
    }
  }

  lemma {:induction false} SumIncrement(s: seq<nat>, e: nat)
    requires e < |s|
    ensures Sum(s[e := s[e] + 1]) == Sum(s) + 1
  {
    if e == 0 {
      assert s[e := s[e] + 1][1..] == s[1..];
    } else {
      assert s[e := s[e] + 1][1..] == s[1..][e - 1 := s[e] + 1];
      SumIncrement(s[1..], e - 1);
    }
  }

  /** Slot `e` of the tally is the number of draws equal to `e`. */
  lemma {:induction false} TallyCountsOccurrences(draws: seq<nat>, n: nat)
    requires DrawsBelow(draws, n)
    ensures forall e :: 0 <= e < n ==> Tally(draws, n)[e] == multiset(draws)[e]
  {
    if draws != [] {
      var prefix, last := draws[..|draws| - 1], draws[|draws| - 1];
      assert draws == prefix + [last];
      TallyCountsOccurrences(prefix, n);
    }
  }

  /** Every draw lands in exactly one slot: the tallies add up to the number
      of draws. */
  lemma {:induction false} TallySum(draws: seq<nat>, n: nat)
    requires DrawsBelow(draws, n)
    ensures Sum(Tally(draws, n)) == |draws|
  {
    if draws == [] {
      SumOfZeros(n);
    } else {
      var prefix := draws[..|draws| - 1];
      TallySum(prefix, n);
      SumIncrement(Tally(prefix, n), draws[|draws| - 1]);
    }
  }

  /** The log read counts after resampling with `draws`: slot `e` is the log
      of the number of times `e` was drawn. */
  function LogCounts(log: Log, draws: seq<nat>, n: nat): (r: seq<real>)
    ensures |r| == n
  {
    seq(n, e requires 0 <= e < n => log(multiset(draws)[e] as real))
  }

  /** The log read counts the estimate of round `r` uses: the original ones
      in round 0, and those resampled at the end of round `r - 1` after that. */
  function RoundLogCounts(log: Log, original: seq<real>, draws: seq<seq<nat>>, n: nat, r: nat): seq<real>
    requires r < |draws| + 1
  {
    if r == 0 then original else LogCounts(log, draws[r - 1], n)
  }

  /** Where the report goes. */
  datatype Destination = StandardOutput | File(path: string)

  /** The lines of `lines`, each ended by a newline. */
  function Render(lines: seq<string>): string {
    if lines == [] then [] else Render(lines[..|lines| - 1]) + lines[|lines| - 1] + "\n"
  }

  /** The cells of `cells` separated by tabs. */
  function Join(cells: seq<string>): string {
    if cells == [] then []
    else if |cells| == 1 then cells[0]
    else Join(cells[..|cells| - 1]) + "\t" + cells[|cells| - 1]
  }

  /** The four header lines of the report. */
  function HeaderLines(version: string, totalHits: string, iters: string): seq<string> {
    [ "#mSWEEP_version:\t" + version,
      "#total_hits:\t" + totalHits,
      "#bootstrap_iters:\t" + iters,
      "#c_id\tmean_theta\tbootstrap_mean_thetas" ]
  }

  /** The formatted estimates of cluster `i` in rounds `0 .. iters`. */
  function RowCells(abundances: seq<seq<real>>, i: nat, iters: nat, formatReal: real -> string): (cells: seq<string>)
    requires iters < |abundances|
    requires forall j :: 0 <= j <= iters ==> i < |abundances[j]|
    ensures |cells| == iters + 1
  {
    seq(iters + 1, j requires 0 <= j <= iters => formatReal(abundances[j][i]))
  }

  /** One report line per cluster: its name, then its estimates. */
  function RowLines(names: seq<string>, abundances: seq<seq<real>>, iters: nat, formatReal: real -> string): (rows: seq<string>)
    requires iters < |abundances|
    requires forall j :: 0 <= j <= iters ==> |names| <= |abundances[j]|
    ensures |rows| == |names|
  {
    seq(|names|, i requires 0 <= i < |names| => names[i] + "\t" + Join(RowCells(abundances, i, iters, formatReal)))
  }

  /** What the value loop of one report row has written after `j` cells:
      each cell followed by a tab, except the last, which is followed by a
      newline. */
  function RowTail(cells: seq<string>, j: nat): string
    requires j <= |cells|
  {
    if j == 0 then [] else RowTail(cells, j - 1) + cells[j - 1] + (if j == |cells| then "\n" else "\t")
  }

  lemma {:induction false} RowTailPrefix(cells: seq<string>, j: nat)
    requires 1 <= j < |cells|
    ensures RowTail(cells, j) == Join(cells[..j]) + "\t"
  {
    if j == 1 {
      assert cells[..1] == [cells[0]];
    } else {
      RowTailPrefix(cells, j - 1);
      assert cells[..j][..j - 1] == cells[..j - 1];
    }
  }

  /** Once every cell is written, the row holds the cells separated by tabs
      and ended by a newline. */
  lemma {:induction false} RowTailIsJoin(cells: seq<string>)
    requires cells != []
    ensures RowTail(cells, |cells|) == Join(cells) + "\n"
  {
    var n := |cells|;
    if n > 1 {
      RowTailPrefix(cells, n - 1);
      assert cells[..n - 1] == cells[..|cells| - 1];
    }
  }

  /** The number of occurrences of `c` in `s`. */
  function Occurrences(s: string, c: char): nat {
    if s == [] then 0 else (if s[0] == c then 1 else 0) + Occurrences(s[1..], c)
  }

  lemma {:induction false} OccurrencesAppend(a: string, b: string, c: char)
    ensures Occurrences(a + b, c) == Occurrences(a, c) + Occurrences(b, c)
  {
    if a != [] {
      assert (a + b)[1..] == a[1..] + b;
      OccurrencesAppend(a[1..], b, c);
    } else {
      assert a + b == b;
    }
  }

  /** Cells free of tabs, joined by tabs: one tab fewer than cells. */
  lemma {:induction false} JoinTabs(cells: seq<string>)
    requires cells != []
    requires forall k :: 0 <= k < |cells| ==> '\t' !in cells[k]
    ensures Occurrences(Join(cells), '\t') == |cells| - 1
  {
    if |cells| > 1 {
      var init, last := cells[..|cells| - 1], cells[|cells| - 1];
      JoinTabs(init);
      OccurrencesAppend(Join(init), "\t", '\t');
      OccurrencesAppend(Join(init) + "\t", last, '\t');
      OccurrencesNone(last, '\t');
    } else {
      OccurrencesNone(cells[0], '\t');
    }
  }

  lemma {:induction false} OccurrencesNone(s: string, c: char)
    requires c !in s
    ensures Occurrences(s, c) == 0
  {
    if s != [] {
      OccurrencesNone(s[1..], c);
    }
  }

  /** Lines free of newlines, rendered: one newline per line. */
  lemma {:induction false} RenderNewlines(lines: seq<string>)
    requires forall k :: 0 <= k < |lines| ==> '\n' !in lines[k]
    ensures Occurrences(Render(lines), '\n') == |lines|
  {
    if lines != [] {
      var init, last := lines[..|lines| - 1], lines[|lines| - 1];
      RenderNewlines(init);
      OccurrencesAppend(Render(init), last, '\n');
      OccurrencesAppend(Render(init) + last, "\n", '\n');
      OccurrencesNone(last, '\n');
    }
  }

  /** When neither the cluster names nor the formatted estimates contain a
      tab, each report row holds `iters + 1` tabs: the name and `iters + 1`
      values, one field per tab-separated column. */
  lemma RowFields(names: seq<string>, abundances: seq<seq<real>>, iters: nat, formatReal: real -> string, i: nat)
    requires iters < |abundances|
    requires forall j :: 0 <= j <= iters ==> |names| <= |abundances[j]|
    requires i < |names| && '\t' !in names[i]
    requires forall x :: '\t' !in formatReal(x)
    ensures Occurrences(RowLines(names, abundances, iters, formatReal)[i], '\t') == iters + 1
  {
    var cells := RowCells(abundances, i, iters, formatReal);
    forall k | 0 <= k < |cells|
      ensures '\t' !in cells[k]
    {
      var x := abundances[k][i];
      assert '\t' !in formatReal(x);
      assert cells[k] == formatReal(x);
    }
    JoinTabs(cells);
    OccurrencesAppend(names[i], "\t", '\t');
    OccurrencesAppend(names[i] + "\t", Join(cells), '\t');
    OccurrencesNone(names[i], '\t');
  }

  lemma {:induction false} JoinFree(cells: seq<string>, c: char)
    requires c != '\t'
    requires forall k :: 0 <= k < |cells| ==> c !in cells[k]
    ensures c !in Join(cells)
  {
    if |cells| > 1 {
      JoinFree(cells[..|cells| - 1], c);
    }
  }

  lemma HeaderSingleLines(version: string, totalHits: string, itersText: string)
    requires '\n' !in version && '\n' !in totalHits && '\n' !in itersText
    ensures forall k :: 0 <= k < 4 ==> '\n' !in HeaderLines(version, totalHits, itersText)[k]
  {
  }

  lemma RowSingleLine(names: seq<string>, abundances: seq<seq<real>>, iters: nat, formatReal: real -> string, i: nat)
    requires iters < |abundances|
    requires forall j :: 0 <= j <= iters ==> |names| <= |abundances[j]|
    requires i < |names| && '\n' !in names[i]
    requires forall x :: '\n' !in formatReal(x)
    ensures '\n' !in RowLines(names, abundances, iters, formatReal)[i]
  {
    var cells := RowCells(abundances, i, iters, formatReal);
    forall k | 0 <= k < |cells|
      ensures '\n' !in cells[k]
    {
      var x := abundances[k][i];
      assert '\n' !in formatReal(x);
      assert cells[k] == formatReal(x);
    }
    JoinFree(cells, '\n');
  }

  /** When no field contains a newline, the report has exactly one line per
      header line, one per cluster and the final empty one. */
  lemma ReportLines(version: string, totalHits: string, itersText: string, names: seq<string>,
                    abundances: seq<seq<real>>, iters: nat, formatReal: real -> string)
    requires iters < |abundances|
    requires forall j :: 0 <= j <= iters ==> |names| <= |abundances[j]|
    requires '\n' !in version && '\n' !in totalHits && '\n' !in itersText
    requires forall k :: 0 <= k < |names| ==> '\n' !in names[k]
    requires forall x :: '\n' !in formatReal(x)
    ensures Occurrences(Render(HeaderLines(version, totalHits, itersText)
                               + RowLines(names, abundances, iters, formatReal) + [""]), '\n')
         == 4 + |names| + 1
  {
    var header := HeaderLines(version, totalHits, itersText);
    var rows := RowLines(names, abundances, iters, formatReal);
    forall i | 0 <= i < |rows|
      ensures '\n' !in rows[i]
    {
      RowSingleLine(names, abundances, iters, formatReal, i);
    }
    var lines := header + rows + [""];
    HeaderSingleLines(version, totalHits, itersText);
    forall k | 0 <= k < |lines|
      ensures '\n' !in lines[k]
    {
      if k < |header| {
        assert lines[k] == header[k];
      } else if k < |header| + |rows| {
        assert lines[k] == rows[k - |header|];
      } else {
        assert lines[k] == "";
      }
    }
    RenderNewlines(lines);
  }

  /** Four lines rendered one after the other. */
  lemma RenderFour(l0: string, l1: string, l2: string, l3: string)
    ensures Render([l0, l1, l2, l3]) == l0 + "\n" + l1 + "\n" + l2 + "\n" + l3 + "\n"
  {
    RenderStep([], l0);
    RenderStep([l0], l1);
    RenderStep([l0, l1], l2);
    RenderStep([l0, l1, l2], l3);
    assert [] + [l0] == [l0];
    assert [l0] + [l1] == [l0, l1];
    assert [l0, l1] + [l2] == [l0, l1, l2];
    assert [l0, l1, l2] + [l3] == [l0, l1, l2, l3];
  }

  /** Appends the report line of cluster `i` to `text`: its name, then each
      of its estimates preceded by a tab, then a newline. */
  method WriteRow(text: string, name: string, abundances: seq<seq<real>>, i: nat, iters: nat,
                  formatReal: real -> string) returns (out: string)
    requires iters < |abundances|
    requires forall j :: 0 <= j <= iters ==> i < |abundances[j]|
    ensures out == text + (name + "\t" + Join(RowCells(abundances, i, iters, formatReal))) + "\n"
  {
    ghost var cells := RowCells(abundances, i, iters, formatReal);
    out := text + name + "\t";
    ghost var rowStart := out;
    var j := 0;
    while j <= iters
      invariant 0 <= j <= iters + 1
      invariant out == rowStart + RowTail(cells, j)
    {
      out := out + formatReal(abundances[j][i]) + (if j == iters then "\n" else "\t");
      j := j + 1;
    }
    RowTailIsJoin(cells);
  }

  /** Given the rendered header, appends one line per cluster and the final
      empty line. */
  method WriteRows(text: string, ghost header: seq<string>, names: seq<string>, abundances: seq<seq<real>>,
                   iters: nat, formatReal: real -> string) returns (out: string)
    requires text == Render(header)
    requires iters < |abundances|
    requires forall j :: 0 <= j <= iters ==> |names| <= |abundances[j]|
    ensures out == Render(header + RowLines(names, abundances, iters, formatReal) + [""])
  {
    ghost var rows := RowLines(names, abundances, iters, formatReal);
    out := text;
    assert header + rows[..0] == header;
    var i := 0;
    while i < |names|
      invariant 0 <= i <= |names|
      invariant out == Render(header + rows[..i])
    {
      out := WriteRow(out, names[i], abundances, i, iters, formatReal);
      RenderNextRow(header, rows, i);
      i := i + 1;
    }
    assert rows[..i] == rows;
    RenderStep(header + rows, "");
    out := out + "\n";
  }

  lemma RenderStep(lines: seq<string>, line: string)
    ensures Render(lines + [line]) == Render(lines) + line + "\n"
  {
    assert (lines + [line])[..|lines|] == lines;
  }

  lemma RenderNextRow(header: seq<string>, rows: seq<string>, i: nat)
    requires i < |rows|
    ensures Render(header + rows[..i + 1]) == Render(header + rows[..i]) + rows[i] + "\n"
  {
    assert header + rows[..i + 1] == (header + rows[..i]) + [rows[i]];
    RenderStep(header + rows[..i], rows[i]);
  }

  /** An abundance estimation state whose observed read counts can be
      resampled. It stands for both `Sample` and `BootstrapSample`. */
  class BootstrapSample {
    var numEcs: nat                        // m_num_ecs
    var ecCounts: seq<nat>                 // pseudos.ec_counts, the observed read count of each EC
    var countsTotal: nat                   // counts_total
    var cellId: string                     // cell_id
    var ecWeights: seq<nat>                // the weights of ec_distribution
    var logEcCounts: seq<real>             // log_ec_counts
    var ecProbs: seq<seq<real>>            // ec_probs
    var relativeAbundances: seq<seq<real>> // relative_abundances, one vector per estimate
    var llMat: array2<real>                // ll_mat

    /** The per-EC vectors have one slot per EC. */
    ghost predicate Valid()
      reads this
    {
      |ecCounts| == numEcs && |logEcCounts| == numEcs
    }

    constructor (ecCounts: seq<nat>, countsTotal: nat, cellId: string, logEcCounts: seq<real>)
      requires |logEcCounts| == |ecCounts|
      ensures Valid()
      ensures this.numEcs == |ecCounts| && this.ecCounts == ecCounts && this.countsTotal == countsTotal
      ensures this.cellId == cellId && this.logEcCounts == logEcCounts
      ensures ecWeights == [] && ecProbs == [] && relativeAbundances == []
    {
      this.numEcs := |ecCounts|;
      this.ecCounts := ecCounts;
      this.countsTotal := countsTotal;
      this.cellId := cellId;
      this.logEcCounts := logEcCounts;
      ecWeights := [];
      ecProbs := [];
      relativeAbundances := [];
      llMat := new real[0, 0];
    }

    /** The sampling distribution's weights become the observed read counts,
        in EC order. */
    method InitBootstrap()
      modifies `ecWeights
      ensures ecWeights == ecCounts
    {
      ecWeights := ecCounts;
    }

    /** Tallies `counts_total` draws into a zeroed count per EC, then
        overwrites every log read count with the log of its tally. */
    method ResampleCounts(log: Log, draws: seq<nat>)
      requires Valid()
      requires |draws| == countsTotal
      requires DrawsBelow(draws, numEcs)
      modifies `logEcCounts
      ensures Valid()
      ensures logEcCounts == LogCounts(log, draws, numEcs)
      ensures forall e :: 0 <= e < numEcs && e !in draws ==> logEcCounts[e] == log(0.0)
    {
      var tmpCounts := new nat[numEcs](_ => 0);
      var i := 0;
      assert draws[..0] == [];
      while i < countsTotal
        invariant 0 <= i <= countsTotal
        invariant Valid()
        invariant tmpCounts[..] == Tally(draws[..i], numEcs)
      {
        assert draws[..i + 1][..i] == draws[..i];
        var ecId := draws[i];
        tmpCounts[ecId] := tmpCounts[ecId] + 1;
        i := i + 1;
      }
      assert draws[..i] == draws;
      TallyCountsOccurrences(draws, numEcs);
      i := 0;
      while i < numEcs
        invariant 0 <= i <= numEcs
        invariant |logEcCounts| == numEcs
        invariant tmpCounts[..] == Tally(draws, numEcs)
        invariant forall e :: 0 <= e < i ==> logEcCounts[e] == log(multiset(draws)[e] as real)
      {
        logEcCounts := logEcCounts[i := log(tmpCounts[i] as real)];
        i := i + 1;
      }
    }

    /** Estimates from the current log read counts and appends the abundances. */
    method BootstrapIter(optimize: Optimizer, abundances: AbundanceMap, alpha0: seq<real>, tolerance: real, maxIters: U16)
      modifies `ecProbs, `relativeAbundances
      ensures ecProbs == optimize(alpha0, tolerance, maxIters, logEcCounts)
      ensures relativeAbundances
           == old(relativeAbundances) + [Estimate(optimize, abundances, alpha0, tolerance, maxIters, logEcCounts)]
    {
      ecProbs := optimize(alpha0, tolerance, maxIters, logEcCounts);
      relativeAbundances := relativeAbundances + [abundances(ecProbs, logEcCounts)];
    }

    /** Runs `iters + 1` rounds of estimate-then-resample: the first estimate
        uses the original log read counts, round `r` those resampled with
        `draws[r - 1]`, and the last resampling (`draws[iters]`) happens after
        the last estimate. */
    method BootstrapAbundances(args: Arguments, optimize: Optimizer, abundances: AbundanceMap, log: Log,
                               draws: seq<seq<nat>>)
      requires Valid()
      requires |draws| == args.iters + 1
      requires forall r :: 0 <= r < |draws| ==> |draws[r]| == countsTotal && DrawsBelow(draws[r], numEcs)
      modifies `ecWeights, `logEcCounts, `ecProbs, `relativeAbundances
      ensures Valid()
      ensures ecWeights == ecCounts
      ensures |relativeAbundances| == |old(relativeAbundances)| + args.iters + 1
      ensures relativeAbundances[..|old(relativeAbundances)|] == old(relativeAbundances)
      ensures forall r :: 0 <= r <= args.iters ==>
        relativeAbundances[|old(relativeAbundances)| + r]
          == Estimate(optimize, abundances, args.optimizer.alphas, args.optimizer.tolerance, args.optimizer.maxIters,
                      RoundLogCounts(log, old(logEcCounts), draws, numEcs, r))
      ensures logEcCounts == LogCounts(log, draws[args.iters], numEcs)
      ensures ecProbs == optimize(args.optimizer.alphas, args.optimizer.tolerance, args.optimizer.maxIters,
                                  RoundLogCounts(log, old(logEcCounts), draws, numEcs, args.iters))
    {
      var opt := args.optimizer;
      ghost var original, before := logEcCounts, relativeAbundances;
      InitBootstrap();
      var i := 0;
      while i <= args.iters
        invariant 0 <= i <= args.iters + 1
        invariant Valid() && ecWeights == ecCounts
        invariant |relativeAbundances| == |before| + i
        invariant relativeAbundances[..|before|] == before
        invariant forall r :: 0 <= r < i ==>
          relativeAbundances[|before| + r]
            == Estimate(optimize, abundances, opt.alphas, opt.tolerance, opt.maxIters,
                        RoundLogCounts(log, original, draws, numEcs, r))
        invariant logEcCounts == RoundLogCounts(log, original, draws, numEcs, i)
        invariant i > 0 ==> ecProbs == optimize(opt.alphas, opt.tolerance, opt.maxIters,
                                                RoundLogCounts(log, original, draws, numEcs, i - 1))
      {
        BootstrapIter(optimize, abundances, opt.alphas, opt.tolerance, opt.maxIters);
        assert relativeAbundances[|before| + i]
            == Estimate(optimize, abundances, opt.alphas, opt.tolerance, opt.maxIters,
                        RoundLogCounts(log, original, draws, numEcs, i));
        ResampleCounts(log, draws[i]);
        i := i + 1;
      }
    }

    /** The report: where it goes (the path is extended by `/cell_id` in
        batch mode and by `_abundances.txt` whenever it is non-empty, and an
        empty path means standard output), the new value of `outfile`, and
        the text: four header lines, one line per cluster with its estimates
        of rounds `0 .. iters` separated by tabs, and a final empty line. */
    method WriteBootstrap(clusterNames: seq<string>, outfile: string, iters: nat, batchMode: bool,
                          version: string, formatNat: nat -> string, formatReal: real -> string)
      returns (outfileAfter: string, dest: Destination, text: string)
      requires iters < |relativeAbundances|
      requires forall j :: 0 <= j <= iters ==> |clusterNames| <= |relativeAbundances[j]|
      ensures dest == StandardOutput <==> outfile == []
      ensures dest == StandardOutput ==> outfileAfter == []
      ensures dest.File? ==> outfileAfter == dest.path
      ensures outfile != [] && !batchMode ==> dest == File(outfile + "_abundances.txt")
      ensures outfile != [] && batchMode ==> dest == File(outfile + "/" + cellId + "_abundances.txt")
      ensures text == Render(HeaderLines(version, formatNat(countsTotal), formatNat(iters))
                             + RowLines(clusterNames, relativeAbundances, iters, formatReal)
                             + [""])
    {
      outfileAfter := if outfile == [] || !batchMode then outfile else outfile + "/" + cellId;
      if outfileAfter == [] {
        dest := StandardOutput;
      } else {
        outfileAfter := outfileAfter + "_abundances.txt";
        dest := File(outfileAfter);
      }

      var header := HeaderLines(version, formatNat(countsTotal), formatNat(iters));
      text := header[0] + "\n";
      text := text + header[1] + "\n";
      text := text + header[2] + "\n";
      text := text + header[3] + "\n";
      RenderFour(header[0], header[1], header[2], header[3]);
      assert header == [header[0], header[1], header[2], header[3]];
      text := WriteRows(text, header, clusterNames, relativeAbundances, iters, formatReal);
    }
  }
}
