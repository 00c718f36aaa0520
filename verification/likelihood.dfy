/** The beta-binomial log-likelihood table of a grouping and the
    groups-by-equivalence-classes likelihood matrix gathered from it
    (src/likelihood.cpp). `std::lgamma` is a parameter: nothing here depends
    on its values. */
module Likelihood {
  import opened Reference
  import opened Bootstrap

  /** The value every table cell starts with, log(0.01); column 0 keeps it. */
  const NoHitsLogProb: real := -4.60517

  /** -log(0.99), subtracted from every beta-binomial cell. */
  const CorrectAlignmentPenalty: real := 0.01005034

  /** The log-gamma function, left uninterpreted. */
  type LogGamma = real -> real

  /** log B(x, y). */
  function LBeta(lgamma: LogGamma, x: real, y: real): real {
    lgamma(x) + lgamma(y) - lgamma(x + y)
  }

  /** log C(n, k); the differences are taken in `int`, as after C++'s
      integer promotion of the two `uint16_t` arguments. */
  function LogBinCoeff(lgamma: LogGamma, n: U16, k: U16): real {
    lgamma((n + 1) as real) - lgamma((k + 1) as real) - lgamma((n - k + 1) as real)
  }

  /** The scaled beta-binomial log-density of `k` hits among `n` members. */
  function LdbbScaled(lgamma: LogGamma, k: U16, n: U16, alpha: real, beta: real): real {
    LogBinCoeff(lgamma, n, k) + LBeta(lgamma, k as real + alpha, (n - k) as real + beta)
      - LBeta(lgamma, n as real + alpha, beta)
  }

  lemma LBetaSymmetric(lgamma: LogGamma, x: real, y: real)
    ensures LBeta(lgamma, x, y) == LBeta(lgamma, y, x)
  {
    assert x + y == y + x;
  }

  lemma LogBinCoeffSymmetric(lgamma: LogGamma, n: U16, k: U16)
    requires k <= n
    ensures LogBinCoeff(lgamma, n, n - k) == LogBinCoeff(lgamma, n, k)
  {
    assert n - (n - k) == k;
  }

  /** Mirroring the hit count and swapping the shape parameters changes the
      scaled density only through its normalising term. */
  lemma LdbbScaledReflection(lgamma: LogGamma, k: U16, n: U16, alpha: real, beta: real)
    requires k <= n
    ensures LdbbScaled(lgamma, n - k, n, beta, alpha) - LBeta(lgamma, n as real + alpha, beta)
         == LdbbScaled(lgamma, k, n, alpha, beta) - LBeta(lgamma, n as real + beta, alpha)
  {
    LogBinCoeffSymmetric(lgamma, n, k);
    LBetaSymmetric(lgamma, (n - k) as real + beta, k as real + alpha);
    assert (n - (n - k)) as real + alpha == k as real + alpha;
  }

  /** Cell `j` of the table row of a group with `size` members and
      parameters `bb`: it depends on nothing but that group. */
  function TableCell(lgamma: LogGamma, size: U16, bb: BBParams, j: U16): real {
    if j == 0 then NoHitsLogProb
    else LdbbScaled(lgamma, j, size, bb.alpha, bb.beta) - CorrectAlignmentPenalty
  }

  /** The running maximum of the group sizes, scanned front to back. */
  function MaxSize(sizes: seq<U16>): U16 {
    if sizes == [] then 0
    else
      var before := MaxSize(sizes[..|sizes| - 1]);
      var last := sizes[|sizes| - 1];
      if last > before then last else before
  }

  /** The scan ends at the largest size, which is one of the sizes, or at 0
      when there are no groups. */
  lemma {:induction false} MaxSizeIsMaximum(sizes: seq<U16>)
    ensures forall i :: 0 <= i < |sizes| ==> sizes[i] <= MaxSize(sizes)
    ensures sizes == [] ==> MaxSize(sizes) == 0
    ensures sizes != [] ==> MaxSize(sizes) in sizes
  {
    if sizes != [] {
      var prefix := sizes[..|sizes| - 1];
      MaxSizeIsMaximum(prefix);
      assert sizes == prefix + [sizes[|sizes| - 1]];
    }
  }

  /** Fills the `n_groups x (max_size + 1)` table: column 0 keeps the fill
      value, and every other column of row `i` holds the density of group `i`,
      also for columns beyond that group's own size. */
  method PrecalcLls(lgamma: LogGamma, grouping: Grouping) returns (llMat: array2<real>)
    requires grouping.WellFormed()
    ensures llMat.Length0 == grouping.nGroups
    ensures llMat.Length1 == MaxSize(grouping.GroupSizes()) + 1
    ensures forall i :: 0 <= i < llMat.Length0 ==> llMat[i, 0] == NoHitsLogProb
    ensures forall i, j {:trigger TableCell(lgamma, grouping.sizes[i], grouping.bbParams[i], j)} ::
      0 <= i < llMat.Length0 && 0 <= j < llMat.Length1 ==> llMat[i, j] == TableCell(lgamma, grouping.sizes[i], grouping.bbParams[i], j)
  {
    var nGroups := grouping.nGroups;
    var maxSize: U16 := 0;
    var i := 0;
    while i < nGroups
      invariant 0 <= i <= nGroups
      invariant maxSize == MaxSize(grouping.sizes[..i])
    {
      assert grouping.sizes[..i + 1][..i] == grouping.sizes[..i];
      maxSize := if grouping.sizes[i] > maxSize then grouping.sizes[i] else maxSize;
      i := i + 1;
    }
    assert grouping.sizes[..i] == grouping.GroupSizes();

    llMat := new real[nGroups, maxSize + 1]((_, _) => NoHitsLogProb);
    i := 0;
    while i < nGroups
      invariant 0 <= i <= nGroups
      invariant forall r, c :: 0 <= r < nGroups && 0 <= c <= maxSize ==>
        llMat[r, c] == if r < i then TableCell(lgamma, grouping.sizes[r], grouping.bbParams[r], c) else NoHitsLogProb
    {
      var size, bb := grouping.sizes[i], grouping.bbParams[i];
      var j := 1;
      while j <= maxSize
        invariant 1 <= j <= maxSize + 1
        invariant forall r, c :: 0 <= r < nGroups && 0 <= c <= maxSize ==>
          llMat[r, c] == if r < i || (r == i && c < j) then TableCell(lgamma, grouping.sizes[r], grouping.bbParams[r], c)
                         else NoHitsLogProb
      {
        llMat[i, j] := LdbbScaled(lgamma, j, size, bb.alpha, bb.beta) - CorrectAlignmentPenalty;
        j := j + 1;
      }
      i := i + 1;
    }
  }

  /** The column counter of the table loop as written: a `uint16_t`, so its
      increment wraps around. */
  function NextColumn(j: U16): U16 {
    (j + 1) % 0x1_0000
  }

  /** The guard of the table loop, `j <= max_size`. */
  predicate ColumnGuard(j: U16, maxSize: U16) {
    j <= maxSize
  }

  /** With a group of 65535 members the guard holds for every 16-bit counter,
      and the counter wraps from 65535 back to column 0: the loop as written
      never exits. */
  lemma ColumnLoopNeverExits(maxSize: U16)
    requires maxSize == 0xFFFF
    ensures forall j: U16 :: ColumnGuard(j, maxSize) && ColumnGuard(NextColumn(j), maxSize)
    ensures NextColumn(maxSize) == 0
  {
  }

  /** The row count of the likelihood matrix: `n_groups` is narrowed to
      `uint16_t` before the matrix is sized. */
  function MatrixRows(grouping: Grouping): U16 {
    grouping.nGroups % 0x1_0000
  }

  /** Sizes `sample.llMat` as `n_groups x num_ecs` and fills cell `(i, j)` with
      the table cell of group `i` at EC `j`'s hit count in that group.
      `groupCounts[j]` stands for `sample.group_counts(group_indicators, j, n_groups)`. */
  method LikelihoodArrayMat(lgamma: LogGamma, grouping: Grouping, groupCounts: seq<seq<U16>>, sample: BootstrapSample)
    requires grouping.WellFormed()
    requires |groupCounts| == sample.numEcs
    requires forall j :: 0 <= j < |groupCounts| ==> MatrixRows(grouping) <= |groupCounts[j]|
    requires forall j, i :: 0 <= j < |groupCounts| && 0 <= i < MatrixRows(grouping) ==>
      groupCounts[j][i] <= MaxSize(grouping.GroupSizes())
    modifies sample`llMat
    ensures fresh(sample.llMat)
    ensures sample.llMat.Length0 == MatrixRows(grouping) && sample.llMat.Length1 == sample.numEcs
    ensures forall i, j :: 0 <= i < sample.llMat.Length0 && 0 <= j < sample.llMat.Length1 ==>
      sample.llMat[i, j] == TableCell(lgamma, grouping.sizes[i], grouping.bbParams[i], groupCounts[j][i])
  {
    var numEcs := sample.numEcs;
    var nGroups := MatrixRows(grouping);
    var table := PrecalcLls(lgamma, grouping);
    var m := new real[nGroups, numEcs]((_, _) => NoHitsLogProb);
    var j := 0;
    while j < numEcs
      modifies m
      invariant 0 <= j <= numEcs
      invariant forall r, c :: 0 <= r < nGroups && 0 <= c < j ==> m[r, c] == table[r, groupCounts[c][r]]
    {
      var counts := groupCounts[j];
      var i := 0;
      while i < nGroups
        modifies m
        invariant 0 <= i <= nGroups
        invariant forall r, c :: 0 <= r < nGroups && 0 <= c < j ==> m[r, c] == table[r, groupCounts[c][r]]
        invariant forall r :: 0 <= r < i ==> m[r, j] == table[r, counts[r]]
      {
        m[i, j] := table[i, counts[i]];
        i := i + 1;
      }
      j := j + 1;
    }
    forall r, c | 0 <= r < nGroups && 0 <= c < numEcs
      ensures m[r, c] == TableCell(lgamma, grouping.sizes[r], grouping.bbParams[r], groupCounts[c][r])
    {
    }
    sample.llMat := m;
  }
}
