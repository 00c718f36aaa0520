/** The parts of the parsed command line that the estimation core reads. */
module Options {
  import opened Reference

  /** Settings handed to the mixture optimizer. */
  datatype OptimizerArgs = OptimizerArgs(
    alphas: seq<real>,   // prior parameters
    tolerance: real,
    maxIters: U16,
    noFitModel: bool)    // skip the estimation entirely

  datatype Arguments = Arguments(
    optimizer: OptimizerArgs,
    bootstrapMode: bool,
    iters: U16,          // number of bootstrap rounds
    bootstrapCount: nat, // pseudo-reads per round; 0 selects the observed total
    batchMode: bool)
}
