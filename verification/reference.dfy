/** The partition of reference sequences into groups (lineages), as declared
    in include/Reference.hpp. */
module Reference {

  /** An unsigned 16-bit value (`uint16_t`). */
  type U16 = x: int | 0 <= x < 0x1_0000

  /** An unsigned 32-bit value (`uint32_t`). */
  type U32 = x: int | 0 <= x < 0x1_0000_0000

  /** Beta-binomial shape parameters of one group. */
  datatype BBParams = BBParams(alpha: real, beta: real)

  /** One grouping: the group of every reference, the size of every group,
      the beta-binomial parameters of every group and the number of groups. */
  datatype Grouping = Grouping(
    indicators: seq<U32>,
    sizes: seq<U16>,
    bbParams: seq<BBParams>,
    nGroups: U32)
  {
    /** The per-group vectors cover every group index below `nGroups`, which
        is what the code indexing `sizes[i]` and `bb_params[i]` relies on. */
    predicate WellFormed() {
      nGroups <= |sizes| && nGroups <= |bbParams|
    }

    /** The sizes of the groups `0 .. nGroups-1`. */
    function GroupSizes(): seq<U16>
      requires WellFormed()
    {
      sizes[..nGroups]
    }
  }
}
