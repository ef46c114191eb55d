/** Counting how often something happened to each of a growing number of things. */
module Counts {
  import opened Wrappers

  function Bump(counts: seq<nat>, i: nat): seq<nat>
    requires i < |counts|
  {
    counts[i := counts[i] + 1]
  }

  function BumpIfAny(counts: seq<nat>, i: Option<nat>): seq<nat> {
    if i.Some? && i.value < |counts| then Bump(counts, i.value) else counts
  }
}
