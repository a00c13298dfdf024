/** Layer names and their order (pkg/sfu/layer.go). */
module Layers {

  const HIGH := "high"
  const MID := "mid"
  const LOW := "low"
  const DEFAULT := "default"

  function Priority(name: string): nat {
    if name == HIGH then 3
    else if name == MID then 2
    else if name == LOW || name == DEFAULT then 1
    else 0
  }

  /** "high" is above "mid", that above "low" and "default", and those above any other name. */
  lemma PriorityIsOrder(other: string)
    requires other !in {HIGH, MID, LOW, DEFAULT}
    ensures Priority(HIGH) > Priority(MID) > Priority(LOW) == Priority(DEFAULT) > Priority(other)
  {
  }
}
