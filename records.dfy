/** The persisted feedback record and the six age brackets. */
module Records {
  /** `AGE_GROUPS`, in display order. */
  const AgeGroups: seq<string> := ["-15", "15-19", "20-24", "25-39", "40-59", "60+"]

  /** `createdAt`: an ISO-8601 text that the model never inspects. */
  type Timestamp = string

  /**
   * One stored vote. `age` is kept as text: what is read back from storage
   * is not checked against the six brackets, and aggregation has to skip
   * records whose age is not one of them.
   */
  datatype Feedback = Feedback(rating: int, age: string, createdAt: Timestamp)

  predicate KnownAge(a: string)
  {
    a in AgeGroups
  }

  /** The brackets are pairwise distinct, so each names exactly one matrix column. */
  lemma AgeGroupsDistinct()
    ensures forall i, j :: 0 <= i < j < |AgeGroups| ==> AgeGroups[i] != AgeGroups[j]
  {
  }
}
