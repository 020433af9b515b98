/** The lifecycle every service walks through. */
module ServiceState {
  import opened Wrappers

  /**
   * CREATED, ISSUED, EXECUTING and COMPLETED, plus the terminal failure
   * carrying its reason, which the cook chef produces.
   */
  datatype State = Created | Issued | Executing | Completed | Failed(reason: string) {

    /** The reason of a failed state, and nothing for any other state. */
    function FailureMsg(): (m: Option<string>)
      ensures m.Some? <==> Failed?
      ensures m.Some? ==> this == Failed(m.value)
    {
      if Failed? then Some(reason) else None
    }
  }

  /** `s` begins with `prefix`. */
  predicate StartsWith(s: string, prefix: string) {
    |prefix| <= |s| && s[..|prefix|] == prefix
  }

  lemma StartsWithConcat(prefix: string, rest: string)
    ensures StartsWith(prefix + rest, prefix)
  {
    assert (prefix + rest)[..|prefix|] == prefix;
  }
}
