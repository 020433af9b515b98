/** The command-line scan of the driver process. */
module DriverMain {
  import opened Wrappers

  /** Index `i` holds a "-f" that has a value after it. */
  predicate FlagAt(args: seq<string>, i: int) {
    0 <= i && i + 1 < |args| && args[i] == "-f"
  }

  /** No index in [lo, hi) holds a "-f" with a value after it. */
  predicate NoFlagIn(args: seq<string>, lo: int, hi: int) {
    forall j :: lo <= j < hi ==> !FlagAt(args, j)
  }

  /**
   * Scans the argument list for "-f" followed by a value.  The value after
   * the last such "-f" wins; a "-f" in last position has no value and does
   * not count.
   */
  method RetrieveFilename(args: seq<string>) returns (inFile: Option<string>)
    ensures inFile.None? <==> NoFlagIn(args, 0, |args|)
    ensures inFile.Some? ==>
      exists i :: FlagAt(args, i) && inFile.value == args[i + 1] && NoFlagIn(args, i + 1, |args|)
    ensures inFile.Some? ==> exists j :: 1 <= j < |args| && inFile.value == args[j]
  {
    inFile := None;
    for i := 0 to |args|
      invariant inFile.None? <==> NoFlagIn(args, 0, i)
      invariant inFile.Some? ==>
        exists k :: FlagAt(args, k) && k < i && inFile.value == args[k + 1] && NoFlagIn(args, k + 1, i)
    {
      if args[i] == "-f" && i + 1 < |args| {
        inFile := Some(args[i + 1]);
        assert FlagAt(args, i) && NoFlagIn(args, i + 1, i + 1);
      } else {
        assert !FlagAt(args, i);
      }
    }
  }
}
