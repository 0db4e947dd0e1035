/**
 * A log retention policy based on the disk space taken by the log files.
 * When the files of a log exceed the configured size, the policy picks the
 * shortest run of files from the end of the list, in the order of the file
 * comparator, whose removal brings the total back within the limit.
 */
module RetentionPolicies {
  import opened Wrappers
  import opened ServerTypes

  /** The configuration of a size-limit retention policy. */
  datatype SizeLimitLogRetentionPolicyCfg = SizeLimitLogRetentionPolicyCfg(dn: Dn, diskSpaceUsed: nat)

  /**
   * A log file: its name, its length in bytes, and its rank under the file
   * comparator (files are sorted by ascending rank).
   */
  datatype LogFile = LogFile(name: string, length: nat, rank: int)

  /**
   * The naming policy of a log: its initial file name and the files it lists,
   * `None` when listing the directory failed.
   */
  datatype FileNamingPolicy = FileNamingPolicy(initialName: string, listing: Option<seq<LogFile>>)

  // ---------------------------------------------------------------------
  // Lengths
  // ---------------------------------------------------------------------

  /** The total length of a sequence of files. */
  function TotalLength(files: seq<LogFile>): (total: nat)
  {
    if files == [] then 0 else files[0].length + TotalLength(files[1..])
  }

  lemma TotalLengthAt(files: seq<LogFile>, j: nat)
    requires j < |files|
    ensures TotalLength(files[j..]) == files[j].length + TotalLength(files[j + 1..])
  {
    assert files[j..][1..] == files[j + 1..];
  }

  /** The total of a list is the total of a prefix plus the total of the rest. */
  lemma {:induction false} TotalLengthSplit(files: seq<LogFile>, j: nat)
    requires j <= |files|
    ensures TotalLength(files[..j]) + TotalLength(files[j..]) == TotalLength(files)
  {
    if j > 0 {
      TotalLengthSplit(files[1..], j - 1);
      assert files[1..][..j - 1] == files[..j][1..];
      assert files[1..][j - 1..] == files[j..];
    } else {
      assert files[..0] == [] && files[0..] == files;
    }
  }

  // ---------------------------------------------------------------------
  // Sorting in comparator order
  // ---------------------------------------------------------------------

  predicate InComparatorOrder(files: seq<LogFile>)
  {
    forall i, j :: 0 <= i < j < |files| ==> files[i].rank <= files[j].rank
  }

  /** A file ranked no higher than the first of a sorted list can go in front of it. */
  lemma PrependInOrder(f: LogFile, files: seq<LogFile>)
    requires InComparatorOrder(files)
    requires files != [] ==> f.rank <= files[0].rank
    ensures InComparatorOrder([f] + files)
  {
    var r := [f] + files;
    forall i, j | 0 <= i < j < |r| ensures r[i].rank <= r[j].rank {
      if i == 0 {
        assert r[j] == files[j - 1];
      } else {
        assert r[i] == files[i - 1] && r[j] == files[j - 1];
      }
    }
  }

  /** `f` placed into the sorted `files` before the first file that does not rank below it. */
  function Insert(f: LogFile, files: seq<LogFile>): (r: seq<LogFile>)
    requires InComparatorOrder(files)
    ensures InComparatorOrder(r)
    ensures multiset(r) == multiset(files) + multiset{f}
    ensures |r| == |files| + 1
    ensures r[0] == f || (files != [] && r[0] == files[0])
  {
    if files == [] || f.rank <= files[0].rank then
      PrependInOrder(f, files);
      [f] + files
    else
      assert files == [files[0]] + files[1..];
      var rest := Insert(f, files[1..]);
      PrependInOrder(files[0], rest);
      [files[0]] + rest
  }

  lemma {:induction false} InsertTotalLength(f: LogFile, files: seq<LogFile>)
    requires InComparatorOrder(files)
    ensures TotalLength(Insert(f, files)) == f.length + TotalLength(files)
  {
    if files == [] || f.rank <= files[0].rank {
      assert ([f] + files)[1..] == files;
    } else {
      InsertTotalLength(f, files[1..]);
      assert ([files[0]] + Insert(f, files[1..]))[1..] == Insert(f, files[1..]);
    }
  }

  /**
   * The files in comparator order: a stable sort by rank, standing for
   * `Arrays.sort(files, comparator)`.
   */
  function SortByComparator(files: seq<LogFile>): (r: seq<LogFile>)
    ensures InComparatorOrder(r)
    ensures multiset(r) == multiset(files)
    ensures |r| == |files|
    ensures TotalLength(r) == TotalLength(files)
  {
    if files == [] then []
    else
      assert files == [files[0]] + files[1..];
      var sortedRest := SortByComparator(files[1..]);
      InsertTotalLength(files[0], sortedRest);
      Insert(files[0], sortedRest)
  }

  /** The files of `files` that have rank `k`, in their order in `files`. */
  function WithRank(files: seq<LogFile>, k: int): (same: seq<LogFile>)
  {
    if files == [] then []
    else (if files[0].rank == k then [files[0]] else []) + WithRank(files[1..], k)
  }

  lemma {:induction false} InsertKeepsTies(f: LogFile, files: seq<LogFile>, k: int)
    requires InComparatorOrder(files)
    ensures WithRank(Insert(f, files), k) == (if f.rank == k then [f] else []) + WithRank(files, k)
  {
    if files == [] || f.rank <= files[0].rank {
      assert ([f] + files)[1..] == files;
    } else {
      var rest := Insert(f, files[1..]);
      InsertKeepsTies(f, files[1..], k);
      assert ([files[0]] + rest)[1..] == rest;
    }
  }

  /**
   * The sort is stable: the files of any one rank keep the order they had in
   * the listing, as `Arrays.sort` guarantees.
   */
  lemma {:induction false} SortByComparatorIsStable(files: seq<LogFile>, k: int)
    ensures WithRank(SortByComparator(files), k) == WithRank(files, k)
  {
    if files != [] {
      SortByComparatorIsStable(files[1..], k);
      InsertKeepsTies(files[0], SortByComparator(files[1..]), k);
    }
  }

  /**
   * Two files of equal rank keep the listing's order, so with a limit of 15
   * the later one is deleted.
   */
  lemma EqualRanksKeepListingOrder()
    ensures SortByComparator([LogFile("a", 10, 0), LogFile("b", 10, 0)])
            == [LogFile("a", 10, 0), LogFile("b", 10, 0)]
    ensures IsShortestExcessTail([LogFile("a", 10, 0), LogFile("b", 10, 0)], 15, [LogFile("b", 10, 0)])
  {
    var a, b := LogFile("a", 10, 0), LogFile("b", 10, 0);
    assert [a, b][1..] == [b];
    assert [a, b][2..] == [];
    assert [b][1..] == [];
    assert Insert(b, []) == [b];
    assert Insert(a, [b]) == [a, b];
  }

  // ---------------------------------------------------------------------
  // The files to delete
  // ---------------------------------------------------------------------

  /**
   * `doomed` is what the policy must delete from `files` (already in
   * comparator order) under the size limit `limit`: nothing when the files
   * fit; otherwise a non-empty tail of `files` whose length covers the
   * excess, and such that no shorter tail covers it.
   */
  ghost predicate IsShortestExcessTail(files: seq<LogFile>, limit: nat, doomed: seq<LogFile>)
  {
    if TotalLength(files) <= limit then
      doomed == []
    else
      && 0 < |doomed| <= |files|
      && doomed == files[|files| - |doomed|..]
      && TotalLength(doomed) >= TotalLength(files) - limit
      && forall k :: |files| - |doomed| < k <= |files| ==> TotalLength(files[k..]) < TotalLength(files) - limit
  }

  /** A tail that covers the excess, no shorter tail of which does, is the one to delete. */
  lemma CoveringTailIsShortest(files: seq<LogFile>, limit: nat, j: nat)
    requires TotalLength(files) > limit
    requires j < |files|
    requires TotalLength(files[j..]) >= TotalLength(files) - limit
    requires forall k :: j < k <= |files| ==> TotalLength(files[k..]) < TotalLength(files) - limit
    ensures IsShortestExcessTail(files, limit, files[j..])
  {
  }

  /** Once the chosen files are deleted, what remains fits within the limit. */
  lemma RemainderFitsLimit(files: seq<LogFile>, limit: nat, doomed: seq<LogFile>)
    requires IsShortestExcessTail(files, limit, doomed)
    ensures |doomed| <= |files|
    ensures TotalLength(files[..|files| - |doomed|]) <= limit
  {
    if TotalLength(files) > limit {
      TotalLengthSplit(files, |files| - |doomed|);
    } else {
      assert files[..|files|] == files;
    }
  }

  /** At most one tail meets the description: the choice is determined. */
  lemma ShortestExcessTailUnique(files: seq<LogFile>, limit: nat, doomed1: seq<LogFile>, doomed2: seq<LogFile>)
    requires IsShortestExcessTail(files, limit, doomed1)
    requires IsShortestExcessTail(files, limit, doomed2)
    ensures doomed1 == doomed2
  {
  }

  /**
   * The scan of `deleteFiles` from the last file backwards: the position of
   * the first file, counting from the end, at which the files from there on
   * cover `needed`.
   */
  method CoveringTailStart(files: seq<LogFile>, needed: nat) returns (j: nat)
    requires 0 < needed <= TotalLength(files)
    ensures j < |files|
    ensures TotalLength(files[j..]) >= needed
    ensures forall k :: j < k <= |files| ==> TotalLength(files[k..]) < needed
  {
    assert files[0..] == files;
    var freedSpace := 0;
    var i := |files| - 1;
    while i >= 0
      invariant -1 <= i < |files|
      invariant freedSpace == TotalLength(files[i + 1..])
      invariant forall k :: i < k <= |files| ==> TotalLength(files[k..]) < needed
    {
      TotalLengthAt(files, i);
      freedSpace := freedSpace + files[i].length;
      if freedSpace >= needed {
        break;
      }
      i := i - 1;
    }
    j := i;
  }

  // ---------------------------------------------------------------------
  // The policy
  // ---------------------------------------------------------------------

  class SizeBasedRetentionPolicy {
    /** The disk space the log files may take, in bytes. */
    var size: nat
    /** The configuration in force, once the policy is initialised. */
    var config: Option<SizeLimitLogRetentionPolicyCfg>

    constructor ()
      ensures size == 0 && config == None
    {
      size := 0;
      config := None;
    }

    /** Takes the size limit from the configuration. */
    method InitializeLogRetentionPolicy(cfg: SizeLimitLogRetentionPolicyCfg)
      modifies this
      ensures size == cfg.diskSpaceUsed
      ensures config == Some(cfg)
    {
      size := cfg.diskSpaceUsed;
      config := Some(cfg);
    }

    /** Every configuration change is acceptable; no reason is added. */
    method IsConfigurationChangeAcceptable(cfg: SizeLimitLogRetentionPolicyCfg, unacceptableReasons: seq<Message>)
      returns (acceptable: bool, reasons: seq<Message>)
      ensures acceptable
      ensures reasons == unacceptableReasons
    {
      acceptable := true;
      reasons := unacceptableReasons;
    }

    /** The new size limit takes effect at once; no administrative action is needed. */
    method ApplyConfigurationChange(cfg: SizeLimitLogRetentionPolicyCfg) returns (r: ConfigChangeResult)
      modifies this
      ensures size == cfg.diskSpaceUsed
      ensures config == Some(cfg)
      ensures r == Applied
    {
      size := cfg.diskSpaceUsed;
      config := Some(cfg);
      r := Applied;
    }

    /**
     * The log files to delete: an error when the directory cannot be listed;
     * otherwise the shortest tail of the files, in comparator order, whose
     * deletion brings the total back within `size`.
     */
    method DeleteFiles(policy: FileNamingPolicy) returns (r: Result<seq<LogFile>, DirectoryException>)
      ensures policy.listing.None? ==>
        r == Err(DirectoryException(ServerErrorResultCode, LoggerErrorListingFiles(policy.initialName)))
      ensures policy.listing.Some? ==>
        r.Ok? && IsShortestExcessTail(SortByComparator(policy.listing.value), size, r.value)
    {
      if policy.listing.None? {
        return Err(DirectoryException(ServerErrorResultCode, LoggerErrorListingFiles(policy.initialName)));
      }
      var listing := policy.listing.value;

      var totalLength := 0;
      var i := 0;
      while i < |listing|
        invariant 0 <= i <= |listing|
        invariant totalLength + TotalLength(listing[i..]) == TotalLength(listing)
      {
        TotalLengthAt(listing, i);
        totalLength := totalLength + listing[i].length;
        i := i + 1;
      }

      if totalLength <= size {
        return Ok([]);
      }

      var freeSpaceNeeded := totalLength - size;
      var files := SortByComparator(listing);

      var j := CoveringTailStart(files, freeSpaceNeeded);
      CoveringTailIsShortest(files, size, j);
      var filesToDelete := files[j..];
      return Ok(filesToDelete);
    }
  }
}
