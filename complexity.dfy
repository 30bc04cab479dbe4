/**
 * `calculate_complexity` (analyze.py:73-93): score every block of every file
 * and store the file's block list and average score in its record.
 *
 * Reading a file and running the complexity parser on its text are one
 * abstract input, `ccVisit`, keyed on the record's full path: it yields the
 * parser's blocks in the order the parser returns them, or `None` when
 * opening or parsing raised.
 * The source does not catch that exception, so the loop stops at that file
 * and the error reaches the caller.
 */
module Complexity {
  import opened Wrappers
  import opened Ranking
  import opened Records

  /** What the source reads from one block object of the parser: its class name, its name and its score. */
  datatype ParsedBlock = ParsedBlock(kind: string, name: string, complexity: int)

  /** The `Block` record built for one parsed block (analyze.py:81-86). */
  function ToBlock(p: ParsedBlock): (b: Block)
    ensures b.kind == p.kind && b.name == p.name && b.ccScore == p.complexity
    ensures b.rank.Some? <==> p.complexity >= 1
    ensures b.rank.Some? ==> InBand(p.complexity as real, b.rank.value)
  {
    Block(p.kind, p.name, p.complexity, RankByScore(p.complexity as real))
  }

  /** The block list of a file: one record per parsed block, same length, same order. */
  function BlocksOf(cc: seq<ParsedBlock>): (bs: seq<Block>)
    ensures |bs| == |cc|
    ensures forall k :: 0 <= k < |cc| ==>
      bs[k].kind == cc[k].kind && bs[k].name == cc[k].name &&
      bs[k].ccScore == cc[k].complexity && bs[k].rank == RankByScore(cc[k].complexity as real)
  {
    if cc == [] then [] else BlocksOf(cc[..|cc| - 1]) + [ToBlock(cc[|cc| - 1])]
  }

  /** Sum of the block scores, added up in the parser's order as `sum_complexity` is. */
  function SumComplexity(cc: seq<ParsedBlock>): (s: int)
    ensures (forall k :: 0 <= k < |cc| ==> cc[k].complexity >= 1) ==> s >= |cc|
  {
    if cc == [] then 0 else SumComplexity(cc[..|cc| - 1]) + cc[|cc| - 1].complexity
  }

  /**
   * The file's average score (analyze.py:89-92): the exact mean when the
   * score sum is positive and there is a block, the sentinel 0 otherwise.
   */
  function AverageComplexity(cc: seq<ParsedBlock>): (avg: real)
    ensures avg >= 0.0
    ensures |cc| == 0 ==> avg == 0.0
    ensures avg > 0.0 <==> |cc| > 0 && SumComplexity(cc) > 0
  {
    var total := SumComplexity(cc);
    if total > 0 && |cc| > 0 then total as real / |cc| as real else 0.0
  }

  /** The block scores lie within `[lo, hi]`, so their sum lies within `[n * lo, n * hi]`. */
  lemma {:induction false} SumWithinBounds(cc: seq<ParsedBlock>, lo: int, hi: int)
    requires forall k :: 0 <= k < |cc| ==> lo <= cc[k].complexity <= hi
    ensures |cc| * lo <= SumComplexity(cc) <= |cc| * hi
  {
    if cc != [] {
      var init := cc[..|cc| - 1];
      assert forall k :: 0 <= k < |init| ==> init[k] == cc[k];
      SumWithinBounds(init, lo, hi);
      ProductOfSuccessor(|init|, lo);
      ProductOfSuccessor(|init|, hi);
    }
  }

  /** `(n + 1) * x` is `n * x + x`. */
  lemma ProductOfSuccessor(n: int, x: int)
    ensures (n + 1) * x == n * x + x
  {
  }

  /**
   * When every block scores at least `lo >= 1` and at most `hi`, the file
   * has a real average (not the sentinel) and it lies within `[lo, hi]`.
   */
  lemma AverageWithinBounds(cc: seq<ParsedBlock>, lo: int, hi: int)
    requires |cc| > 0 && lo >= 1
    requires forall k :: 0 <= k < |cc| ==> lo <= cc[k].complexity <= hi
    ensures AverageComplexity(cc) == SumComplexity(cc) as real / |cc| as real
    ensures lo as real <= AverageComplexity(cc) <= hi as real
  {
    SumWithinBounds(cc, lo, hi);
    var total := SumComplexity(cc);
    assert total >= |cc| > 0;
    MeanWithinBounds(total, |cc|, lo, hi);
  }

  /** An integer total between `n * lo` and `n * hi` has its exact mean over `n` between `lo` and `hi`. */
  lemma MeanWithinBounds(total: int, n: int, lo: int, hi: int)
    requires n > 0 && n * lo <= total <= n * hi
    ensures lo as real <= total as real / n as real <= hi as real
  {
  }

  /** Smallest block score of a non-empty block list. */
  function MinComplexity(cc: seq<ParsedBlock>): (m: int)
    requires |cc| > 0
    ensures forall k :: 0 <= k < |cc| ==> m <= cc[k].complexity
    ensures exists k :: 0 <= k < |cc| && m == cc[k].complexity
  {
    if |cc| == 1 then cc[0].complexity
    else
      var rest := MinComplexity(cc[1..]);
      assert forall k :: 1 <= k < |cc| ==> cc[k] == cc[1..][k - 1];
      if cc[0].complexity <= rest then cc[0].complexity else rest
  }

  /** Largest block score of a non-empty block list. */
  function MaxComplexity(cc: seq<ParsedBlock>): (m: int)
    requires |cc| > 0
    ensures forall k :: 0 <= k < |cc| ==> cc[k].complexity <= m
    ensures exists k :: 0 <= k < |cc| && m == cc[k].complexity
  {
    if |cc| == 1 then cc[0].complexity
    else
      var rest := MaxComplexity(cc[1..]);
      assert forall k :: 1 <= k < |cc| ==> cc[k] == cc[1..][k - 1];
      if cc[0].complexity >= rest then cc[0].complexity else rest
  }

  /** With every score at least 1, a file's average lies between its smallest and its largest block score. */
  lemma AverageBetweenMinAndMax(cc: seq<ParsedBlock>)
    requires |cc| > 0
    requires forall k :: 0 <= k < |cc| ==> cc[k].complexity >= 1
    ensures MinComplexity(cc) as real <= AverageComplexity(cc) <= MaxComplexity(cc) as real
  {
    AverageWithinBounds(cc, MinComplexity(cc), MaxComplexity(cc));
  }

  /** A file without blocks gets the sentinel 0, and the rank table gives that sentinel no rank. */
  lemma EmptyFileSentinel()
    ensures AverageComplexity([]) == 0.0
    ensures RankByScore(AverageComplexity([])) == None
  {
  }

  /** Blocks scored 3, 7 and 11 average to 7, which is rank B. */
  lemma ExampleAverageRankB()
    ensures var cc := [ParsedBlock("Function", "f", 3), ParsedBlock("Function", "g", 7),
                       ParsedBlock("Function", "h", 11)];
            AverageComplexity(cc) == 7.0 && RankByScore(AverageComplexity(cc)) == Some(B)
  {
    var cc := [ParsedBlock("Function", "f", 3), ParsedBlock("Function", "g", 7),
               ParsedBlock("Function", "h", 11)];
    assert cc[..2] == [cc[0], cc[1]] && cc[..2][..1] == [cc[0]] && [cc[0]][..0] == [];
    assert SumComplexity([cc[0]]) == 3;
    assert SumComplexity(cc[..2]) == 10;
    assert SumComplexity(cc) == 21;
  }

  /** Blocks scored 5 and 6 are ranked A and B, but their average 5.5 falls between bands and gets no rank. */
  lemma ExampleAverageInGap()
    ensures var cc := [ParsedBlock("Function", "f", 5), ParsedBlock("Method", "g", 6)];
            BlocksOf(cc)[0].rank == Some(A) && BlocksOf(cc)[1].rank == Some(B) &&
            AverageComplexity(cc) == 5.5 && RankByScore(AverageComplexity(cc)) == None
  {
    var cc := [ParsedBlock("Function", "f", 5), ParsedBlock("Method", "g", 6)];
    assert cc[..1][..0] == [];
    assert SumComplexity(cc) == 11;
  }

  /**
   * The inner loop (analyze.py:75-87): builds the block list of one file and
   * accumulates the score sum.
   */
  method CollectBlocks(cc: seq<ParsedBlock>) returns (codeBlocks: seq<Block>, sumComplexity: int)
    ensures codeBlocks == BlocksOf(cc)
    ensures sumComplexity == SumComplexity(cc)
  {
    codeBlocks := [];
    sumComplexity := 0;
    var i := 0;
    while i < |cc|
      invariant 0 <= i <= |cc|
      invariant codeBlocks == BlocksOf(cc[..i])
      invariant sumComplexity == SumComplexity(cc[..i])
    {
      assert cc[..i + 1][..i] == cc[..i];
      assert BlocksOf(cc[..i + 1]) == BlocksOf(cc[..i]) + [ToBlock(cc[i])];
      assert SumComplexity(cc[..i + 1]) == SumComplexity(cc[..i]) + cc[i].complexity;
      codeBlocks := codeBlocks + [ToBlock(cc[i])];
      sumComplexity := sumComplexity + cc[i].complexity;
      i := i + 1;
    }
    assert cc[..i] == cc;
  }

  /** The average the loop body stores from the collected blocks and sum is the file's average. */
  lemma AverageOfCollected(cc: seq<ParsedBlock>, codeBlocks: seq<Block>, sumComplexity: int)
    requires codeBlocks == BlocksOf(cc) && sumComplexity == SumComplexity(cc)
    ensures AverageComplexity(cc) ==
      if sumComplexity > 0 && |codeBlocks| > 0 then sumComplexity as real / |codeBlocks| as real else 0.0
  {
  }

  /** `f` holds the block list and average computed from the parser output `cc`. */
  ghost predicate HoldsAnalysisOf(f: FileComplexity, cc: seq<ParsedBlock>)
    reads f
  {
    f.blocks == BlocksOf(cc) && f.fileAvgComplexity == AverageComplexity(cc)
  }

  /**
   * One pass of the outer loop once the file is parsed (analyze.py:75-92):
   * collect the blocks and their sum, then store the block list and the
   * average (or the sentinel 0) in the record.
   */
  method StoreAnalysis(f: FileComplexity, cc: seq<ParsedBlock>)
    modifies f
    ensures HoldsAnalysisOf(f, cc)
    ensures f.filename == old(f.filename) && f.fullpath == old(f.fullpath) && f.fileChanges == old(f.fileChanges)
  {
    var codeBlocks, sumComplexity := CollectBlocks(cc);
    f.blocks := codeBlocks;
    if sumComplexity > 0 && |codeBlocks| > 0 {
      f.fileAvgComplexity := sumComplexity as real / |codeBlocks| as real;
    } else {
      f.fileAvgComplexity := 0.0;
    }
    AverageOfCollected(cc, codeBlocks, sumComplexity);
  }

  /**
   * `calculate_complexity`: for each record in list order, parse the file at
   * its full path and store its block list and average.  On normal return
   * the same list is handed back and every record holds its analysis.  When
   * reading or parsing raises at position k, the records before k have been
   * updated and no record that is not also at a position before k has been
   * touched.  Names, paths and change counts are never written.
   */
  method CalculateComplexity(files: seq<FileComplexity>, ccVisit: string -> Option<seq<ParsedBlock>>)
    returns (result: Result<seq<FileComplexity>, nat>)
    modifies files
    ensures forall j :: 0 <= j < |files| ==>
      files[j].filename == old(files[j].filename) && files[j].fullpath == old(files[j].fullpath) &&
      files[j].fileChanges == old(files[j].fileChanges)
    ensures result.Success? ==> result.value == files
    ensures result.Success? ==> forall j :: 0 <= j < |files| ==>
      ccVisit(files[j].fullpath).Some? && HoldsAnalysisOf(files[j], ccVisit(files[j].fullpath).value)
    ensures result.Failure? ==> result.error < |files| && ccVisit(files[result.error].fullpath).None?
    ensures result.Failure? ==> forall j :: 0 <= j < result.error ==>
      ccVisit(files[j].fullpath).Some? && HoldsAnalysisOf(files[j], ccVisit(files[j].fullpath).value)
    ensures result.Failure? ==> forall j :: result.error <= j < |files| && files[j] !in files[..result.error] ==>
      files[j].blocks == old(files[j].blocks) && files[j].fileAvgComplexity == old(files[j].fileAvgComplexity)
  {
    var i := 0;
    while i < |files|
      invariant 0 <= i <= |files|
      invariant forall j :: 0 <= j < |files| ==>
        files[j].filename == old(files[j].filename) && files[j].fullpath == old(files[j].fullpath) &&
        files[j].fileChanges == old(files[j].fileChanges)
      invariant forall j :: 0 <= j < i ==>
        ccVisit(files[j].fullpath).Some? && HoldsAnalysisOf(files[j], ccVisit(files[j].fullpath).value)
      invariant forall j :: i <= j < |files| && files[j] !in files[..i] ==>
        files[j].blocks == old(files[j].blocks) && files[j].fileAvgComplexity == old(files[j].fileAvgComplexity)
    {
      var f := files[i];
      var parsed := ccVisit(f.fullpath);
      if parsed.None? {
        return Failure(i);
      }
      StoreAnalysis(f, parsed.value);
      assert files[..i + 1] == files[..i] + [f];
      i := i + 1;
    }
    return Success(files);
  }
}
