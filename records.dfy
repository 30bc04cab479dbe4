/** The two records of analyze.py:11-24. */
module Records {
  import opened Wrappers
  import opened Ranking

  /**
   * `Block`: one scored code block of a file.  `kind` is the class name of
   * the parser's block object, `rank` is `None` where the
   * source's `rank_by_score` falls through every band.
   */
  datatype Block = Block(kind: string, name: string, ccScore: int, rank: Option<Rank>)

  /**
   * `FileComplexity`: one discovered source file.  The source mutates
   * `blocks` and `fileAvgComplexity` in place after creation, so this is a
   * class.  `fileAvgComplexity` holds -1 before analysis, the sentinel 0 for
   * a file without a positive score sum, and otherwise the exact mean of its
   * block scores; `fileChanges` holds -1 until the commit count is filled in.
   */
  class FileComplexity {
    var filename: string
    var fullpath: string
    var blocks: seq<Block>
    var fileAvgComplexity: real
    var fileChanges: int

    /** The dataclass constructor: every field as given. */
    constructor (filename: string, fullpath: string, blocks: seq<Block>,
                 fileAvgComplexity: real, fileChanges: int)
      ensures this.filename == filename && this.fullpath == fullpath
      ensures this.blocks == blocks
      ensures this.fileAvgComplexity == fileAvgComplexity && this.fileChanges == fileChanges
    {
      this.filename := filename;
      this.fullpath := fullpath;
      this.blocks := blocks;
      this.fileAvgComplexity := fileAvgComplexity;
      this.fileChanges := fileChanges;
    }
  }
}
