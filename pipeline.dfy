/**
 * The first two stages of the script's main block (analyze.py:137-138):
 * discover the files, then score them.  Argument parsing, the commit count
 * and the report that follow are not part of this model.
 */
module Pipeline {
  import opened Wrappers
  import opened Records
  import opened Complexity
  import opened Discovery

  /**
   * On normal completion there is one record per selected file, in walk
   * order, holding its name, its joined path, its parsed blocks and a
   * non-negative average (the -1 starting value is gone), while its change
   * count is still the "not yet counted" value -1.  When the parser raises,
   * the error names the position of the first selected file it raised on:
   * every selected file before it was read and parsed.
   */
  method AnalyzeTree(walk: seq<WalkEntry>, join: (string, string) -> string,
                     ccVisit: string -> Option<seq<ParsedBlock>>)
    returns (result: Result<seq<FileComplexity>, nat>)
    ensures result.Success? ==> |result.value| == |PyFiles(walk)|
    ensures result.Success? ==> forall k :: 0 <= k < |result.value| ==>
      var f, m := result.value[k], PyFiles(walk)[k];
      f.filename == m.name && f.fullpath == join(m.root, m.name) && f.fileChanges == -1 &&
      f.fileAvgComplexity >= 0.0 && ccVisit(f.fullpath).Some? && HoldsAnalysisOf(f, ccVisit(f.fullpath).value)
    ensures result.Failure? ==> result.error < |PyFiles(walk)|
    ensures result.Failure? ==>
      var m := PyFiles(walk)[result.error]; ccVisit(join(m.root, m.name)).None?
    ensures result.Failure? ==> forall j :: 0 <= j < result.error ==>
      ccVisit(join(PyFiles(walk)[j].root, PyFiles(walk)[j].name)).Some?
  {
    var files := FindFiles(walk, join);
    result := CalculateComplexity(files, ccVisit);
  }
}
