# Refactoring analyzer: complexity scoring core

This project models the scoring pipeline of the refactoring analyzer's
`analyze.py` in Dafny and proves properties of it. The analyzer finds Python
files to refactor by combining cyclomatic complexity with commit counts.
Three parts are modelled:

- **File discovery** (`find_files`). A directory walk produces one
  `FileComplexity` record per file whose name ends in `.py`. Each record
  starts with an empty block list and `-1` for both its average and its
  change count.
- **Complexity scoring** (`calculate_complexity`). Each record is updated
  in place: it gets one `Block` per block the parser reports, each with its
  score and its letter rank, and the file's average score. The average is
  the sentinel `0` when the score sum is not positive or there are no blocks.
- **Rank table** (`rank_by_score`). A step function from a score to a
  letter rank A–F. It has six closed bands: 1–5, 6–10, 11–20, 21–30, 31–40
  and 41 and above.

Layout:

- `wrappers.dfy`: `Option` and `Result`.
- `ranking.dfy`: module `Ranking`, for `rank_by_score`.
- `records.dfy`: module `Records`. `Block` is a datatype. `FileComplexity` is
  a class, because the source updates its fields in place.
- `complexity.dfy`: module `Complexity`, for `calculate_complexity`.
- `discovery.dfy`: module `Discovery`, for `find_files`.
- `pipeline.dfy`: module `Pipeline`, for the first two steps of the main
  block.

Inputs from outside the program are parameters:

- The directory walk is a sequence of `(directory, file names)` steps in
  walk order.
- Path joining is an abstract function.
- Reading a file and running the complexity parser on it are one abstract
  function from the full path to the parser's blocks. It returns `None`
  when opening or parsing raises.

Scores are compared exactly. Python compares an int with a float exactly, so
`RankByScore` takes a `real`. Block scores are passed as `c as real`. The
file average is an exact `real` quotient.

The intended behaviour of the tool differs from what the code does in four
places. The model follows the code in each:

- An empty file is meant to be ranked A by convention. Its stored average
  is the sentinel 0. The code's `rank_by_score(0)` falls through every
  branch and gives no rank (`EmptyFileSentinel`).
- Fractional averages are meant to be ranked by the same table as integer
  scores. The code gives no rank to an average strictly between two bands,
  such as 5.5 (`NoRankInGap`, `ExampleAverageInGap`).
- A file that cannot be parsed is meant to contribute an empty block list,
  and analysis is meant to go on. The code does not catch the parser's
  exception, so the loop stops at the first such file. Records before it
  are updated and the rest are left alone (`CalculateComplexity`).
- The average is meant to be the mean of the block scores. The code stores
  0 whenever the score sum is not positive, even when there are blocks
  (`AverageComplexity`).

## Model

| member | source | states |
|---|---|---|
| Records.FileComplexity.constructor | analyze.py:11-17 | a new record holds exactly the five field values it was given |
| Ranking.RankByScore | analyze.py:95-114 | no rank exactly when the score is below 1 or strictly inside a gap between bands; any rank returned is one whose band holds the score |
| Ranking.BandsDisjoint | analyze.py:96-102 | the six bands of the documented table do not overlap |
| Ranking.RankByScoreMatchesTable | analyze.py:96-114 | the if/elif chain returns rank r if and only if the score lies in r's band of the documented table |
| Ranking.IntegerScoreRanked | analyze.py:103-114 | an integer score gets a rank if and only if it is at least 1 |
| Ranking.BandIndex | analyze.py:96-102 | arithmetic form of the table for integer scores; the index is at most 5 (rank F) |
| Ranking.IntegerRankIsBandIndex | analyze.py:103-114 | on every integer score of at least 1, the chain's rank is the one given by the arithmetic band index |
| Ranking.RankMonotone | analyze.py:103-114 | for integer scores 1 <= m <= n, both are ranked and the rank of m is no higher than the rank of n |
| Ranking.RankMonotoneReal | analyze.py:103-114 | for fractional scores that are both ranked, a larger score never gets a lower rank |
| Ranking.NoRankBelowOne | analyze.py:103-114 | every score below 1 gives no rank, including the 0 sentinel and the -1 starting value |
| Ranking.NoRankInGap | analyze.py:103-114 | every score strictly between 5 and 6, 10 and 11, 20 and 21, 30 and 31, or 40 and 41 gives no rank |
| Complexity.ToBlock | analyze.py:81-86 | the `Block` record (the dataclass of analyze.py:19-24) built for one parsed block keeps its kind, name and score; it has a rank exactly when the score is at least 1, and then the score lies in that rank's band |
| Complexity.BlocksOf | analyze.py:79-86 | the block list has the parser's length and order; entry k has block k's kind, name and score, and the rank of that score |
| Complexity.SumComplexity | analyze.py:87 | when every block scores at least 1, the sum is at least the number of blocks |
| Complexity.AverageComplexity | analyze.py:89-92 | the average is never negative; it is 0 for an empty list; it is positive exactly when there are blocks and their sum is positive |
| Complexity.SumWithinBounds | analyze.py:87 | if every score lies in [lo, hi], the sum lies in [n*lo, n*hi] |
| Complexity.AverageWithinBounds | analyze.py:87-90 | if every score lies in [lo, hi] with lo >= 1, the average is the exact quotient sum/n (not the sentinel) and lies in [lo, hi] |
| Complexity.MeanWithinBounds | analyze.py:90 | an integer total between n*lo and n*hi has its exact quotient by n in [lo, hi] |
| Complexity.MinComplexity | analyze.py:87-90 | the smallest block score: no larger than any score, and equal to one of them |
| Complexity.MaxComplexity | analyze.py:87-90 | the largest block score: no smaller than any score, and equal to one of them |
| Complexity.AverageBetweenMinAndMax | analyze.py:87-90 | when every score is at least 1 and there is a block, the average lies between the smallest and the largest score |
| Complexity.EmptyFileSentinel | analyze.py:89-92 | a file without blocks gets average 0, and rank_by_score gives that average no rank |
| Complexity.ExampleAverageRankB | analyze.py:87-90 | blocks scored 3, 7 and 11 average to 7, rank B |
| Complexity.ExampleAverageInGap | analyze.py:85-90 | blocks scored 5 and 6 are ranked A and B, but their average 5.5 gets no rank |
| Complexity.CollectBlocks | analyze.py:75-87 | the inner loop builds exactly the file's block list and the sum of its scores |
| Complexity.StoreAnalysis | analyze.py:75-92 | after one file's pass, the record holds that file's block list and average; its name, path and change count are unchanged |
| Complexity.CalculateComplexity | analyze.py:73-93 | returns the same list; every record holds its parsed block list and average; names, paths and change counts are unchanged; if parsing raises at position k, records before k are updated and records not also found before k are left alone |
| Discovery.EndsWith | analyze.py:62 | `s` ends with `suffix` exactly when `suffix` is no longer than `s` and `s` is its own leading part followed by `suffix` |
| Discovery.PythonFileExamples | analyze.py:62 | the suffix test accepts "analyze.py" and ".py" and rejects "notes.txt", "cache.pyc", "setup.PY" and "py" |
| Discovery.PyFilesIn | analyze.py:61-62 | every selected entry of a directory has that directory as root and a ".py" name from its listing, and there are no more entries than names |
| Discovery.PyFiles | analyze.py:60-62 | the selected files of the whole walk, directory after directory; every selected name ends in ".py" |
| Discovery.PyFilesSound | analyze.py:60-62 | every selected entry has a ".py" name that is listed under its root at some step of the walk |
| Discovery.PyFilesInAppend | analyze.py:61-62 | selection within a directory keeps list order: it distributes over concatenation |
| Discovery.PyFilesAppend | analyze.py:60-61 | selection over the walk keeps walk order: it distributes over concatenation |
| Discovery.PyFilesInCount | analyze.py:61-63 | within a directory, a ".py" name is selected once per listing and any other name never |
| Discovery.PyFilesCount | analyze.py:60-63 | over the whole walk, a (directory, ".py" name) pair is selected once per listing and any other name never |
| Discovery.RecordsForDirectory | analyze.py:61-69 | one fresh, distinct record per ".py" name of one directory, in listing order, each with the name, the joined path, no blocks, and average and change count -1 |
| Discovery.FindFiles | analyze.py:58-71 | one fresh, distinct record per selected file, in walk order, with the file's name, the joined path, no blocks, and average and change count -1 |
| Pipeline.AnalyzeTree | analyze.py:137-138 | discovery followed by scoring gives one record per selected file, in walk order, with its parsed blocks, a non-negative average and change count still -1; or it gives the position of the first selected file whose read or parse raised, every earlier selected file having been parsed |

## Left out

- `parse_arguments` (analyze.py:26-56): command-line parsing, the help text, the directory check and process exit.
- `count_filechanges` (analyze.py:116-121): a call into the git library that counts up to 1000 commits per path. It is repository I/O, so change counts stay at their starting value in this model.
- `print_results` and the trace printing (analyze.py:70, 80, 123-130): console output. Its call to `rank_by_score` on the file average is covered by `NoRankBelowOne`, `NoRankInGap` and `EmptyFileSentinel`.
- `eisenhower_grouping` (analyze.py:132): declared with no body, so it defines no behaviour. As written, the file cannot be compiled by Python.
- Opening and decoding files, and the complexity parser itself: an abstract input keyed on the full path. Decoding errors are ignored by the source, and that is part of the input too.
- The sub-directory list that each walk step yields: the source does not read it.
- IEEE floating-point rounding of the average: modelled as an exact rational quotient.
- The unused imports (`sqlite3`, `pandas`, `matplotlib`) have no behaviour.
