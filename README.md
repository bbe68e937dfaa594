# Xenon's threshold evaluator, modelled in Dafny

Xenon is a quality gate for Python code. It takes the cyclomatic-complexity
results that radon computes per block (function, method, class), checks them
against configured rank ceilings, and returns the number of infractions. The
build fails when that number is not zero. This project models the core of
`xenon/core.py`:

- `check`, the rank-ceiling predicate (`Ranks.Check`). Ranks are the enum
  `A < B < … < F`. The ceiling stays a string, as in Python. `check` upper-cases
  the ceiling and compares it to the rank's letter with Python's string `>`,
  which is modelled as `Ranks.StrGreater`.
- `av`, the safe average (`Averages.Av`).
- `build_blocks_to_ignore`, the parser of `"mod:block, mod2:block2"`
  (`IgnoreBlocks.BuildBlocksToIgnore`). It is a loop that adds entries to a map
  one by one. A Python `ValueError` from unpacking a malformed entry becomes a
  `Failure`. The Python builtins it uses, `str.split` and `str.strip`, are
  modelled in `PyStr`.
- `find_infractions`, the evaluator (`Infractions.FindInfractions`). It makes
  one pass over the result set, in order. Each module holds either its blocks
  or a parse-error marker. The pass logs and counts block violations, skipping
  ignored names, and it adds up per-module and codebase totals. After the pass
  come three checks, in this order: the numeric codebase average, the codebase
  average rank, and each module's average rank.

The logger is modelled as the returned sequence of `Event`s. Each event has a
severity and a tagged message with the arguments of the Python log call.
radon's `cc_rank` is the parameter `rankOf: real -> Rank`, so the model makes no
assumption about its breakpoints.

Each method is proved against specification functions in `Infractions`:
`PassLog`, `BlockInfractions`, `ModuleAverages`, `TotalCc`, `TotalBlocks`,
`AverageNumLog`, `AverageRankLog`, `ModuleRankLog`, `Log` and `Count`. `Count`
is the sum of the four independent axes. The lemmas in `InfractionLaws` state
what these functions promise:

- the count equals the number of error events;
- a parse-error module contributes only its one warning;
- the ignore list affects only the per-block axis;
- with no ceilings set, nothing counts;
- scores are averaged before they are ranked.

The evaluation is a function of its inputs, so two evaluations of the same
inputs give the same count and the same log.

Files: `wrappers.dfy` (Option, Result), `pystr.dfy`, `ranks.dfy`,
`averages.dfy`, `ignore_blocks.dfy`, `infractions.dfy`, `infraction_laws.dfy`.

## Model

| member | source | states |
|---|---|---|
| `Ranks.Rank.Letter` | xenon/core.py:64 | rank letters have increasing character codes in rank order, so comparing letters as strings is comparing ranks |
| `Ranks.StrGreaterStrict` | xenon/core.py:64 | the string `>` used by `check` is irreflexive and asymmetric; `CheckAgainstRank` uses it for "a rank never exceeds its own name" |
| `Ranks.Check` | xenon/core.py:62-64 | no ceiling never exceeds; with a ceiling it exceeds exactly when the upper-cased ceiling is empty or starts with a character below the rank's letter |
| `Ranks.CheckAgainstRank` | xenon/core.py:62-64 | with a ceiling that names a rank in either case, `check` holds exactly when the rank is strictly worse; a rank never exceeds its own name |
| `Ranks.CheckMonotone` | xenon/core.py:62-64 | whatever exceeds a ceiling, every worse rank exceeds it too |
| `Averages.Av` | xenon/core.py:57-59 | `av(n, 0)` is 0; otherwise the result times `m` is `n` (exact division) |
| `Averages.AvAtMost` | xenon/core.py:57-59 | an average of `m > 0` values each at most `hi` is at most `hi` |
| `Averages.AvAtLeast` | xenon/core.py:57-59 | an average of `m > 0` values each at least `lo` is at least `lo` |
| `PyStr.SplitPieces` | xenon/core.py:50-51 | the pieces of `s.split(sep)` contain no separator and join back to `s` |
| `PyStr.SplitJoin` | xenon/core.py:50-51 | splitting a join of separator-free pieces gives those pieces back, so the split is determined |
| `PyStr.StripTrims` | xenon/core.py:52 | `s.strip()` is the slice of `s` left after removing a leading and a trailing run of whitespace; neither of its ends is whitespace; whitespace-free text is unchanged |
| `IgnoreBlocks.AddEntry` | xenon/core.py:51-52 | one loop step fails exactly when the entry does not split into two parts on `:` |
| `IgnoreBlocks.AddEntryEffect` | xenon/core.py:51-52 | a malformed entry fails with its text and part count; a well-formed one appends its stripped block name to its stripped module's list, adds that module as a key, and leaves every other module's list unchanged |
| `IgnoreBlocks.BuildBlocksToIgnore` | xenon/core.py:39-54 | an absent or empty spec gives the empty map and never fails; otherwise the result is the left-to-right parse of the comma-separated entries, stopping at the first malformed one |
| `IgnoreBlocks.FailureIsFinal` | xenon/core.py:50-51 | once a prefix of the entries fails, the whole parse fails with that same error |
| `IgnoreBlocks.WellFormedParses` | xenon/core.py:50-52 | a spec whose every entry has exactly one colon parses successfully |
| `IgnoreBlocks.MalformedPrefixFails` | xenon/core.py:50-51 | a malformed entry anywhere makes the parse fail, so no entry is silently dropped |
| `IgnoreBlocks.FailureNamesFirstMalformed` | xenon/core.py:50-51 | a failed parse reports the first malformed entry, and every entry before it is well formed |
| `IgnoreBlocks.ParsedLookup` | xenon/core.py:48-54 | after a successful parse, each module's list is exactly the block names of its own entries, in entry order, accumulated over repeated modules; a module is a key exactly when it has an entry |
| `IgnoreBlocks.NoColonFails` | xenon/core.py:50-51 | a non-empty spec with no comma and no colon fails as one malformed entry with one part |
| `IgnoreBlocks.SingleEntry` | xenon/core.py:48-54 | a one-entry spec maps the stripped module name to a list holding only the stripped block name |
| `IgnoreBlocks.SingleEntryExample` | xenon/core.py:48-54 | `"m1:f"` parses to `{m1: [f]}` |
| `Infractions.ScanBlocks` | xenon/core.py:85-91 | the inner loop gives the module's summed complexity, the number of its non-ignored blocks whose rank exceeds the absolute ceiling, and one error event per such block, in block order |
| `Infractions.ScanResults` | xenon/core.py:80-94 | the outer loop gives the block infractions, the pass log (one warning per unparsable module, then each module's block errors, in result-set order), the module averages and `total_cc` and `total_blocks` of the whole result set |
| `Infractions.CheckModuleAverages` | xenon/core.py:106-110 | the final loop counts and logs, in recorded order, every module whose average's rank exceeds the module ceiling |
| `Infractions.FindInfractions` | xenon/core.py:67-111 | a malformed ignore spec fails before anything is logged; otherwise the count is the sum of the four axes and the log is the pass log, then the numeric-average event, then the average-rank event, then the module events |
| `InfractionLaws.BlockLogCounts` | xenon/core.py:85-91 | a module's block log has one error per violating block and no warnings |
| `InfractionLaws.PassLogCounts` | xenon/core.py:80-94 | the first pass logs one error per block infraction and one warning per unparsable module |
| `InfractionLaws.AverageLogsCounts` | xenon/core.py:99-105 | each codebase check logs one error exactly when it fails, and nothing else |
| `InfractionLaws.ModuleRankLogCounts` | xenon/core.py:106-110 | the module checks log one error per failing module and no warnings |
| `InfractionLaws.LogMatchesCount` | xenon/core.py:76-111 | the returned count equals the number of error events, and the warnings equal the number of unparsable modules |
| `InfractionLaws.PassLogAppend` | xenon/core.py:80-94 | the pass log of `a + b` is the log of `a` followed by the log of `b`, so events follow result-set order |
| `InfractionLaws.BlockInfractionsAppend` | xenon/core.py:85-91 | block infractions add up over concatenated result sets |
| `InfractionLaws.ModuleAveragesAppend` | xenon/core.py:92 | module averages are recorded in result-set order |
| `InfractionLaws.TotalsAppend` | xenon/core.py:93-94 | `total_cc` and `total_blocks` add up over concatenated result sets |
| `InfractionLaws.ParseErrorAlone` | xenon/core.py:82-84 | a lone unparsable module logs one warning and contributes no infraction, no module average and no totals |
| `InfractionLaws.ParseErrorIsInert` | xenon/core.py:82-84 | inserting an unparsable module anywhere leaves `total_cc`, `total_blocks`, the module averages and the block infractions unchanged |
| `InfractionLaws.ParseErrorOnlyWarns` | xenon/core.py:82-84 | inserting an unparsable module leaves the count unchanged and adds exactly its warning, at its place in the log |
| `InfractionLaws.BlockLogNotIgnored` | xenon/core.py:88-90 | every event in a module's block log is a block event for that module whose name is not ignored there |
| `InfractionLaws.PassLogNotIgnored` | xenon/core.py:80-94 | no block event in the first pass names a block that is ignored for its module |
| `InfractionLaws.ModuleRankLogKinds` | xenon/core.py:106-110 | the final loop logs only module events |
| `InfractionLaws.IgnoredBlocksNotReported` | xenon/core.py:88 | no block error is ever logged for a block name that is ignored for its module |
| `InfractionLaws.BlockCountMonotone` | xenon/core.py:88 | ignoring more names in a module never raises that module's block count |
| `InfractionLaws.BlockInfractionsMonotone` | xenon/core.py:85-94 | ignoring more names never raises the block infractions |
| `InfractionLaws.IgnoringMoreNeverAdds` | xenon/core.py:85-111 | ignoring more names never raises the count, and the whole difference comes from the per-block axis |
| `InfractionLaws.NoAbsoluteNoBlockCount` | xenon/core.py:88 | with no absolute ceiling, no block of a module counts |
| `InfractionLaws.NoAbsoluteNoBlockErrors` | xenon/core.py:85-94 | with no absolute ceiling, there are no block infractions |
| `InfractionLaws.NoModulesCeilingNoModuleErrors` | xenon/core.py:106-110 | with no module ceiling, no module counts |
| `InfractionLaws.UnsetCeilingsCountNothing` | xenon/core.py:96-111 | with no ceiling of any kind, the count is 0 and no error is logged, whatever the results |
| `InfractionLaws.SumCcBounded` | xenon/core.py:86 | a module's summed complexity is at most its block count times any bound on its blocks |
| `InfractionLaws.SumCcAtLeast` | xenon/core.py:86 | a module's summed complexity is at least its block count times any lower bound on its blocks |
| `InfractionLaws.ModuleAverageBetween` | xenon/core.py:86-92 | a module's average lies between its simplest and its most complex block |
| `InfractionLaws.ModulePassesWhenEveryBlockPasses` | xenon/core.py:92-108 | scores are averaged before ranking, so with a monotone ranker a non-empty module cannot fail a ceiling that each of its blocks passes |
| `InfractionLaws.ExampleRankEqualToCeiling` | xenon/core.py:85-91 | a block ranked A under an absolute ceiling of `"A"` counts nothing and logs nothing |
| `InfractionLaws.ExampleBlockOverCeiling` | xenon/core.py:85-91 | a block ranked F under an absolute ceiling of `"B"` gives one infraction and one block error |
| `InfractionLaws.ExampleIgnoredBlockStillAveraged` | xenon/core.py:85-101 | with `"m1:f"` ignored, the block's error is silenced, but its score 45 still fails a numeric average ceiling of 10 |
| `InfractionLaws.ExampleParseErrorOnly` | xenon/core.py:82-111 | an unparsable module under every ceiling gives one warning and no infraction; the codebase checks still run, on the average 0 of no blocks |

## Left out

- `analyze` (xenon/core.py:12-36) is not part of this model. It builds a radon
  configuration, runs radon's harvester over files on disk, and converts the
  results. That is file I/O and a foreign library. The model starts from the
  result set that call produces.
- radon's `cc_rank` and its score breakpoints are represented by the parameter
  `rankOf`, which is any pure total function from score to rank.
  `InfractionLaws.ModulePassesWhenEveryBlockPasses` additionally assumes that
  this function is monotone.
- The logger backend and the `%`-formatting of messages are left out. Events
  carry the arguments of each log call, not the rendered text, so the
  difference between `%r` and `%s` is not modelled.
- Scores are Dafny `real` with exact division. Float rounding in `module_cc`,
  `total_cc` and `av` is not modelled.
- A result dict whose `'error'` value is falsy would be iterated as a block
  list in Python (xenon/core.py:82). The model uses the tagged union
  `Blocks | ParseError` instead.
- `Ranks.Check`: `str.upper()` is modelled for ASCII letters only. Non-ASCII
  characters, and the few whose upper case spans several characters, are left
  as they are. A ceiling that is not a string, which would raise in Python, is
  not modelled.
- `Infractions.FindInfractions`: its three loops are separate methods.
  `ScanResults` is the loop over the result set, `ScanBlocks` is the loop over
  one module's blocks, and `CheckModuleAverages` is the loop over the module
  averages. Each returns what its Python loop adds to `infractions`,
  `module_cc`, the totals and the log, and the caller adds it. The order of
  events and the count are the same.
- The result set is a sequence of `(module, result)` pairs in dictionary
  iteration order. The model does not require module names to be unique.
  Duplicates could not arise from a Python dict, and they would not change
  any stated property.
- The multi-entry example `"mod_a:f1, mod_a:f2 , mod_b:g"` is not proved as a
  literal. The verifier unrolls recursive string functions on long literals
  too far. `IgnoreBlocks.ParsedLookup` states the general rule that covers it,
  and `IgnoreBlocks.SingleEntryExample` checks a one-entry literal.
- Three behaviours of `xenon/core.py` worth stating:
  - Ignore lists are Python lists, not sets. Repeated entries are kept, which
    does not change membership.
  - For a codebase whose only module is unparsable, the codebase average
    checks still run on the average 0 of no blocks
    (`InfractionLaws.ExampleParseErrorOnly`).
  - A trailing comma, or any empty entry in a non-empty spec, is a malformed
    entry and fails.
