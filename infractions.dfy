/**
 * The evaluator `find_infractions` of xenon/core.py.
 *
 * One pass over the result set, module by module in order: a module that could
 * not be parsed logs a warning and is skipped; otherwise each block whose rank
 * exceeds the absolute ceiling, and whose name is not ignored for its module,
 * logs an error and counts, and the module's summed complexity and block count
 * feed its average and the codebase totals. Then the numeric codebase average,
 * the codebase average rank and each module's average rank are checked, in that
 * order. The complexity ranker (radon's `cc_rank`) is the parameter `rankOf`.
 */
module Infractions {
  import opened Wrappers
  import opened Ranks
  import opened Averages
  import opened IgnoreBlocks

  /** One analysed block, `{name, lineno, complexity}`. */
  datatype Block = Block(name: string, lineno: int, complexity: real)

  /** What the analyser produced for one module: its blocks, or an `{'error': ...}` marker. */
  datatype ModuleResult = Blocks(blocks: seq<Block>) | ParseError(error: string)

  /** The result dictionary, in its iteration order. */
  type ResultSet = seq<(string, ModuleResult)>

  /** The attributes of `args` the evaluator reads. */
  datatype Args = Args(
    absolute: Option<string>,
    modules: Option<string>,
    average: Option<string>,
    averagenum: Option<real>,
    ignoreBlocks: Option<string>)

  datatype Severity = Warning | Error

  /** The logger calls, one constructor per message template, with their arguments. */
  datatype Message =
    | CannotParse(moduleName: string, error: string)
    | BlockRanked(moduleName: string, lineno: int, name: string, rank: Rank)
    | TotalAverageTooHigh(average: real)
    | AverageRanked(rank: Rank)
    | ModuleRanked(moduleName: string, rank: Rank)

  datatype Event = Event(severity: Severity, message: Message)

  // ---------------------------------------------------------------------------
  // The first pass, as functions of a prefix of the result set

  /** The per-block check: the block's rank exceeds the absolute ceiling and its name is not ignored. */
  predicate Violates(moduleName: string, b: Block, args: Args, ignore: IgnoreMap, rankOf: real -> Rank) {
    Check(rankOf(b.complexity), args.absolute) && b.name !in Lookup(ignore, moduleName)
  }

  function SumCc(blocks: seq<Block>): real {
    if |blocks| == 0 then 0.0 else SumCc(blocks[..|blocks| - 1]) + blocks[|blocks| - 1].complexity
  }

  /** The errors logged for the blocks of one module, in block order. */
  function BlockLog(moduleName: string, blocks: seq<Block>, args: Args, ignore: IgnoreMap, rankOf: real -> Rank): seq<Event> {
    if |blocks| == 0 then []
    else
      var b := blocks[|blocks| - 1];
      BlockLog(moduleName, blocks[..|blocks| - 1], args, ignore, rankOf)
        + if Violates(moduleName, b, args, ignore, rankOf)
          then [Event(Error, BlockRanked(moduleName, b.lineno, b.name, rankOf(b.complexity)))]
          else []
  }

  /** The number of blocks of one module that violate the per-block check. */
  function BlockCount(moduleName: string, blocks: seq<Block>, args: Args, ignore: IgnoreMap, rankOf: real -> Rank): nat {
    if |blocks| == 0 then 0
    else
      BlockCount(moduleName, blocks[..|blocks| - 1], args, ignore, rankOf)
        + if Violates(moduleName, blocks[|blocks| - 1], args, ignore, rankOf) then 1 else 0
  }

  /** What one module adds to the log during the first pass. */
  function ModuleLog(entry: (string, ModuleResult), args: Args, ignore: IgnoreMap, rankOf: real -> Rank): seq<Event> {
    match entry.1
    case ParseError(e) => [Event(Warning, CannotParse(entry.0, e))]
    case Blocks(bs) => BlockLog(entry.0, bs, args, ignore, rankOf)
  }

  function PassLog(results: ResultSet, args: Args, ignore: IgnoreMap, rankOf: real -> Rank): seq<Event> {
    if |results| == 0 then []
    else PassLog(results[..|results| - 1], args, ignore, rankOf) + ModuleLog(results[|results| - 1], args, ignore, rankOf)
  }

  /** The number of violating blocks in the whole result set. */
  function BlockInfractions(results: ResultSet, args: Args, ignore: IgnoreMap, rankOf: real -> Rank): nat {
    if |results| == 0 then 0
    else
      var entry := results[|results| - 1];
      BlockInfractions(results[..|results| - 1], args, ignore, rankOf)
        + match entry.1
          case ParseError(_) => 0
          case Blocks(bs) => BlockCount(entry.0, bs, args, ignore, rankOf)
  }

  /** `module_averages`: one `(module, average)` pair per parsed module, in order. */
  function ModuleAverages(results: ResultSet): seq<(string, real)> {
    if |results| == 0 then []
    else
      var entry := results[|results| - 1];
      ModuleAverages(results[..|results| - 1])
        + match entry.1
          case ParseError(_) => []
          case Blocks(bs) => [(entry.0, Av(SumCc(bs), |bs|))]
  }

  /** `total_cc`. */
  function TotalCc(results: ResultSet): real {
    if |results| == 0 then 0.0
    else
      TotalCc(results[..|results| - 1])
        + match results[|results| - 1].1
          case ParseError(_) => 0.0
          case Blocks(bs) => SumCc(bs)
  }

  /** `total_blocks`. */
  function TotalBlocks(results: ResultSet): nat {
    if |results| == 0 then 0
    else
      TotalBlocks(results[..|results| - 1])
        + match results[|results| - 1].1
          case ParseError(_) => 0
          case Blocks(bs) => |bs|
  }

  /** The number of modules that could not be parsed. */
  function ParseErrors(results: ResultSet): nat {
    if |results| == 0 then 0
    else ParseErrors(results[..|results| - 1]) + if results[|results| - 1].1.ParseError? then 1 else 0
  }

  // ---------------------------------------------------------------------------
  // The checks after the pass

  /** `av_cc`. */
  function CodebaseAverage(results: ResultSet): real {
    Av(TotalCc(results), TotalBlocks(results))
  }

  predicate AverageNumExceeded(results: ResultSet, args: Args) {
    args.averagenum.Some? && CodebaseAverage(results) > args.averagenum.value
  }

  predicate AverageRankExceeded(results: ResultSet, args: Args, rankOf: real -> Rank) {
    Check(rankOf(CodebaseAverage(results)), args.average)
  }

  function AverageNumLog(results: ResultSet, args: Args): seq<Event> {
    if AverageNumExceeded(results, args) then [Event(Error, TotalAverageTooHigh(CodebaseAverage(results)))] else []
  }

  function AverageRankLog(results: ResultSet, args: Args, rankOf: real -> Rank): seq<Event> {
    if AverageRankExceeded(results, args, rankOf) then [Event(Error, AverageRanked(rankOf(CodebaseAverage(results))))] else []
  }

  /** The per-module check: the rank of the module's average exceeds the module ceiling. */
  predicate ModuleExceeds(average: (string, real), args: Args, rankOf: real -> Rank) {
    Check(rankOf(average.1), args.modules)
  }

  function ModuleRankLog(averages: seq<(string, real)>, args: Args, rankOf: real -> Rank): seq<Event> {
    if |averages| == 0 then []
    else
      var a := averages[|averages| - 1];
      ModuleRankLog(averages[..|averages| - 1], args, rankOf)
        + if ModuleExceeds(a, args, rankOf) then [Event(Error, ModuleRanked(a.0, rankOf(a.1)))] else []
  }

  function ModuleRankCount(averages: seq<(string, real)>, args: Args, rankOf: real -> Rank): nat {
    if |averages| == 0 then 0
    else
      ModuleRankCount(averages[..|averages| - 1], args, rankOf)
        + if ModuleExceeds(averages[|averages| - 1], args, rankOf) then 1 else 0
  }

  /** The whole log of one evaluation. */
  function Log(results: ResultSet, args: Args, ignore: IgnoreMap, rankOf: real -> Rank): seq<Event> {
    PassLog(results, args, ignore, rankOf) + AverageNumLog(results, args) + AverageRankLog(results, args, rankOf)
      + ModuleRankLog(ModuleAverages(results), args, rankOf)
  }

  /** The infraction count: the sum of the four independent axes. */
  function Count(results: ResultSet, args: Args, ignore: IgnoreMap, rankOf: real -> Rank): nat {
    BlockInfractions(results, args, ignore, rankOf)
      + (if AverageNumExceeded(results, args) then 1 else 0)
      + (if AverageRankExceeded(results, args, rankOf) then 1 else 0)
      + ModuleRankCount(ModuleAverages(results), args, rankOf)
  }

  // ---------------------------------------------------------------------------
  // The evaluator

  /**
   * The inner loop of `find_infractions` over one module's blocks: it sums
   * their complexities and logs and counts each violating block, in order.
   */
  method ScanBlocks(moduleName: string, blocks: seq<Block>, args: Args, ignore: IgnoreMap, rankOf: real -> Rank)
    returns (moduleCc: real, infractions: nat, log: seq<Event>)
    ensures moduleCc == SumCc(blocks)
    ensures infractions == BlockCount(moduleName, blocks, args, ignore, rankOf)
    ensures log == BlockLog(moduleName, blocks, args, ignore, rankOf)
  {
    moduleCc, infractions, log := 0.0, 0, [];
    var j := 0;
    while j < |blocks|
      invariant 0 <= j <= |blocks|
      invariant moduleCc == SumCc(blocks[..j])
      invariant infractions == BlockCount(moduleName, blocks[..j], args, ignore, rankOf)
      invariant log == BlockLog(moduleName, blocks[..j], args, ignore, rankOf)
    {
      assert blocks[..j + 1][..j] == blocks[..j];
      var block := blocks[j];
      moduleCc := moduleCc + block.complexity;
      var r := rankOf(block.complexity);
      if Check(r, args.absolute) && block.name !in Lookup(ignore, moduleName) {
        log := log + [Event(Error, BlockRanked(moduleName, block.lineno, block.name, r))];
        infractions := infractions + 1;
      }
      j := j + 1;
    }
    assert blocks[..j] == blocks;
  }

  /** The final loop of `find_infractions`: logs and counts each module whose average rank exceeds the ceiling. */
  method CheckModuleAverages(moduleAverages: seq<(string, real)>, args: Args, rankOf: real -> Rank)
    returns (infractions: nat, log: seq<Event>)
    ensures infractions == ModuleRankCount(moduleAverages, args, rankOf)
    ensures log == ModuleRankLog(moduleAverages, args, rankOf)
  {
    infractions, log := 0, [];
    var k := 0;
    while k < |moduleAverages|
      invariant 0 <= k <= |moduleAverages|
      invariant infractions == ModuleRankCount(moduleAverages[..k], args, rankOf)
      invariant log == ModuleRankLog(moduleAverages[..k], args, rankOf)
    {
      assert moduleAverages[..k + 1][..k] == moduleAverages[..k];
      var (moduleName, ma) := moduleAverages[k];
      var mar := rankOf(ma);
      if Check(mar, args.modules) {
        log := log + [Event(Error, ModuleRanked(moduleName, mar))];
        infractions := infractions + 1;
      }
      k := k + 1;
    }
    assert moduleAverages[..k] == moduleAverages;
  }

  /**
   * The outer loop of `find_infractions` over the result set: it warns about
   * each unparsable module, scans the blocks of every other one, and gathers
   * the module averages and the codebase totals, module by module in order.
   */
  method ScanResults(results: ResultSet, args: Args, ignore: IgnoreMap, rankOf: real -> Rank)
    returns (infractions: nat, log: seq<Event>, moduleAverages: seq<(string, real)>, totalCc: real, totalBlocks: nat)
    ensures infractions == BlockInfractions(results, args, ignore, rankOf)
    ensures log == PassLog(results, args, ignore, rankOf)
    ensures moduleAverages == ModuleAverages(results)
    ensures totalCc == TotalCc(results)
    ensures totalBlocks == TotalBlocks(results)
  {
    infractions, log, moduleAverages, totalCc, totalBlocks := 0, [], [], 0.0, 0;
    var i := 0;
    while i < |results|
      invariant 0 <= i <= |results|
      invariant infractions == BlockInfractions(results[..i], args, ignore, rankOf)
      invariant log == PassLog(results[..i], args, ignore, rankOf)
      invariant moduleAverages == ModuleAverages(results[..i])
      invariant totalCc == TotalCc(results[..i])
      invariant totalBlocks == TotalBlocks(results[..i])
    {
      assert results[..i + 1][..i] == results[..i];
      var (moduleName, result) := results[i];
      if result.ParseError? {
        log := log + [Event(Warning, CannotParse(moduleName, result.error))];
      } else {
        var blocks := result.blocks;
        var moduleCc, found, events := ScanBlocks(moduleName, blocks, args, ignore, rankOf);
        log := log + events;
        infractions := infractions + found;
        moduleAverages := moduleAverages + [(moduleName, Av(moduleCc, |blocks|))];
        totalCc := totalCc + moduleCc;
        totalBlocks := totalBlocks + |blocks|;
      }
      i := i + 1;
    }
    assert results[..i] == results;
  }

  /**
   * `find_infractions(args, logger, results)`: a malformed ignore spec fails
   * before anything is logged; otherwise the count is the sum of the four axes
   * and `log` is every logged event, in order.
   */
  method FindInfractions(args: Args, results: ResultSet, rankOf: real -> Rank)
    returns (outcome: Result<nat, IgnoreError>, log: seq<Event>)
    ensures IgnoreSpec(args.ignoreBlocks).Failure? ==>
      outcome == Failure(IgnoreSpec(args.ignoreBlocks).error) && log == []
    ensures IgnoreSpec(args.ignoreBlocks).Success? ==>
      outcome == Success(Count(results, args, IgnoreSpec(args.ignoreBlocks).value, rankOf))
      && log == Log(results, args, IgnoreSpec(args.ignoreBlocks).value, rankOf)
  {
    var parsed := BuildBlocksToIgnore(args.ignoreBlocks);
    if parsed.Failure? {
      return Failure(parsed.error), [];
    }
    var blocksToIgnore := parsed.value;
    var infractions, moduleAverages, totalCc, totalBlocks;
    infractions, log, moduleAverages, totalCc, totalBlocks := ScanResults(results, args, blocksToIgnore, rankOf);

    var avCc := Av(totalCc, totalBlocks);
    var ar := rankOf(avCc);
    if args.averagenum.Some? && avCc > args.averagenum.value {
      log := log + [Event(Error, TotalAverageTooHigh(avCc))];
      infractions := infractions + 1;
    }
    if Check(ar, args.average) {
      log := log + [Event(Error, AverageRanked(ar))];
      infractions := infractions + 1;
    }
    var found, events := CheckModuleAverages(moduleAverages, args, rankOf);
    log := log + events;
    outcome := Success(infractions + found);
  }
}
