/**
 * What `find_infractions` promises, stated about the functions that its
 * method is proved against: the count is the number of error events, parse
 * errors are inert, the ignore list only silences block errors, unset
 * ceilings count nothing, and averages are taken before ranking.
 */
module InfractionLaws {
  import opened Wrappers
  import opened Ranks
  import opened Averages
  import opened IgnoreBlocks
  import opened Infractions
  import opened PyStr

  /** The number of events of the given severity. */
  function CountOf(events: seq<Event>, severity: Severity): nat {
    if |events| == 0 then 0
    else CountOf(events[..|events| - 1], severity) + if events[|events| - 1].severity == severity then 1 else 0
  }

  lemma {:induction false} CountOfAppend(a: seq<Event>, b: seq<Event>, severity: Severity)
    ensures CountOf(a + b, severity) == CountOf(a, severity) + CountOf(b, severity)
  {
    if |b| == 0 {
      assert a + b == a;
    } else {
      CountOfAppend(a, b[..|b| - 1], severity);
      assert (a + b)[..|a + b| - 1] == a + b[..|b| - 1];
    }
  }

  lemma CountOfSingle(e: Event, severity: Severity)
    ensures CountOf([e], severity) == if e.severity == severity then 1 else 0
  {
    assert [e][..0] == [];
  }

  // ---------------------------------------------------------------------------
  // Each infraction is exactly one error event

  lemma {:induction false} BlockLogCounts(moduleName: string, blocks: seq<Block>, args: Args, ignore: IgnoreMap, rankOf: real -> Rank)
    ensures CountOf(BlockLog(moduleName, blocks, args, ignore, rankOf), Error) == BlockCount(moduleName, blocks, args, ignore, rankOf)
    ensures CountOf(BlockLog(moduleName, blocks, args, ignore, rankOf), Warning) == 0
  {
    if |blocks| > 0 {
      var init := blocks[..|blocks| - 1];
      var b := blocks[|blocks| - 1];
      BlockLogCounts(moduleName, init, args, ignore, rankOf);
      var tail := if Violates(moduleName, b, args, ignore, rankOf)
        then [Event(Error, BlockRanked(moduleName, b.lineno, b.name, rankOf(b.complexity)))] else [];
      CountOfAppend(BlockLog(moduleName, init, args, ignore, rankOf), tail, Error);
      CountOfAppend(BlockLog(moduleName, init, args, ignore, rankOf), tail, Warning);
    }
  }

  lemma {:induction false} PassLogCounts(results: ResultSet, args: Args, ignore: IgnoreMap, rankOf: real -> Rank)
    ensures CountOf(PassLog(results, args, ignore, rankOf), Error) == BlockInfractions(results, args, ignore, rankOf)
    ensures CountOf(PassLog(results, args, ignore, rankOf), Warning) == ParseErrors(results)
  {
    if |results| > 0 {
      var init := results[..|results| - 1];
      var entry := results[|results| - 1];
      PassLogCounts(init, args, ignore, rankOf);
      CountOfAppend(PassLog(init, args, ignore, rankOf), ModuleLog(entry, args, ignore, rankOf), Error);
      CountOfAppend(PassLog(init, args, ignore, rankOf), ModuleLog(entry, args, ignore, rankOf), Warning);
      if entry.1.Blocks? {
        BlockLogCounts(entry.0, entry.1.blocks, args, ignore, rankOf);
      } else {
        assert ModuleLog(entry, args, ignore, rankOf) == [Event(Warning, CannotParse(entry.0, entry.1.error))];
        assert [Event(Warning, CannotParse(entry.0, entry.1.error))][..0] == [];
      }
    }
  }

  lemma {:induction false} ModuleRankLogCounts(averages: seq<(string, real)>, args: Args, rankOf: real -> Rank)
    ensures CountOf(ModuleRankLog(averages, args, rankOf), Error) == ModuleRankCount(averages, args, rankOf)
    ensures CountOf(ModuleRankLog(averages, args, rankOf), Warning) == 0
  {
    if |averages| > 0 {
      var init := averages[..|averages| - 1];
      var a := averages[|averages| - 1];
      ModuleRankLogCounts(init, args, rankOf);
      var tail := if ModuleExceeds(a, args, rankOf) then [Event(Error, ModuleRanked(a.0, rankOf(a.1)))] else [];
      CountOfAppend(ModuleRankLog(init, args, rankOf), tail, Error);
      CountOfAppend(ModuleRankLog(init, args, rankOf), tail, Warning);
    }
  }

  lemma AverageLogsCounts(results: ResultSet, args: Args, rankOf: real -> Rank, severity: Severity)
    ensures CountOf(AverageNumLog(results, args), severity)
      == if severity == Error && AverageNumExceeded(results, args) then 1 else 0
    ensures CountOf(AverageRankLog(results, args, rankOf), severity)
      == if severity == Error && AverageRankExceeded(results, args, rankOf) then 1 else 0
  {
    var average := CodebaseAverage(results);
    CountOfSingle(Event(Error, TotalAverageTooHigh(average)), severity);
    CountOfSingle(Event(Error, AverageRanked(rankOf(average))), severity);
  }

  /**
   * The returned count equals the number of error events logged, and the
   * warnings are exactly one per module that could not be parsed.
   */
  lemma LogMatchesCount(results: ResultSet, args: Args, ignore: IgnoreMap, rankOf: real -> Rank)
    ensures CountOf(Log(results, args, ignore, rankOf), Error) == Count(results, args, ignore, rankOf)
    ensures CountOf(Log(results, args, ignore, rankOf), Warning) == ParseErrors(results)
  {
    var pass := PassLog(results, args, ignore, rankOf);
    var num := AverageNumLog(results, args);
    var rank := AverageRankLog(results, args, rankOf);
    var modules := ModuleRankLog(ModuleAverages(results), args, rankOf);
    PassLogCounts(results, args, ignore, rankOf);
    ModuleRankLogCounts(ModuleAverages(results), args, rankOf);
    forall severity | true
      ensures CountOf(pass + num + rank + modules, severity)
        == CountOf(pass, severity) + CountOf(num, severity) + CountOf(rank, severity) + CountOf(modules, severity)
    {
      CountOfAppend(pass + num + rank, modules, severity);
      CountOfAppend(pass + num, rank, severity);
      CountOfAppend(pass, num, severity);
    }
    AverageLogsCounts(results, args, rankOf, Error);
    AverageLogsCounts(results, args, rankOf, Warning);
  }

  // ---------------------------------------------------------------------------
  // A module that could not be parsed contributes only its warning

  /** The log of the first pass over `a + b` is that of `a` followed by that of `b`. */
  lemma {:induction false} PassLogAppend(a: ResultSet, b: ResultSet, args: Args, ignore: IgnoreMap, rankOf: real -> Rank)
    ensures PassLog(a + b, args, ignore, rankOf) == PassLog(a, args, ignore, rankOf) + PassLog(b, args, ignore, rankOf)
  {
    if |b| == 0 {
      assert a + b == a;
    } else {
      PassLogAppend(a, b[..|b| - 1], args, ignore, rankOf);
      assert (a + b)[..|a + b| - 1] == a + b[..|b| - 1];
    }
  }

  lemma {:induction false} BlockInfractionsAppend(a: ResultSet, b: ResultSet, args: Args, ignore: IgnoreMap, rankOf: real -> Rank)
    ensures BlockInfractions(a + b, args, ignore, rankOf) == BlockInfractions(a, args, ignore, rankOf) + BlockInfractions(b, args, ignore, rankOf)
  {
    if |b| == 0 {
      assert a + b == a;
    } else {
      BlockInfractionsAppend(a, b[..|b| - 1], args, ignore, rankOf);
      assert (a + b)[..|a + b| - 1] == a + b[..|b| - 1];
    }
  }

  lemma {:induction false} ModuleAveragesAppend(a: ResultSet, b: ResultSet)
    ensures ModuleAverages(a + b) == ModuleAverages(a) + ModuleAverages(b)
  {
    if |b| == 0 {
      assert a + b == a;
    } else {
      ModuleAveragesAppend(a, b[..|b| - 1]);
      assert (a + b)[..|a + b| - 1] == a + b[..|b| - 1];
    }
  }

  lemma {:induction false} TotalsAppend(a: ResultSet, b: ResultSet)
    ensures TotalCc(a + b) == TotalCc(a) + TotalCc(b)
    ensures TotalBlocks(a + b) == TotalBlocks(a) + TotalBlocks(b)
  {
    if |b| == 0 {
      assert a + b == a;
    } else {
      TotalsAppend(a, b[..|b| - 1]);
      assert (a + b)[..|a + b| - 1] == a + b[..|b| - 1];
    }
  }

  /** The first pass over a single module that could not be parsed. */
  lemma ParseErrorAlone(moduleName: string, error: string, args: Args, ignore: IgnoreMap, rankOf: real -> Rank)
    ensures var single: ResultSet := [(moduleName, ParseError(error))];
      && PassLog(single, args, ignore, rankOf) == [Event(Warning, CannotParse(moduleName, error))]
      && BlockInfractions(single, args, ignore, rankOf) == 0
      && ModuleAverages(single) == []
      && TotalCc(single) == 0.0 && TotalBlocks(single) == 0
  {
    var single: ResultSet := [(moduleName, ParseError(error))];
    assert single[..0] == [];
  }

  /**
   * A module whose result is an error marker changes no total, no module
   * average and no count.
   */
  lemma ParseErrorIsInert(pre: ResultSet, post: ResultSet, moduleName: string, error: string,
                          args: Args, ignore: IgnoreMap, rankOf: real -> Rank)
    ensures var with := pre + [(moduleName, ParseError(error))] + post;
      && TotalCc(with) == TotalCc(pre + post)
      && TotalBlocks(with) == TotalBlocks(pre + post)
      && ModuleAverages(with) == ModuleAverages(pre + post)
      && BlockInfractions(with, args, ignore, rankOf) == BlockInfractions(pre + post, args, ignore, rankOf)
  {
    var single: ResultSet := [(moduleName, ParseError(error))];
    ParseErrorAlone(moduleName, error, args, ignore, rankOf);
    BlockInfractionsAppend(pre, single, args, ignore, rankOf);
    BlockInfractionsAppend(pre + single, post, args, ignore, rankOf);
    BlockInfractionsAppend(pre, post, args, ignore, rankOf);
    ModuleAveragesAppend(pre, single);
    ModuleAveragesAppend(pre + single, post);
    ModuleAveragesAppend(pre, post);
    TotalsAppend(pre, single);
    TotalsAppend(pre + single, post);
    TotalsAppend(pre, post);
    assert pre + single == pre + [(moduleName, ParseError(error))];
    assert pre + [] == pre;
  }

  /**
   * So an error module leaves the infraction count as it is, and adds to the
   * log exactly its one warning, at its place in the first pass.
   */
  lemma ParseErrorOnlyWarns(pre: ResultSet, post: ResultSet, moduleName: string, error: string,
                            args: Args, ignore: IgnoreMap, rankOf: real -> Rank)
    ensures var with := pre + [(moduleName, ParseError(error))] + post;
      && Count(with, args, ignore, rankOf) == Count(pre + post, args, ignore, rankOf)
      && Log(with, args, ignore, rankOf)
         == PassLog(pre, args, ignore, rankOf) + [Event(Warning, CannotParse(moduleName, error))]
            + PassLog(post, args, ignore, rankOf)
            + AverageNumLog(pre + post, args) + AverageRankLog(pre + post, args, rankOf)
            + ModuleRankLog(ModuleAverages(pre + post), args, rankOf)
  {
    var single: ResultSet := [(moduleName, ParseError(error))];
    var with := pre + single + post;
    ParseErrorIsInert(pre, post, moduleName, error, args, ignore, rankOf);
    ParseErrorAlone(moduleName, error, args, ignore, rankOf);
    PassLogAppend(pre, single, args, ignore, rankOf);
    PassLogAppend(pre + single, post, args, ignore, rankOf);
    assert CodebaseAverage(with) == CodebaseAverage(pre + post);
  }

  // ---------------------------------------------------------------------------
  // The ignore list silences only block errors

  lemma {:induction false} BlockLogNotIgnored(moduleName: string, blocks: seq<Block>, args: Args, ignore: IgnoreMap, rankOf: real -> Rank)
    ensures forall e :: e in BlockLog(moduleName, blocks, args, ignore, rankOf) ==>
      e.message.BlockRanked? && e.message.moduleName == moduleName && e.message.name !in Lookup(ignore, moduleName)
  {
    if |blocks| > 0 {
      BlockLogNotIgnored(moduleName, blocks[..|blocks| - 1], args, ignore, rankOf);
    }
  }

  lemma {:induction false} PassLogNotIgnored(results: ResultSet, args: Args, ignore: IgnoreMap, rankOf: real -> Rank)
    ensures forall e :: e in PassLog(results, args, ignore, rankOf) && e.message.BlockRanked? ==>
      e.message.name !in Lookup(ignore, e.message.moduleName)
  {
    if |results| > 0 {
      var entry := results[|results| - 1];
      PassLogNotIgnored(results[..|results| - 1], args, ignore, rankOf);
      if entry.1.Blocks? {
        BlockLogNotIgnored(entry.0, entry.1.blocks, args, ignore, rankOf);
      }
    }
  }

  lemma {:induction false} ModuleRankLogKinds(averages: seq<(string, real)>, args: Args, rankOf: real -> Rank)
    ensures forall e :: e in ModuleRankLog(averages, args, rankOf) ==> e.message.ModuleRanked?
  {
    if |averages| > 0 {
      ModuleRankLogKinds(averages[..|averages| - 1], args, rankOf);
    }
  }

  /** No block error is ever logged for a block name that is ignored for its module. */
  lemma IgnoredBlocksNotReported(results: ResultSet, args: Args, ignore: IgnoreMap, rankOf: real -> Rank)
    ensures forall e :: e in Log(results, args, ignore, rankOf) && e.message.BlockRanked? ==>
      e.message.name !in Lookup(ignore, e.message.moduleName)
  {
    PassLogNotIgnored(results, args, ignore, rankOf);
    ModuleRankLogKinds(ModuleAverages(results), args, rankOf);
  }

  /** `big` ignores every block name that `small` ignores, module by module. */
  ghost predicate IgnoresAtLeast(big: IgnoreMap, small: IgnoreMap) {
    forall moduleName, name :: name in Lookup(small, moduleName) ==> name in Lookup(big, moduleName)
  }

  lemma {:induction false} BlockCountMonotone(moduleName: string, blocks: seq<Block>, args: Args,
                                              small: IgnoreMap, big: IgnoreMap, rankOf: real -> Rank)
    requires IgnoresAtLeast(big, small)
    ensures BlockCount(moduleName, blocks, args, big, rankOf) <= BlockCount(moduleName, blocks, args, small, rankOf)
  {
    if |blocks| > 0 {
      BlockCountMonotone(moduleName, blocks[..|blocks| - 1], args, small, big, rankOf);
    }
  }

  lemma {:induction false} BlockInfractionsMonotone(results: ResultSet, args: Args,
                                                    small: IgnoreMap, big: IgnoreMap, rankOf: real -> Rank)
    requires IgnoresAtLeast(big, small)
    ensures BlockInfractions(results, args, big, rankOf) <= BlockInfractions(results, args, small, rankOf)
  {
    if |results| > 0 {
      var entry := results[|results| - 1];
      BlockInfractionsMonotone(results[..|results| - 1], args, small, big, rankOf);
      if entry.1.Blocks? {
        BlockCountMonotone(entry.0, entry.1.blocks, args, small, big, rankOf);
      }
    }
  }

  /**
   * Ignoring more block names never adds infractions, and what it removes is
   * removed from the per-block axis alone: the averages and the other three
   * axes are those of the smaller ignore list.
   */
  lemma IgnoringMoreNeverAdds(results: ResultSet, args: Args, small: IgnoreMap, big: IgnoreMap, rankOf: real -> Rank)
    requires IgnoresAtLeast(big, small)
    ensures Count(results, args, big, rankOf) <= Count(results, args, small, rankOf)
    ensures Count(results, args, small, rankOf) - Count(results, args, big, rankOf)
      == BlockInfractions(results, args, small, rankOf) - BlockInfractions(results, args, big, rankOf)
  {
    BlockInfractionsMonotone(results, args, small, big, rankOf);
  }

  // ---------------------------------------------------------------------------
  // Unset ceilings

  lemma {:induction false} NoAbsoluteNoBlockErrors(results: ResultSet, args: Args, ignore: IgnoreMap, rankOf: real -> Rank)
    requires args.absolute.None?
    ensures BlockInfractions(results, args, ignore, rankOf) == 0
  {
    if |results| > 0 {
      var entry := results[|results| - 1];
      NoAbsoluteNoBlockErrors(results[..|results| - 1], args, ignore, rankOf);
      if entry.1.Blocks? {
        NoAbsoluteNoBlockCount(entry.0, entry.1.blocks, args, ignore, rankOf);
      }
    }
  }

  lemma {:induction false} NoAbsoluteNoBlockCount(moduleName: string, blocks: seq<Block>, args: Args, ignore: IgnoreMap, rankOf: real -> Rank)
    requires args.absolute.None?
    ensures BlockCount(moduleName, blocks, args, ignore, rankOf) == 0
  {
    if |blocks| > 0 {
      NoAbsoluteNoBlockCount(moduleName, blocks[..|blocks| - 1], args, ignore, rankOf);
    }
  }

  lemma {:induction false} NoModulesCeilingNoModuleErrors(averages: seq<(string, real)>, args: Args, rankOf: real -> Rank)
    requires args.modules.None?
    ensures ModuleRankCount(averages, args, rankOf) == 0
  {
    if |averages| > 0 {
      NoModulesCeilingNoModuleErrors(averages[..|averages| - 1], args, rankOf);
    }
  }

  /** With no ceiling set, nothing counts and no error is logged, whatever the results. */
  lemma UnsetCeilingsCountNothing(results: ResultSet, args: Args, ignore: IgnoreMap, rankOf: real -> Rank)
    requires args.absolute.None? && args.modules.None? && args.average.None? && args.averagenum.None?
    ensures Count(results, args, ignore, rankOf) == 0
    ensures CountOf(Log(results, args, ignore, rankOf), Error) == 0
  {
    NoAbsoluteNoBlockErrors(results, args, ignore, rankOf);
    NoModulesCeilingNoModuleErrors(ModuleAverages(results), args, rankOf);
    LogMatchesCount(results, args, ignore, rankOf);
  }

  // ---------------------------------------------------------------------------
  // Averages are taken before ranking

  /** `rankOf` never gives a better rank to a higher score. */
  ghost predicate MonotoneRanker(rankOf: real -> Rank) {
    forall x: real, y: real :: x <= y ==> rankOf(x).Ord() <= rankOf(y).Ord()
  }

  lemma {:induction false} SumCcBounded(blocks: seq<Block>, hi: real)
    requires forall b :: b in blocks ==> b.complexity <= hi
    ensures SumCc(blocks) <= (|blocks| as real) * hi
  {
    if |blocks| > 0 {
      var init := blocks[..|blocks| - 1];
      assert forall b :: b in init ==> b in blocks;
      SumCcBounded(init, hi);
      assert blocks[|blocks| - 1] in blocks;
      assert (|init| as real) * hi + hi == (|blocks| as real) * hi;
    }
  }

  lemma {:induction false} SumCcAtLeast(blocks: seq<Block>, lo: real)
    requires forall b :: b in blocks ==> lo <= b.complexity
    ensures (|blocks| as real) * lo <= SumCc(blocks)
  {
    if |blocks| > 0 {
      var init := blocks[..|blocks| - 1];
      assert forall b :: b in init ==> b in blocks;
      SumCcAtLeast(init, lo);
      assert blocks[|blocks| - 1] in blocks;
      assert (|init| as real) * lo + lo == (|blocks| as real) * lo;
    }
  }

  /** A non-empty list of blocks has a block of greatest complexity. */
  lemma {:induction false} MostComplexBlock(blocks: seq<Block>) returns (k: nat)
    requires |blocks| > 0
    ensures k < |blocks| && forall b :: b in blocks ==> b.complexity <= blocks[k].complexity
  {
    if |blocks| == 1 {
      k := 0;
    } else {
      var init := blocks[..|blocks| - 1];
      k := MostComplexBlock(init);
      if blocks[k].complexity < blocks[|blocks| - 1].complexity {
        k := |blocks| - 1;
      }
      assert forall b :: b in blocks ==> b in init || b == blocks[|blocks| - 1];
    }
  }

  /** A module's average lies between the complexities of its simplest and its most complex block. */
  lemma ModuleAverageBetween(blocks: seq<Block>, lo: real, hi: real)
    requires |blocks| > 0
    requires forall b :: b in blocks ==> lo <= b.complexity <= hi
    ensures lo <= Av(SumCc(blocks), |blocks|) <= hi
  {
    SumCcBounded(blocks, hi);
    SumCcAtLeast(blocks, lo);
    AvAtMost(SumCc(blocks), |blocks|, hi);
    AvAtLeast(SumCc(blocks), |blocks|, lo);
  }

  /**
   * Because the scores are averaged before ranking, a module with blocks
   * cannot fail a ceiling that each of its blocks passes, when the ranker is
   * monotone.
   */
  lemma ModulePassesWhenEveryBlockPasses(blocks: seq<Block>, ceiling: Option<string>, rankOf: real -> Rank)
    requires MonotoneRanker(rankOf)
    requires |blocks| > 0
    requires forall b :: b in blocks ==> !Check(rankOf(b.complexity), ceiling)
    ensures !Check(rankOf(Av(SumCc(blocks), |blocks|)), ceiling)
  {
    var k := MostComplexBlock(blocks);
    var hi := blocks[k].complexity;
    var average := Av(SumCc(blocks), |blocks|);
    assert average <= hi by {
      SumCcBounded(blocks, hi);
      AvAtMost(SumCc(blocks), |blocks|, hi);
    }
    assert rankOf(average).Ord() <= rankOf(hi).Ord();
    assert !Check(rankOf(hi), ceiling) by {
      assert blocks[k] in blocks;
    }
    CheckMonotone(rankOf(average), rankOf(hi), ceiling);
  }

  // ---------------------------------------------------------------------------
  // Worked examples, for a ranker that gives radon's ranks to these scores

  /** A block of complexity 2 ranked A does not exceed an absolute ceiling of "A": nothing is logged. */
  lemma ExampleRankEqualToCeiling(rankOf: real -> Rank)
    requires rankOf(2.0) == A
    ensures var results: ResultSet := [("m1", Blocks([Block("f", 1, 2.0)]))];
      Count(results, Args(Some("A"), None, None, None, None), map[], rankOf) == 0
      && Log(results, Args(Some("A"), None, None, None, None), map[], rankOf) == []
  {
    var results: ResultSet := [("m1", Blocks([Block("f", 1, 2.0)]))];
    assert results[..0] == [] && [Block("f", 1, 2.0)][..0] == [];
    CheckAgainstRank(A, A, "A");
  }

  /** A block of complexity 45 ranked F exceeds an absolute ceiling of "B": one error. */
  lemma ExampleBlockOverCeiling(rankOf: real -> Rank)
    requires rankOf(45.0) == F
    ensures var results: ResultSet := [("m1", Blocks([Block("f", 1, 45.0)]))];
      var args := Args(Some("B"), None, None, None, None);
      && Count(results, args, map[], rankOf) == 1
      && Log(results, args, map[], rankOf) == [Event(Error, BlockRanked("m1", 1, "f", F))]
  {
    var results: ResultSet := [("m1", Blocks([Block("f", 1, 45.0)]))];
    assert results[..0] == [] && [Block("f", 1, 45.0)][..0] == [];
    CheckAgainstRank(F, B, "B");
  }

  /**
   * Ignoring that block silences its error, yet its score still reaches the
   * codebase average, which fails a numeric ceiling of 10.
   */
  lemma ExampleIgnoredBlockStillAveraged(rankOf: real -> Rank)
    requires rankOf(45.0) == F
    ensures var results: ResultSet := [("m1", Blocks([Block("f", 1, 45.0)]))];
      var args := Args(Some("B"), None, None, Some(10.0), Some("m1:f"));
      var ignore := map["m1" := ["f"]];
      && IgnoreSpec(args.ignoreBlocks) == Success(ignore)
      && Count(results, args, ignore, rankOf) == 1
      && Log(results, args, ignore, rankOf) == [Event(Error, TotalAverageTooHigh(45.0))]
  {
    var results: ResultSet := [("m1", Blocks([Block("f", 1, 45.0)]))];
    assert results[..0] == [] && [Block("f", 1, 45.0)][..0] == [];
    assert CodebaseAverage(results) == 45.0;
    SingleEntryExample();
  }

  /**
   * A module that could not be parsed only warns, even with every ceiling set;
   * the codebase checks still run, on the average 0 of no blocks.
   */
  lemma ExampleParseErrorOnly(rankOf: real -> Rank)
    requires rankOf(0.0) == A
    ensures var results: ResultSet := [("m1", ParseError("SyntaxError"))];
      var args := Args(Some("A"), Some("A"), Some("A"), Some(0.0), None);
      && Count(results, args, map[], rankOf) == 0
      && Log(results, args, map[], rankOf) == [Event(Warning, CannotParse("m1", "SyntaxError"))]
  {
    var results: ResultSet := [("m1", ParseError("SyntaxError"))];
    assert results[..0] == [];
    CheckAgainstRank(A, A, "A");
  }
}
