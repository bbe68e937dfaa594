/**
 * The ignore-spec parser `build_blocks_to_ignore` of xenon/core.py.
 *
 * The spec is `"mod:block, mod2:block2"`: entries separated by `,`, each entry
 * a module name and a block name separated by exactly one `:`, both sides
 * stripped of surrounding whitespace. The result maps each module to the list
 * of its block names in entry order (a Python list: duplicates are kept). An
 * entry that does not split into exactly two parts makes the tuple unpacking
 * raise `ValueError`, which here is a `Failure`.
 */
module IgnoreBlocks {
  import opened Wrappers
  import opened PyStr

  type IgnoreMap = map<string, seq<string>>

  /** The `ValueError` of unpacking `entry.split(':')`, with the number of parts found. */
  datatype IgnoreError = MalformedEntry(entry: string, fields: nat)

  /** `blocks_to_ignore.get(module, [])`. */
  function Lookup(m: IgnoreMap, moduleName: string): seq<string> {
    if moduleName in m then m[moduleName] else []
  }

  predicate WellFormed(entry: string) {
    |Split(entry, ':')| == 2
  }

  function EntryModule(entry: string): string
    requires WellFormed(entry)
  {
    Strip(Split(entry, ':')[0])
  }

  function EntryBlock(entry: string): string
    requires WellFormed(entry)
  {
    Strip(Split(entry, ':')[1])
  }

  /** One step of the loop: unpack `entry` and append its block name to its module's list. */
  function AddEntry(m: IgnoreMap, entry: string): (r: Result<IgnoreMap, IgnoreError>)
    ensures r.Failure? <==> !WellFormed(entry)
  {
    var parts := Split(entry, ':');
    if |parts| != 2 then Failure(MalformedEntry(entry, |parts|))
    else
      var moduleName := Strip(parts[0]);
      Success(m[moduleName := Lookup(m, moduleName) + [Strip(parts[1])]])
  }

  /**
   * A malformed entry fails with its own text and part count; a well-formed one
   * appends its block name to its module's list, makes that module a key, and
   * changes no other module's list.
   */
  lemma AddEntryEffect(m: IgnoreMap, entry: string)
    ensures !WellFormed(entry) ==> AddEntry(m, entry) == Failure(MalformedEntry(entry, |Split(entry, ':')|))
    ensures WellFormed(entry) ==> AddEntry(m, entry).Success?
    ensures WellFormed(entry) ==>
      Lookup(AddEntry(m, entry).value, EntryModule(entry)) == Lookup(m, EntryModule(entry)) + [EntryBlock(entry)]
    ensures WellFormed(entry) ==> AddEntry(m, entry).value.Keys == m.Keys + {EntryModule(entry)}
    ensures WellFormed(entry) ==> forall other :: other != EntryModule(entry) ==>
      Lookup(AddEntry(m, entry).value, other) == Lookup(m, other)
  {
  }

  /** The loop over the entries, from an empty map; it stops at the first malformed entry. */
  function ParseEntries(entries: seq<string>): Result<IgnoreMap, IgnoreError> {
    if |entries| == 0 then Success(map[])
    else
      match ParseEntries(entries[..|entries| - 1])
      case Failure(e) => Failure(e)
      case Success(m) => AddEntry(m, entries[|entries| - 1])
  }

  /** `build_blocks_to_ignore` as a function of `args.ignore_blocks`. */
  function IgnoreSpec(ignoreBlocks: Option<string>): Result<IgnoreMap, IgnoreError> {
    match ignoreBlocks
    case None => Success(map[])
    case Some(s) => if s == "" then Success(map[]) else ParseEntries(Split(s, ','))
  }

  /**
   * `build_blocks_to_ignore(args)`: an absent or empty spec gives the empty map
   * and never fails; otherwise the comma-separated entries are added in order.
   */
  method BuildBlocksToIgnore(ignoreBlocks: Option<string>) returns (r: Result<IgnoreMap, IgnoreError>)
    ensures ignoreBlocks.None? || ignoreBlocks == Some("") ==> r == Success(map[])
    ensures r == IgnoreSpec(ignoreBlocks)
  {
    if ignoreBlocks.None? || ignoreBlocks.value == "" {
      return Success(map[]);
    }
    var entries := Split(ignoreBlocks.value, ',');
    var blocksToIgnore: IgnoreMap := map[];
    var i := 0;
    while i < |entries|
      invariant 0 <= i <= |entries|
      invariant ParseEntries(entries[..i]) == Success(blocksToIgnore)
    {
      assert entries[..i + 1][..i] == entries[..i];
      var parts := Split(entries[i], ':');
      if |parts| != 2 {
        r := Failure(MalformedEntry(entries[i], |parts|));
        FailureIsFinal(entries, i + 1);
        assert entries[..|entries|] == entries;
        return;
      }
      var moduleName := Strip(parts[0]);
      blocksToIgnore := blocksToIgnore[moduleName := Lookup(blocksToIgnore, moduleName) + [Strip(parts[1])]];
      i := i + 1;
    }
    assert entries[..i] == entries;
    r := Success(blocksToIgnore);
  }

  /** Once a prefix of the entries has failed, the whole parse fails with the same error. */
  lemma {:induction false} FailureIsFinal(entries: seq<string>, k: nat)
    requires k <= |entries|
    requires ParseEntries(entries[..k]).Failure?
    ensures ParseEntries(entries[..|entries|]) == ParseEntries(entries[..k])
  {
    if k < |entries| {
      assert entries[..|entries| - 1][..k] == entries[..k];
      FailureIsFinal(entries[..|entries| - 1], k);
      assert entries[..|entries| - 1][..|entries| - 1] == entries[..|entries| - 1];
      assert entries[..|entries|][..|entries| - 1] == entries[..|entries| - 1];
    }
  }

  /** A spec whose every entry is well formed parses. */
  lemma {:induction false} WellFormedParses(entries: seq<string>)
    requires forall i :: 0 <= i < |entries| ==> WellFormed(entries[i])
    ensures ParseEntries(entries).Success?
  {
    if |entries| > 0 {
      WellFormedParses(entries[..|entries| - 1]);
    }
  }

  /**
   * A parse that fails names the first malformed entry: every entry before it
   * is well formed, so no entry is silently dropped.
   */
  lemma {:induction false} FailureNamesFirstMalformed(entries: seq<string>)
    requires ParseEntries(entries).Failure?
    ensures exists i :: (0 <= i < |entries| && !WellFormed(entries[i])
      && (forall j :: 0 <= j < i ==> WellFormed(entries[j]))
      && ParseEntries(entries).error == MalformedEntry(entries[i], |Split(entries[i], ':')|))
  {
    var n := |entries|;
    var init := entries[..n - 1];
    if ParseEntries(init).Failure? {
      FailureNamesFirstMalformed(init);
      var i :| 0 <= i < |init| && !WellFormed(init[i])
        && (forall j :: 0 <= j < i ==> WellFormed(init[j]))
        && ParseEntries(init).error == MalformedEntry(init[i], |Split(init[i], ':')|);
      assert forall j :: 0 <= j <= i ==> entries[j] == init[j];
    } else {
      AddEntryEffect(ParseEntries(init).value, entries[n - 1]);
      if exists j :: 0 <= j < n - 1 && !WellFormed(entries[j]) {
        var j :| 0 <= j < n - 1 && !WellFormed(entries[j]);
        MalformedPrefixFails(entries[..n - 1], j);
        assert false;
      }
      assert !WellFormed(entries[n - 1]);
    }
  }

  /** A prefix holding a malformed entry fails to parse. */
  lemma {:induction false} MalformedPrefixFails(entries: seq<string>, j: nat)
    requires j < |entries| && !WellFormed(entries[j])
    ensures ParseEntries(entries).Failure?
  {
    var n := |entries|;
    if j < n - 1 {
      MalformedPrefixFails(entries[..n - 1], j);
    }
  }

  /** The block names the well-formed `entries` give for `moduleName`, in entry order. */
  function BlocksOf(entries: seq<string>, moduleName: string): seq<string>
    requires forall i :: 0 <= i < |entries| ==> WellFormed(entries[i])
  {
    if |entries| == 0 then []
    else
      var last := entries[|entries| - 1];
      BlocksOf(entries[..|entries| - 1], moduleName)
        + (if EntryModule(last) == moduleName then [EntryBlock(last)] else [])
  }

  /**
   * A parsed spec maps every module to exactly the block names of its own
   * entries, in order, accumulating over repeated modules; a module is a key
   * exactly when it has an entry.
   */
  lemma {:induction false} ParsedLookup(entries: seq<string>)
    requires forall i :: 0 <= i < |entries| ==> WellFormed(entries[i])
    ensures ParseEntries(entries).Success?
    ensures forall moduleName ::
      Lookup(ParseEntries(entries).value, moduleName) == BlocksOf(entries, moduleName)
    ensures forall moduleName ::
      moduleName in ParseEntries(entries).value <==> BlocksOf(entries, moduleName) != []
  {
    if |entries| > 0 {
      var init := entries[..|entries| - 1];
      ParsedLookup(init);
    }
  }

  /** A non-empty spec with neither a comma nor a colon is one malformed entry of one part. */
  lemma NoColonFails(spec: string)
    requires spec != "" && ',' !in spec && ':' !in spec
    ensures IgnoreSpec(Some(spec)) == Failure(MalformedEntry(spec, 1))
  {
    SplitNoSeparator(spec, ',');
    SplitNoSeparator(spec, ':');
    var entries := [spec];
    assert entries[..0] == [];
    assert ParseEntries(entries[..0]) == Success(map[]);
    assert AddEntry(map[], spec) == Failure(MalformedEntry(spec, 1));
  }

  /** A spec of one entry maps the stripped module name to the one stripped block name. */
  lemma SingleEntry(moduleText: string, blockText: string)
    requires ',' !in moduleText && ',' !in blockText && ':' !in moduleText && ':' !in blockText
    ensures IgnoreSpec(Some(moduleText + [':'] + blockText))
      == Success(map[Strip(moduleText) := [Strip(blockText)]])
  {
    var spec := moduleText + [':'] + blockText;
    assert ',' !in spec;
    SplitNoSeparator(spec, ',');
    SplitAfterPiece(moduleText, blockText, ':');
    SplitNoSeparator(blockText, ':');
    var entries := [spec];
    assert entries[..0] == [];
    assert ParseEntries(entries[..0]) == Success(map[]);
    assert Split(spec, ':') == [moduleText, blockText];
    assert Lookup(map[], Strip(moduleText)) + [Strip(blockText)] == [Strip(blockText)];
    assert AddEntry(map[], spec) == Success(map[Strip(moduleText) := [Strip(blockText)]]);
    assert ParseEntries(entries) == AddEntry(map[], spec);
    assert spec != "";
  }

  /** The ignore spec of one block: `"m1:f"`. */
  lemma SingleEntryExample()
    ensures IgnoreSpec(Some("m1:f")) == Success(map["m1" := ["f"]])
  {
    SingleEntry("m1", "f");
    assert "m1" + [':'] + "f" == "m1:f";
    assert Strip("m1") == "m1" && Strip("f") == "f";
  }
}
