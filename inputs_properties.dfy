/** Properties of the inputs section (`importFromDependencyConfigurations`,
    lines 274-298): the application JAR is always listed, the common block and
    each platform block appear exactly when they have files, entries are listed
    in ascending order and platform blocks in ascending platform order. */
module InputsProperties {
  import opened Wrappers
  import opened Strings
  import opened Hocon
  import opened Classpath
  import opened ConfigText

  // ---------------------------------------------------------------------------
  // The shape of the lines of a block
  // ---------------------------------------------------------------------------

  /** Every line of a platform block is blank, its opener, its closing bracket
      or an indented entry. */
  lemma PlatformBlockLine(p: string, delta: set<string>, l: string)
    requires l in PlatformBlock(p, delta)
    ensures l == "" || l == PlatformBlockOpen(p) || l == "]" || (|l| > 0 && l[0] == ' ')
  {
    var entries := EntryLines(SortedElements(delta));
    assert PlatformBlock(p, delta) == ["", PlatformBlockOpen(p)] + entries + ["]"];
    if l in entries {
      var i :| 0 <= i < |entries| && entries[i] == l;
      assert l == EntryLine(SortedElements(delta)[i]);
    }
  }

  /** Every line of the common block is its opener, its closing bracket or an
      indented entry. */
  lemma CommonBlockLine(commonFiles: set<string>, l: string)
    requires l in CommonBlock(commonFiles)
    ensures l == CommonBlockOpen || l == "]" || (|l| > 0 && l[0] == ' ')
  {
    var entries := EntryLines(SortedElements(commonFiles));
    assert CommonBlock(commonFiles) == [CommonBlockOpen] + entries + ["]"];
    if l in entries {
      var i :| 0 <= i < |entries| && entries[i] == l;
      assert l == EntryLine(SortedElements(commonFiles)[i]);
    }
  }

  lemma PlatformBlockOpenLength(p: string)
    ensures |PlatformBlockOpen(p)| == 30 + 2 * |p|
    ensures PlatformBlockOpen(p)[0] == 'a' && PlatformBlockOpen(p)[|PlatformBlockOpen(p)| - 1] == '['
  {
  }

  /** The opener names its platform: two openers are equal only for the same
      platform. */
  lemma PlatformBlockOpenInjective(p: string, q: string)
    requires PlatformBlockOpen(p) == PlatformBlockOpen(q)
    ensures p == q
  {
    PlatformBlockOpenLength(p);
    PlatformBlockOpenLength(q);
    assert PlatformBlockOpen(p)[4..4 + |p|] == p;
    assert PlatformBlockOpen(q)[4..4 + |q|] == q;
  }

  /** The JAR line never ends in `[`: a quoted value ends in `"`, and a bare
      value cannot end in `[`, which forces quoting. */
  lemma JarLineIsNoOpener(appJar: string, p: string)
    ensures AppendTo("app.inputs", Quote(appJar)) != PlatformBlockOpen(p)
  {
    var line := AppendTo("app.inputs", Quote(appJar));
    PlatformBlockOpenLength(p);
    QuoteShape(appJar);
    if HasForbiddenChars(appJar) {
      assert line[|line| - 1] == Quote(appJar)[|Quote(appJar)| - 1];
    } else if |appJar| > 0 {
      assert line[|line| - 1] == appJar[|appJar| - 1];
      assert appJar[|appJar| - 1] != '[';
    } else {
      assert line == "app.inputs" + " += " + "";
      assert line[|line| - 1] == ' ';
    }
  }

  // ---------------------------------------------------------------------------
  // Which platform blocks are written
  // ---------------------------------------------------------------------------

  /** A platform's opener is among the blocks of the given platforms exactly
      when the platform is one of them and its delta is not empty. */
  lemma PlatformOpenInBlocks(platforms: seq<string>, deps: DependencyInputs, p: string)
    requires forall i :: 0 <= i < |platforms| ==> platforms[i] in deps.expandedConfigs
    ensures PlatformBlockOpen(p) in PlatformBlocks(platforms, deps) <==>
      exists i :: 0 <= i < |platforms| && platforms[i] == p
        && Delta(deps.expandedConfigs[p], deps.commonFiles) != {}
  {
    var parts := PlatformDeltaBlocks(platforms, deps);
    var open := PlatformBlockOpen(p);
    assert PlatformBlocks(platforms, deps) == Flatten(parts);
    FlattenMembership(parts, open);
    PlatformBlockOpenLength(p);
    if open in Flatten(parts) {
      var i :| 0 <= i < |parts| && open in parts[i];
      var q := platforms[i];
      PlatformBlockLine(q, Delta(deps.expandedConfigs[q], deps.commonFiles), open);
      PlatformBlockOpenInjective(p, q);
    }
    if exists i :: 0 <= i < |platforms| && platforms[i] == p
        && Delta(deps.expandedConfigs[p], deps.commonFiles) != {} {
      var i :| 0 <= i < |platforms| && platforms[i] == p;
      assert open in parts[i];
    }
  }

  /** A platform block is written exactly for a platform with an expanded
      configuration that has files beyond the common ones. */
  lemma PlatformBlockWrittenIff(appJar: string, deps: DependencyInputs, p: string)
    ensures PlatformBlockOpen(p) in DependencyLines(appJar, deps) <==>
      p in deps.expandedConfigs && Delta(deps.expandedConfigs[p], deps.commonFiles) != {}
  {
    var platforms := SortedElements(deps.expandedConfigs.Keys);
    var head := [ "", InputsComment, AppendTo("app.inputs", Quote(appJar)) ];
    var common := CommonBlock(deps.commonFiles);
    var open := PlatformBlockOpen(p);
    assert DependencyLines(appJar, deps) == head + common + PlatformBlocks(platforms, deps);
    PlatformBlockOpenLength(p);
    assert open !in head by {
      assert InputsComment[0] == '/';
      JarLineIsNoOpener(appJar, p);
    }
    assert open !in common by {
      if open in common {
        CommonBlockLine(deps.commonFiles, open);
      }
    }
    PlatformOpenInBlocks(platforms, deps, p);
    if p in deps.expandedConfigs {
      assert p in platforms;
    }
  }

  lemma CommonOpenNotInHead(appJar: string)
    ensures CommonBlockOpen !in [ "", InputsComment, AppendTo("app.inputs", Quote(appJar)) ]
  {
    assert InputsComment[0] == '/';
    assert AppendTo("app.inputs", Quote(appJar))[11] == '+';
    assert CommonBlockOpen[11] == '=';
  }

  lemma CommonOpenNotInBlocks(platforms: seq<string>, deps: DependencyInputs)
    requires forall i :: 0 <= i < |platforms| ==> platforms[i] in deps.expandedConfigs
    ensures CommonBlockOpen !in Flatten(PlatformDeltaBlocks(platforms, deps))
  {
    var parts := PlatformDeltaBlocks(platforms, deps);
    FlattenMembership(parts, CommonBlockOpen);
    if CommonBlockOpen in Flatten(parts) {
      var i :| 0 <= i < |parts| && CommonBlockOpen in parts[i];
      var q := platforms[i];
      PlatformBlockLine(q, Delta(deps.expandedConfigs[q], deps.commonFiles), CommonBlockOpen);
      PlatformBlockOpenLength(q);
    }
  }

  /** The common block is written exactly when there are common files. */
  lemma CommonBlockWrittenIff(appJar: string, deps: DependencyInputs)
    ensures CommonBlockOpen in DependencyLines(appJar, deps) <==> deps.commonFiles != {}
  {
    var platforms := SortedElements(deps.expandedConfigs.Keys);
    var head := [ "", InputsComment, AppendTo("app.inputs", Quote(appJar)) ];
    var common := CommonBlock(deps.commonFiles);
    assert DependencyLines(appJar, deps) == head + common + Flatten(PlatformDeltaBlocks(platforms, deps));
    CommonOpenNotInHead(appJar);
    CommonOpenNotInBlocks(platforms, deps);
    if deps.commonFiles != {} {
      assert common[0] == CommonBlockOpen;
    }
  }

  /** The application JAR is listed in every generated document. */
  lemma AppJarAlwaysListed(inp: TaskInputs)
    requires Document(inp).Ok?
    ensures AppendTo("app.inputs", Quote(inp.appJar)) in Document(inp).value
  {
    var deps := DependencyLines(inp.appJar, inp.deps);
    var doc := Document(inp).value;
    var before := HeaderLines(inp) + JavaFxLines(inp) + JavaPluginLines(inp) + ComposeLines(inp);
    assert doc == before + deps;
    assert doc[|before| + 2] == deps[2];
  }

  // ---------------------------------------------------------------------------
  // Order of the entries and of the blocks
  // ---------------------------------------------------------------------------

  /** The common block lists the common files in ascending order, each once:
      it is the same for every ascending listing of them. */
  lemma CommonBlockListing(commonFiles: set<string>, listing: seq<string>)
    requires StrictlySorted(listing) && forall x :: x in listing <==> x in commonFiles
    ensures CommonBlock(commonFiles) ==
      if commonFiles == {} then [] else [CommonBlockOpen] + EntryLines(listing) + ["]"]
  {
    SortedElementsUnique(listing, commonFiles);
  }

  /** A platform block lists its delta in ascending order, each file once. */
  lemma PlatformBlockListing(p: string, delta: set<string>, listing: seq<string>)
    requires StrictlySorted(listing) && forall x :: x in listing <==> x in delta
    ensures PlatformBlock(p, delta) ==
      if delta == {} then [] else ["", PlatformBlockOpen(p)] + EntryLines(listing) + ["]"]
  {
    SortedElementsUnique(listing, delta);
  }

  /** In a strictly sorted sequence a smaller element sits at a smaller index. */
  lemma SortedIndexOrder(r: seq<string>, i: nat, j: nat)
    requires StrictlySorted(r) && i < |r| && j < |r| && LexLess(r[i], r[j])
    ensures i < j
  {
    if j < i {
      LexAsymmetric(r[j], r[i]);
    } else if j == i {
      LexAsymmetric(r[i], r[i]);
    }
  }

  /** Where a written platform block sits among the parts. */
  lemma WrittenBlockIndex(appJar: string, deps: DependencyInputs, p: string) returns (i: nat)
    requires PlatformBlockOpen(p) in DependencyLines(appJar, deps)
    ensures var platforms := SortedElements(deps.expandedConfigs.Keys);
      i < |platforms| && platforms[i] == p && PlatformBlockOpen(p) in PlatformDeltaBlocks(platforms, deps)[i]
  {
    PlatformBlockWrittenIff(appJar, deps, p);
    var platforms := SortedElements(deps.expandedConfigs.Keys);
    assert p in platforms;
    i :| 0 <= i < |platforms| && platforms[i] == p;
  }

  /** Platform blocks come in ascending platform order: when two platforms
      both get a block, the smaller one's opener is written before the larger
      one's. */
  lemma PlatformBlocksInOrder(appJar: string, deps: DependencyInputs, p: string, q: string)
    requires PlatformBlockOpen(p) in DependencyLines(appJar, deps)
    requires PlatformBlockOpen(q) in DependencyLines(appJar, deps)
    requires LexLess(p, q)
    ensures exists before, after :: (DependencyLines(appJar, deps) == before + after
      && PlatformBlockOpen(p) in before && PlatformBlockOpen(q) in after)
  {
    var platforms := SortedElements(deps.expandedConfigs.Keys);
    var parts := PlatformDeltaBlocks(platforms, deps);
    var head := [ "", InputsComment, AppendTo("app.inputs", Quote(appJar)) ] + CommonBlock(deps.commonFiles);
    assert DependencyLines(appJar, deps) == head + Flatten(parts);
    var i := WrittenBlockIndex(appJar, deps, p);
    var j := WrittenBlockIndex(appJar, deps, q);
    SortedIndexOrder(platforms, i, j);
    FlattenOrder(head, parts, i, j, PlatformBlockOpen(p), PlatformBlockOpen(q));
  }
}
