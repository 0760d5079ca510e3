/** Properties of the individual sections of the generated document: the JVM
    options filter, the JDK vendor table and toolchain lines, the Compose
    resource lines. */
module SectionProperties {
  import opened Wrappers
  import opened Strings
  import opened Hocon
  import opened Classpath
  import opened ConfigText

  // ---------------------------------------------------------------------------
  // JVM options (lines 340-348)
  // ---------------------------------------------------------------------------

  /** Filtering is done argument by argument: the filter of a concatenation is
      the concatenation of the filters, so the kept arguments stay in order. */
  lemma {:induction false} ArgsFilterConcat(a: seq<string>, b: seq<string>, rootDir: string)
    ensures ArgsNotPointingIntoTree(a + b, rootDir) ==
      ArgsNotPointingIntoTree(a, rootDir) + ArgsNotPointingIntoTree(b, rootDir)
    decreases |b|
  {
    if |b| == 0 {
      assert a + b == a;
    } else {
      var n := |b| - 1;
      assert (a + b)[..|a + b| - 1] == a + b[..n];
      assert (a + b)[|a + b| - 1] == b[n];
      ArgsFilterConcat(a, b[..n], rootDir);
    }
  }

  /** A single argument is kept exactly when it does not mention the root
      project directory. */
  lemma ArgsFilterSingle(arg: string, rootDir: string)
    ensures ArgsNotPointingIntoTree([arg], rootDir) == if Contains(arg, rootDir) then [] else [arg]
  {
    assert [arg][..0] == [];
  }

  /** No `app.jvm.options` line is written exactly when every argument mentions
      the root project directory (in particular when there are no arguments). */
  lemma JvmOptionsEmptyIff(args: seq<string>, rootDir: string)
    ensures JvmOptionsLines(args, rootDir) == [] <==> forall i :: 0 <= i < |args| ==> Contains(args[i], rootDir)
  {
  }

  /** When something is kept, the one line appends the kept arguments, in
      order and each quoted, to `app.jvm.options`. */
  lemma JvmOptionsLineContents(args: seq<string>, rootDir: string)
    requires exists i :: 0 <= i < |args| && !Contains(args[i], rootDir)
    ensures var kept := ArgsNotPointingIntoTree(args, rootDir);
      && |kept| > 0
      && JvmOptionsLines(args, rootDir) ==
           [Assign("app.jvm.options", "${app.jvm.options} " + ArrayLiteral(QuoteAll(kept)))]
  {
    var i :| 0 <= i < |args| && !Contains(args[i], rootDir);
    assert args[i] in ArgsNotPointingIntoTree(args, rootDir);
  }

  /** A string shorter than the needle does not contain it. */
  lemma ShortDoesNotContain(hay: string, needle: string)
    requires |hay| < |needle|
    ensures !Contains(hay, needle)
  {
    ContainsAt(hay, needle);
  }

  /** A string contains each of its infixes. */
  lemma ContainsInfix(pre: string, x: string, post: string)
    ensures Contains(pre + x + post, x)
  {
    ContainsAt(pre + x + post, x);
    assert (pre + x + post)[|pre|..|pre| + |x|] == x;
    assert OccursAt(pre + x + post, x, |pre|);
  }

  lemma ExampleArgsFilter()
    ensures ArgsNotPointingIntoTree(["-Xmx512m", "-Dfile=/home/u/proj/local.cfg"], "/home/u/proj") == ["-Xmx512m"]
  {
    var root := "/home/u/proj";
    var a, b := "-Xmx512m", "-Dfile=/home/u/proj/local.cfg";
    ContainsInfix("-Dfile=", root, "/local.cfg");
    assert "-Dfile=" + root + "/local.cfg" == b;
    ShortDoesNotContain(a, root);
    assert [a, b][..1] == [a];
    ArgsFilterSingle(a, root);
  }

  lemma ExampleQuote()
    ensures Quote("-Xmx512m") == "-Xmx512m"
  {
    var a := "-Xmx512m";
    assert !HasForbiddenChars(a) by {
      forall i | 0 <= i < |a| ensures a[i] !in ForbiddenChars { }
    }
  }

  /** A single kept argument that needs no quoting is written as it is. */
  lemma JvmOptionsSingleKept(args: seq<string>, rootDir: string, arg: string)
    requires ArgsNotPointingIntoTree(args, rootDir) == [arg] && Quote(arg) == arg
    ensures JvmOptionsLines(args, rootDir) == [Assign("app.jvm.options", "${app.jvm.options} [ " + arg + " ]")]
  {
    assert QuoteAll([arg]) == [arg];
    assert "${app.jvm.options} " + ArrayLiteral([arg]) == "${app.jvm.options} [ " + arg + " ]";
  }

  /** A JVM argument pointing into the project tree is dropped and the other
      is written bare. */
  lemma JvmOptionsExample()
    ensures JvmOptionsLines(["-Xmx512m", "-Dfile=/home/u/proj/local.cfg"], "/home/u/proj") ==
      ["app.jvm.options = ${app.jvm.options} [ -Xmx512m ]"]
  {
    ExampleArgsFilter();
    ExampleQuote();
    JvmOptionsSingleKept(["-Xmx512m", "-Dfile=/home/u/proj/local.cfg"], "/home/u/proj", "-Xmx512m");
    ExampleOptionsLine();
  }

  lemma ExampleOptionsLine()
    ensures Assign("app.jvm.options", "${app.jvm.options} [ " + "-Xmx512m" + " ]") ==
      "app.jvm.options = ${app.jvm.options} [ -Xmx512m ]"
  {
  }

  // ---------------------------------------------------------------------------
  // JDK vendor table and toolchain lines (lines 311-336)
  // ---------------------------------------------------------------------------

  /** The Gradle vendor tokens Conveyor knows. */
  const KnownVendorTokens: set<string> :=
    {"any", "AMAZON", "AZUL", "ORACLE", "MICROSOFT", "ADOPTIUM", "GRAAL_VM"}

  /** The JDK vendors of Conveyor's standard library the table maps to. */
  const ConveyorJdkVendors: set<string> :=
    {"openjdk", "amazon", "azul", "microsoft", "eclipse", "graalvm"}

  /** A vendor token is mapped exactly when it is one of the known tokens, and
      then to one of Conveyor's JDK vendors. */
  lemma VendorTable(vendor: string)
    ensures ConveyorVendor(vendor).Some? <==> vendor in KnownVendorTokens
    ensures ConveyorVendor(vendor).Some? ==> ConveyorVendor(vendor).value in ConveyorJdkVendors
  {
  }

  /** `any` and `ORACLE` map to `openjdk`, `ADOPTIUM` to `eclipse`, `GRAAL_VM`
      to `graalvm` and every other known token to its own lower-case spelling. */
  lemma VendorNames()
    ensures ConveyorVendor("any") == Some("openjdk") && ConveyorVendor("ORACLE") == Some("openjdk")
    ensures ConveyorVendor("ADOPTIUM") == Some("eclipse")
    ensures ConveyorVendor("GRAAL_VM") == Some("graalvm")
    ensures ConveyorVendor("AMAZON") == Some("amazon")
    ensures ConveyorVendor("AZUL") == Some("azul")
    ensures ConveyorVendor("MICROSOFT") == Some("microsoft")
  {
  }

  /** Without a language version nothing is written about the JDK. */
  lemma ToolchainWithoutVersion(vendorValue: Option<string>)
    ensures ToolchainLines(None, vendorValue) == []
  {
  }

  predicate IsInclude(line: string) {
    "include" <= line
  }

  /** A known vendor gets the Java plugin comment followed by exactly one
      include, of its standard-library JDK, and no warning. */
  lemma ToolchainKnownVendor(version: nat, vendorValue: Option<string>)
    requires ConveyorVendor(vendorValue.GetOr("ADOPTIUM")).Some?
    ensures var lines := ToolchainLines(Some(version), vendorValue);
      var cv := ConveyorVendor(vendorValue.GetOr("ADOPTIUM")).value;
      && lines == [JavaPluginComment, JdkInclude(version, cv)]
      && JdkInclude(version, cv) in lines
      && (forall l :: l in lines && IsInclude(l) ==> l == JdkInclude(version, cv))
      && UnknownVendorWarning(vendorValue.GetOr("ADOPTIUM")) !in lines
  {
    var vendor := vendorValue.GetOr("ADOPTIUM");
    var lines := ToolchainLines(Some(version), vendorValue);
    var c := JavaPluginComment;
    assert lines == [c, JdkInclude(version, ConveyorVendor(vendor).value)];
    assert c[0] == '/';
    assert UnknownVendorWarning(vendor)[2] == 't';
    assert JdkInclude(version, ConveyorVendor(vendor).value)[2] == 'c';
  }

  /** An unknown vendor does not fail generation: it gets no include at all,
      only the four comment lines naming the token and pointing to the
      documentation, then the warning naming the token. */
  lemma ToolchainUnknownVendor(version: nat, vendorValue: Option<string>)
    requires ConveyorVendor(vendorValue.GetOr("ADOPTIUM")).None?
    ensures var vendor := vendorValue.GetOr("ADOPTIUM");
      var lines := ToolchainLines(Some(version), vendorValue);
      && lines == [UnknownVendorComment(vendor), UnknownVendorHint, "//", UnknownVendorLink,
                   UnknownVendorWarning(vendor)]
      && UnknownVendorWarning(vendor) in lines
      && (forall l :: l in lines ==> !IsInclude(l))
  {
    var vendor := vendorValue.GetOr("ADOPTIUM");
    var lines := ToolchainLines(Some(version), vendorValue);
    assert lines[0][0] == '/' && lines[1][0] == '/' && lines[3][0] == '/';
    assert lines[2] == "//";
    assert lines[4][2] == 't';
    forall l | l in lines ensures !IsInclude(l) {
      assert l == lines[0] || l == lines[1] || l == lines[2] || l == lines[3] || l == lines[4];
    }
  }

  /** An absent vendor is read as `ADOPTIUM`, whose JDKs Conveyor calls `eclipse`. */
  lemma DefaultVendorIsEclipse(version: nat)
    ensures ToolchainLines(Some(version), None) ==
      [JavaPluginComment, JdkInclude(version, "eclipse")]
  {
    assert ConveyorVendor("ADOPTIUM") == Some("eclipse");
  }

  /** The include names the version and the vendor in the standard-library path. */
  lemma JdkIncludeExample()
    ensures JdkInclude(17, "azul") == IncludeRequired("/stdlib/jdk/17/azul.conf")
  {
    assert NatToString(17) == "17";
  }

  /** A token outside the table yields the warning naming it. */
  lemma UnknownVendorExample(version: nat)
    ensures UnknownVendorWarning("EXOTIC") == AppendTo("internal.conveyor.warnings", "\"unknown-jdk-vendor:EXOTIC\"")
    ensures UnknownVendorWarning("EXOTIC") in ToolchainLines(Some(version), Some("EXOTIC"))
  {
    assert ConveyorVendor("EXOTIC") == None;
    assert UnknownVendorLines("EXOTIC")[4] == UnknownVendorWarning("EXOTIC");
  }

  // ---------------------------------------------------------------------------
  // Compose resource lines (lines 227-245)
  // ---------------------------------------------------------------------------

  /** Two `key += value` lines with space-free keys are equal only for the same key. */
  lemma AppendToKeyInjective(k1: string, v1: string, k2: string, v2: string)
    requires NoSpace(k1) && NoSpace(k2)
    requires AppendTo(k1, v1) == AppendTo(k2, v2)
    ensures k1 == k2
  {
    var line := AppendTo(k1, v1);
    assert line[|k1|] == ' ' && line[|k2|] == ' ';
    assert k1 == line[..|k1|] && k2 == line[..|k2|];
  }

  /** The table's keys have no space and do not start with `j`. */
  lemma ResourceTableKeyShape()
    ensures forall k :: 0 <= k < |ComposeResourceTable| ==> NoSpace(ComposeResourceTable[k].0)
    ensures forall k :: 0 <= k < |ComposeResourceTable| ==> |ComposeResourceTable[k].0| > 0 && ComposeResourceTable[k].0[0] != 'j'
  {
  }

  /** No two entries of the table share a key. */
  lemma ResourceTableKeysDistinct()
    ensures forall i, j :: 0 <= i < j < |ComposeResourceTable| ==> ComposeResourceTable[i].0 != ComposeResourceTable[j].0
  {
  }

  /** Resource lines of space-free keys are equal only for the same key. */
  lemma ResourceLineKey(rootDir: string, e1: (string, string), e2: (string, string))
    requires NoSpace(e1.0) && NoSpace(e2.0)
    requires ResourceLine(rootDir, e1) == ResourceLine(rootDir, e2)
    ensures e1.0 == e2.0
  {
    var k1, k2 := "app." + e1.0, "app." + e2.0;
    assert NoSpace(k1) by {
      forall i | 4 <= i < |k1| ensures k1[i] != ' ' { assert k1[i] == e1.0[i - 4]; }
    }
    assert NoSpace(k2) by {
      forall i | 4 <= i < |k2| ensures k2[i] != ' ' { assert k2[i] == e2.0[i - 4]; }
    }
    AppendToKeyInjective(k1, Quote(ResolvePath(rootDir, e1.1)), k2, Quote(ResolvePath(rootDir, e2.1)));
    assert e1.0 == k1[4..] && e2.0 == k2[4..];
  }

  /** In any table whose keys are space-free and distinct, an entry gets its
      line exactly when its sub-directory exists. */
  lemma ResourceTableLineIff(rootDir: string, existing: set<string>, table: seq<(string, string)>, k: nat)
    requires forall i :: 0 <= i < |table| ==> NoSpace(table[i].0)
    requires forall i, j :: 0 <= i < j < |table| ==> table[i].0 != table[j].0
    requires k < |table|
    ensures ResourceLine(rootDir, table[k]) in ResourceTableLines(rootDir, existing, table) <==> table[k].1 in existing
  {
    var parts := ResourceEntries(rootDir, existing, table);
    var line := ResourceLine(rootDir, table[k]);
    FlattenMembership(parts, line);
    if table[k].1 in existing {
      assert line in parts[k];
    }
    if line in Flatten(parts) {
      var j :| 0 <= j < |parts| && line in parts[j];
      assert parts[j] == ResourceEntryLines(rootDir, existing, table[j]);
      ResourceLineKey(rootDir, table[j], table[k]);
      assert j == k;
    }
  }

  /** Each entry of the Compose resource table gets its `app.<key> += <dir>`
      line exactly when its sub-directory exists. */
  lemma ResourceLineIff(rootDir: string, existing: set<string>, k: nat)
    requires k < |ComposeResourceTable|
    ensures ResourceLine(rootDir, ComposeResourceTable[k]) in ComposeResourceLines(Some(rootDir), existing)
      <==> ComposeResourceTable[k].1 in existing
  {
    var table := ComposeResourceTable;
    ResourceTableKeyShape();
    ResourceTableKeysDistinct();
    ResourceTableLineIff(rootDir, existing, table, k);
    ResourcesDirPropertyIsNotResourceLine(rootDir, table[k]);
  }

  lemma ResourcesDirPropertyIsNotResourceLine(rootDir: string, e: (string, string))
    requires |e.0| > 0 && e.0[0] != 'j'
    ensures ResourceLine(rootDir, e) != ResourcesDirProperty
  {
    assert ResourcesDirProperty[4] == 'j';
    assert ResourceLine(rootDir, e)[4] == e.0[0];
  }

  /** Without a resources root nothing about resources is written. */
  lemma NoResourcesWithoutRoot(existing: set<string>)
    ensures ComposeResourceLines(None, existing) == []
  {
  }

  /** The resource lines follow the table: of two entries whose sub-directories
      exist, the earlier entry's line is written before the later one's. */
  lemma ResourceLinesInTableOrder(rootDir: string, existing: set<string>, i: nat, j: nat)
    requires i < j < |ComposeResourceTable|
    requires ComposeResourceTable[i].1 in existing && ComposeResourceTable[j].1 in existing
    ensures exists before, after :: (ComposeResourceLines(Some(rootDir), existing) == before + after
      && ResourceLine(rootDir, ComposeResourceTable[i]) in before
      && ResourceLine(rootDir, ComposeResourceTable[j]) in after)
  {
    var table := ComposeResourceTable;
    var parts := ResourceEntries(rootDir, existing, table);
    assert ComposeResourceLines(Some(rootDir), existing) == [ResourcesDirProperty] + Flatten(parts);
    assert ResourceLine(rootDir, table[i]) in parts[i];
    assert ResourceLine(rootDir, table[j]) in parts[j];
    FlattenOrder([ResourcesDirProperty], parts, i, j, ResourceLine(rootDir, table[i]), ResourceLine(rootDir, table[j]));
  }
}
