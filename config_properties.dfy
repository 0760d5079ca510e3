/** What the generated document promises: when generation fails, which value
    each overridden key ends up with, what the JVM options, toolchain, Compose
    resource and inputs sections hold. */
module ConfigProperties {
  import opened Wrappers
  import opened Strings
  import opened Hocon
  import opened Classpath
  import opened ConfigText

  // ---------------------------------------------------------------------------
  // Reading assignments back
  // ---------------------------------------------------------------------------

  /** `line` assigns `key` with `key = ...`. */
  predicate Assigns(line: string, key: string) {
    key + " = " <= line
  }

  /** The value `key` ends up with in a document: the text after `key = ` on the
      last line assigning it (in HOCON a later assignment overrides an earlier one). */
  function LastValue(lines: seq<string>, key: string): Option<string> {
    if |lines| == 0 then None
    else
      var last := lines[|lines| - 1];
      if Assigns(last, key) then Some(last[|key| + 3..])
      else LastValue(lines[..|lines| - 1], key)
  }

  lemma {:induction false} LastValueAppend(a: seq<string>, b: seq<string>, key: string)
    ensures LastValue(a + b, key) == if LastValue(b, key).Some? then LastValue(b, key) else LastValue(a, key)
    decreases |b|
  {
    if |b| == 0 {
      assert a + b == a;
    } else {
      assert (a + b)[..|a + b| - 1] == a + b[..|b| - 1];
      LastValueAppend(a, b[..|b| - 1], key);
    }
  }

  lemma {:induction false} LastValueNone(lines: seq<string>, key: string)
    requires forall i :: 0 <= i < |lines| ==> !Assigns(lines[i], key)
    ensures LastValue(lines, key) == None
    decreases |lines|
  {
    if |lines| > 0 {
      LastValueNone(lines[..|lines| - 1], key);
    }
  }

  lemma AssignValue(key: string, value: string)
    ensures LastValue([Assign(key, value)], key) == Some(value)
  {
    var line := Assign(key, value);
    assert Assigns(line, key);
    assert line[|key| + 3..] == value;
  }

  /** The keys that later sections of the document assign again. */
  predicate OverriddenKey(key: string) {
    key == MainClassKey || key == StartupWMClassKey || key == FsNameKey
  }

  /** Machine ids (`linux.amd64.glibc`, `mac.aarch64`, ...) contain no space. */
  predicate PlatformIdsWithoutSpaces(deps: DependencyInputs) {
    forall p :: p in deps.expandedConfigs ==> NoSpace(p)
  }

  /** A line that cannot assign any overridden key, told by a character at a
      fixed position: every overridden key starts with `app.` followed by `j`,
      `l` or `f`, has `g` at position 8 after `app.j` and `d` at position 10
      after `app.l`. */
  predicate SafeLine(line: string) {
    || |line| < 11
    || line[0] != 'a'
    || (line[4] != 'j' && line[4] != 'l' && line[4] != 'f')
    || (line[4] == 'j' && line[8] != 'g')
    || (line[4] == 'l' && line[10] != 'd')
  }

  /** The characters of the overridden keys that `SafeLine` looks at. */
  lemma OverriddenKeyShape(key: string)
    requires OverriddenKey(key)
    ensures |key| >= 10 && key[0] == 'a'
    ensures key[4] == 'j' || key[4] == 'l' || key[4] == 'f'
    ensures key[4] == 'j' ==> key == MainClassKey && key[8] == 'g'
    ensures key[4] == 'l' ==> key == StartupWMClassKey && key[10] == 'd'
    ensures key[4] == 'f' ==> key == FsNameKey
  {
    assert MainClassKey[4] == 'j' && MainClassKey[8] == 'g';
    assert StartupWMClassKey[4] == 'l' && StartupWMClassKey[10] == 'd';
    assert FsNameKey[4] == 'f';
  }

  lemma SafeLineNotAssigning(line: string, key: string)
    requires SafeLine(line) && OverriddenKey(key)
    ensures !Assigns(line, key)
  {
    var k := key + " = ";
    OverriddenKeyShape(key);
    assert k[0] == key[0] && k[4] == key[4] && k[8] == key[8] && |k| >= 11;
    assert key[4] == 'l' ==> k[10] == key[10];
  }

  lemma SafeLinesNotAssigning(lines: seq<string>, key: string)
    requires forall l :: l in lines ==> SafeLine(l)
    requires OverriddenKey(key)
    ensures LastValue(lines, key) == None
  {
    forall i | 0 <= i < |lines| ensures !Assigns(lines[i], key) {
      SafeLineNotAssigning(lines[i], key);
    }
    LastValueNone(lines, key);
  }

  /** An assignment of one overridden key does not assign another. */
  lemma OtherKeyNotAssigning(key: string, other: string, value: string)
    requires OverriddenKey(key) && OverriddenKey(other) && key != other
    ensures LastValue([Assign(other, value)], key) == None
  {
    var line := Assign(other, value);
    var k := key + " = ";
    OverriddenKeyShape(key);
    OverriddenKeyShape(other);
    assert line[4] == other[4] && k[4] == key[4];
    LastValueNone([line], key);
  }

  lemma EntryLinesSafe(entries: seq<string>)
    ensures forall l :: l in EntryLines(entries) ==> SafeLine(l)
  {
    forall l | l in EntryLines(entries) ensures SafeLine(l) {
      var i :| 0 <= i < |entries| && EntryLines(entries)[i] == l;
      assert l == EntryLine(entries[i]);
      assert l[0] == ' ';
    }
  }

  // ---------------------------------------------------------------------------
  // Which sections assign the overridden keys
  // ---------------------------------------------------------------------------

  /** When `k` is a prefix of `line`, both have their first space at the same
      position. */
  lemma FirstSpaceAgrees(line: string, k: string, s: nat, j: nat)
    requires k <= line
    requires s < |line| && line[s] == ' ' && NoSpace(line[..s])
    requires j < |k| && k[j] == ' ' && NoSpace(k[..j])
    ensures s == j
  {
  }

  /** The first space of `app.<p>.inputs = ...` comes right after `.inputs`. */
  lemma PlatformOpenFirstSpace(p: string)
    requires NoSpace(p)
    ensures var line := PlatformBlockOpen(p);
      && |line| > 11 + |p| && line[11 + |p|] == ' ' && line[4 + |p|] == '.'
      && NoSpace(line[..11 + |p|])
  {
    var line := PlatformBlockOpen(p);
    var pre := line[..11 + |p|];
    assert pre == "app." + p + ".inputs";
    forall i | 0 <= i < |pre| ensures pre[i] != ' ' {
      if 4 <= i < 4 + |p| {
        assert pre[i] == p[i - 4];
      }
    }
  }

  /** The first space of each overridden key's assignment prefix, and the
      character of the key where a platform opener would have its `.inputs`. */
  lemma KeyFirstSpace(key: string) returns (j: nat)
    requires OverriddenKey(key)
    ensures var k := key + " = ";
      && j < |k| && k[j] == ' ' && NoSpace(k[..j])
      && (j >= 11 ==> k[j - 7] != '.')
  {
    var k := key + " = ";
    if key == MainClassKey {
      j := 22;
      assert k[..j] == MainClassKey;
      assert forall i :: 0 <= i < j ==> MainClassKey[i] != ' ';
      assert k[15] == 'n';
    } else if key == StartupWMClassKey {
      j := 31;
      assert k[..j] == StartupWMClassKey[..31];
      assert forall i :: 0 <= i < j ==> StartupWMClassKey[i] != ' ';
      assert k[24] == 'D';
    } else {
      j := 10;
      assert k[..j] == FsNameKey;
      assert forall i :: 0 <= i < j ==> FsNameKey[i] != ' ';
    }
  }

  /** No platform block opener assigns an overridden key. */
  lemma PlatformOpenNotAssigning(p: string, key: string)
    requires NoSpace(p) && OverriddenKey(key)
    ensures !Assigns(PlatformBlockOpen(p), key)
  {
    var line := PlatformBlockOpen(p);
    var k := key + " = ";
    PlatformOpenFirstSpace(p);
    var j := KeyFirstSpace(key);
    if k <= line {
      FirstSpaceAgrees(line, k, 11 + |p|, j);
    }
  }

  lemma PlatformBlockSafeOrOpen(p: string, delta: set<string>, line: string)
    requires line in PlatformBlock(p, delta)
    ensures line == PlatformBlockOpen(p) || SafeLine(line)
  {
    var entries := EntryLines(SortedElements(delta));
    assert PlatformBlock(p, delta) == ["", PlatformBlockOpen(p)] + entries + ["]"];
    EntryLinesSafe(SortedElements(delta));
  }

  lemma CommonBlockSafe(commonFiles: set<string>)
    ensures forall l :: l in CommonBlock(commonFiles) ==> SafeLine(l)
  {
    if commonFiles != {} {
      assert CommonBlockOpen[4] == 'i';
      EntryLinesSafe(SortedElements(commonFiles));
    }
  }

  lemma PlatformBlocksNotAssigning(platforms: seq<string>, deps: DependencyInputs, key: string)
    requires forall i :: 0 <= i < |platforms| ==> platforms[i] in deps.expandedConfigs && NoSpace(platforms[i])
    requires OverriddenKey(key)
    ensures LastValue(PlatformBlocks(platforms, deps), key) == None
  {
    var parts := PlatformDeltaBlocks(platforms, deps);
    var blocks := PlatformBlocks(platforms, deps);
    forall i | 0 <= i < |blocks| ensures !Assigns(blocks[i], key) {
      var l := blocks[i];
      FlattenMembership(parts, l);
      var j :| 0 <= j < |parts| && l in parts[j];
      var p := platforms[j];
      PlatformBlockSafeOrOpen(p, Delta(deps.expandedConfigs[p], deps.commonFiles), l);
      if l == PlatformBlockOpen(p) {
        PlatformOpenNotAssigning(p, key);
      } else {
        SafeLineNotAssigning(l, key);
      }
    }
    LastValueNone(blocks, key);
  }

  lemma DependencyLinesNotAssigning(appJar: string, deps: DependencyInputs, key: string)
    requires PlatformIdsWithoutSpaces(deps) && OverriddenKey(key)
    ensures LastValue(DependencyLines(appJar, deps), key) == None
  {
    var platforms := SortedElements(deps.expandedConfigs.Keys);
    var head := [ "", InputsComment, AppendTo("app.inputs", Quote(appJar)) ];
    var common := CommonBlock(deps.commonFiles);
    assert head[2][4] == 'i';
    assert InputsComment[0] == '/';
    SafeLinesNotAssigning(head, key);
    CommonBlockSafe(deps.commonFiles);
    SafeLinesNotAssigning(common, key);
    PlatformBlocksNotAssigning(platforms, deps, key);
    LastValueAppend(head, common, key);
    LastValueAppend(head + common, PlatformBlocks(platforms, deps), key);
  }

  lemma JvmOptionsNotAssigning(args: seq<string>, rootDir: string, key: string)
    requires OverriddenKey(key)
    ensures LastValue(JvmOptionsLines(args, rootDir), key) == None
  {
    var lines := JvmOptionsLines(args, rootDir);
    if |lines| > 0 {
      assert lines[0][4] == 'j' && lines[0][8] == 'o';
    }
    SafeLinesNotAssigning(lines, key);
  }

  /** A resource table key whose `app.<key> += ...` line is a `SafeLine`. */
  predicate SafeResourceKey(key: string) {
    |key| > 0 && key[0] != 'j' && key[0] != 'f' && (key[0] == 'l' ==> |key| > 6 && key[6] != 'd')
  }

  lemma ResourceTableSafe()
    ensures forall k :: 0 <= k < |ComposeResourceTable| ==> SafeResourceKey(ComposeResourceTable[k].0)
  {
  }

  lemma ResourceLineSafe(rootDir: string, entry: (string, string))
    requires SafeResourceKey(entry.0)
    ensures SafeLine(ResourceLine(rootDir, entry))
  {
    var l := ResourceLine(rootDir, entry);
    var key := entry.0;
    assert l == ("app." + key) + " += " + Quote(ResolvePath(rootDir, entry.1));
    assert l[4] == key[0];
    if key[0] == 'l' {
      assert l[10] == key[6];
    }
  }

  lemma ResourceTableLinesSafe(rootDir: string, existing: set<string>, table: seq<(string, string)>)
    requires forall k :: 0 <= k < |table| ==> SafeResourceKey(table[k].0)
    ensures forall l :: l in ResourceTableLines(rootDir, existing, table) ==> SafeLine(l)
  {
    var parts := ResourceEntries(rootDir, existing, table);
    forall l | l in ResourceTableLines(rootDir, existing, table) ensures SafeLine(l) {
      FlattenMembership(parts, l);
      var k :| 0 <= k < |parts| && l in parts[k];
      ResourceLineSafe(rootDir, table[k]);
    }
  }

  lemma ComposeResourcesNotAssigning(rootDir: Option<string>, existing: set<string>, key: string)
    requires OverriddenKey(key)
    ensures LastValue(ComposeResourceLines(rootDir, existing), key) == None
  {
    var lines := ComposeResourceLines(rootDir, existing);
    if rootDir.Some? {
      assert lines == [ResourcesDirProperty] + ResourceTableLines(rootDir.value, existing, ComposeResourceTable);
      ResourceTableSafe();
      ResourceTableLinesSafe(rootDir.value, existing, ComposeResourceTable);
      assert ResourcesDirProperty[4] == 'j' && ResourcesDirProperty[8] == 's';
    }
    SafeLinesNotAssigning(lines, key);
  }

  // ---------------------------------------------------------------------------
  // Generation
  // ---------------------------------------------------------------------------

  /** Generation fails exactly when the version is blank or the placeholder
      `unspecified` (checked first) or the group is blank. */
  lemma DocumentFailsOnlyOnValidation(inp: TaskInputs)
    ensures Document(inp).Err? <==> VersionMissing(inp.projectVersion) || IsBlank(inp.projectGroup)
    ensures VersionMissing(inp.projectVersion) ==> Document(inp) == Err(MissingVersionMessage)
    ensures !VersionMissing(inp.projectVersion) && IsBlank(inp.projectGroup) ==> Document(inp) == Err(MissingGroupMessage)
  {
  }

  /** A generated document starts with the build directory, the project name,
      the lower-cased file-system name, the version verbatim and the reverse DNS
      name built from the group verbatim. */
  lemma DocumentHeader(inp: TaskInputs)
    requires Document(inp).Ok?
    ensures var doc := Document(inp).value;
      && |doc| >= 8
      && doc[3] == Assign("gradle.build-dir", Quote(inp.buildDirectory))
      && doc[4] == Assign("gradle.project-name", Quote(inp.projectName))
      && doc[5] == Assign(FsNameKey, Quote(LowerAscii(inp.projectName)))
      && doc[6] == Assign("app.version", inp.projectVersion)
      && doc[7] == Assign("app.rdns-name", inp.projectGroup + ".${app.fsname}")
  {
    var h := HeaderLines(inp);
    var doc := Document(inp).value;
    assert doc[..8] == h;
    assert doc[3] == h[3] && doc[4] == h[4] && doc[5] == h[5] && doc[6] == h[6] && doc[7] == h[7];
  }

  /** Compose Desktop settings take precedence: the main class, the desktop-entry
      window class and the file-system name the document ends up with are
      Compose's when it sets them, otherwise the application plugin's (main
      class as it is for the window class) or the lower-cased project name. */
  lemma ComposeTakesPrecedence(inp: TaskInputs)
    requires Document(inp).Ok?
    requires PlatformIdsWithoutSpaces(inp.deps)
    ensures var doc := Document(inp).value;
      && LastValue(doc, MainClassKey) ==
           (if inp.composeMainClass.Some? then Some(Quote(inp.composeMainClass.value))
            else if inp.mainClass.Some? then Some(Quote(inp.mainClass.value))
            else None)
      && LastValue(doc, StartupWMClassKey) ==
           (if inp.composeMainClass.Some? then Some(Quote(ReplaceChar(inp.composeMainClass.value, '.', '-')))
            else if inp.mainClass.Some? then Some(Quote(inp.mainClass.value))
            else None)
      && LastValue(doc, FsNameKey) ==
           Some(if inp.composePackageName.Some? then Quote(inp.composePackageName.value)
                else Quote(LowerAscii(inp.projectName)))
  {
    var h, fx, jp, c := HeaderLines(inp), JavaFxLines(inp), JavaPluginLines(inp), ComposeLines(inp);
    var deps := DependencyLines(inp.appJar, inp.deps);
    var doc := Document(inp).value;
    assert doc == h + fx + jp + c + deps;
    forall key | OverriddenKey(key)
      ensures LastValue(doc, key) ==
        var s1 := LastValue(h, key);
        var s2 := if LastValue(ApplicationLines(inp), key).Some? then LastValue(ApplicationLines(inp), key) else s1;
        var cm := LastValue(ComposeMainClassLines(inp.composeMainClass), key);
        var cn := LastValue(OptionalAssign(FsNameKey, inp.composePackageName), key);
        var s3 := if cm.Some? then cm else s2;
        if cn.Some? then cn else s3
    {
      JavaFxNotAssigning(inp, key);
      JavaPluginSectionValue(inp, key);
      ComposeSectionValue(inp, key);
      DependencyLinesNotAssigning(inp.appJar, inp.deps, key);
      LastValueAppend(h, fx, key);
      LastValueAppend(h + fx, jp, key);
      LastValueAppend(h + fx + jp, c, key);
      LastValueAppend(h + fx + jp + c, deps, key);
    }
    HeaderValues(inp);
    ApplicationValues(inp);
    ComposeValues(inp);
  }

  /** Only the application plugin's part of its section assigns overridden keys. */
  lemma JavaPluginSectionValue(inp: TaskInputs, key: string)
    requires OverriddenKey(key)
    ensures LastValue(JavaPluginLines(inp), key) == LastValue(ApplicationLines(inp), key)
  {
    ToolchainNotAssigning(inp.jvmLanguageVersion, inp.jvmVendorValue, key);
    LastValueAppend(ApplicationLines(inp), ToolchainLines(inp.jvmLanguageVersion, inp.jvmVendorValue), key);
  }

  /** In the Compose Desktop section only the main-class lines and the package
      name assign overridden keys, the package name after the main class. */
  lemma ComposeSectionValue(inp: TaskInputs, key: string)
    requires OverriddenKey(key)
    ensures var cm := LastValue(ComposeMainClassLines(inp.composeMainClass), key);
      var cn := LastValue(OptionalAssign(FsNameKey, inp.composePackageName), key);
      LastValue(ComposeLines(inp), key) == if cn.Some? then cn else cm
  {
    var cm := ComposeMainClassLines(inp.composeMainClass);
    var cj := JvmOptionsLines(inp.composeJvmArgs, inp.rootProjectDir);
    var cn := OptionalAssign(FsNameKey, inp.composePackageName);
    var cd := OptionalAssign("app.description", inp.composeDescription);
    var cv := OptionalAssign("app.vendor", inp.composeVendor);
    var cr := ComposeResourceLines(inp.composeAppResourcesRootDir, inp.existingResourceDirs);
    var intro := [ "", ComposeComment ];
    assert ComposeLines(inp) == intro + cm + cj + cn + cd + cv + cr;
    assert intro[1][0] == '/';
    SafeLinesNotAssigning(intro, key);
    if inp.composeDescription.Some? { assert cd == [cd[0]] && cd[0][4] == 'd'; }
    SafeLinesNotAssigning(cd, key);
    if inp.composeVendor.Some? { assert cv == [cv[0]] && cv[0][4] == 'v'; }
    SafeLinesNotAssigning(cv, key);
    JvmOptionsNotAssigning(inp.composeJvmArgs, inp.rootProjectDir, key);
    ComposeResourcesNotAssigning(inp.composeAppResourcesRootDir, inp.existingResourceDirs, key);
    LastValueAppend(intro, cm, key);
    LastValueAppend(intro + cm, cj, key);
    LastValueAppend(intro + cm + cj, cn, key);
    LastValueAppend(intro + cm + cj + cn, cd, key);
    LastValueAppend(intro + cm + cj + cn + cd, cv, key);
    LastValueAppend(intro + cm + cj + cn + cd + cv, cr, key);
  }

  lemma JavaFxNotAssigning(inp: TaskInputs, key: string)
    requires OverriddenKey(key)
    ensures LastValue(JavaFxLines(inp), key) == None
  {
    var lines := JavaFxLines(inp);
    if inp.javafx.Some? {
      assert lines[1][0] == '/' && lines[2][0] == 'i' && lines[3][0] == 'j';
      assert lines[4][4] == 'j' && lines[4][8] == 'm';
      assert forall l :: l in lines ==> l == lines[0] || l == lines[1] || l == lines[2] || l == lines[3] || l == lines[4];
    }
    SafeLinesNotAssigning(lines, key);
  }

  lemma ToolchainNotAssigning(version: Option<nat>, vendorValue: Option<string>, key: string)
    requires OverriddenKey(key)
    ensures LastValue(ToolchainLines(version, vendorValue), key) == None
  {
    var lines := ToolchainLines(version, vendorValue);
    if version.Some? {
      var vendor := vendorValue.GetOr("ADOPTIUM");
      if ConveyorVendor(vendor).Some? {
        assert lines[0][0] == '/' && lines[1][0] == 'i';
        assert forall l :: l in lines ==> l == lines[0] || l == lines[1];
      } else {
        assert lines[0][0] == '/' && lines[1][0] == '/' && lines[2][0] == '/' && lines[3][0] == '/' && lines[4][0] == 'i';
        assert forall l :: l in lines ==> l == lines[0] || l == lines[1] || l == lines[2] || l == lines[3] || l == lines[4];
      }
    }
    SafeLinesNotAssigning(lines, key);
  }

  lemma HeaderValues(inp: TaskInputs)
    ensures LastValue(HeaderLines(inp), MainClassKey) == None
    ensures LastValue(HeaderLines(inp), StartupWMClassKey) == None
    ensures LastValue(HeaderLines(inp), FsNameKey) == Some(Quote(LowerAscii(inp.projectName)))
  {
    var h := HeaderLines(inp);
    var front, fs, back := h[..5], [h[5]], h[6..];
    assert h == front + fs + back;
    assert front[0][0] == '/' && front[2][0] == '/' && front[3][0] == 'g' && front[4][0] == 'g';
    assert back[0][4] == 'v' && back[1][4] == 'r' && |back| == 2;
    SafeLinesNotAssigning(front, MainClassKey);
    SafeLinesNotAssigning(front, StartupWMClassKey);
    SafeLinesNotAssigning(front, FsNameKey);
    SafeLinesNotAssigning(back, MainClassKey);
    SafeLinesNotAssigning(back, StartupWMClassKey);
    SafeLinesNotAssigning(back, FsNameKey);
    AssignValue(FsNameKey, Quote(LowerAscii(inp.projectName)));
    OtherKeyNotAssigning(MainClassKey, FsNameKey, Quote(LowerAscii(inp.projectName)));
    OtherKeyNotAssigning(StartupWMClassKey, FsNameKey, Quote(LowerAscii(inp.projectName)));
    forall key | OverriddenKey(key)
      ensures LastValue(h, key) == if LastValue(fs, key).Some? then LastValue(fs, key) else LastValue(front, key)
    {
      LastValueAppend(front, fs, key);
      LastValueAppend(front + fs, back, key);
    }
  }

  lemma ApplicationValues(inp: TaskInputs)
    ensures LastValue(ApplicationLines(inp), MainClassKey) ==
      if inp.mainClass.Some? then Some(Quote(inp.mainClass.value)) else None
    ensures LastValue(ApplicationLines(inp), StartupWMClassKey) ==
      if inp.mainClass.Some? then Some(Quote(inp.mainClass.value)) else None
    ensures LastValue(ApplicationLines(inp), FsNameKey) == None
  {
    var lines := ApplicationLines(inp);
    if inp.mainClass.Some? {
      var mc := inp.mainClass.value;
      var jo := JvmOptionsLines(inp.applicationDefaultJvmArgs, inp.rootProjectDir);
      var a := ["", ApplicationComment];
      var m := [Assign(MainClassKey, Quote(mc))];
      var w := [Assign(StartupWMClassKey, Quote(mc))];
      assert lines == a + m + w + jo + [""];
      assert a[1][0] == '/';
      forall key | OverriddenKey(key)
        ensures LastValue(lines, key) ==
          if LastValue(w, key).Some? then LastValue(w, key) else LastValue(m, key)
      {
        SafeLinesNotAssigning(a, key);
        SafeLinesNotAssigning([""], key);
        JvmOptionsNotAssigning(inp.applicationDefaultJvmArgs, inp.rootProjectDir, key);
        LastValueAppend(a, m, key);
        LastValueAppend(a + m, w, key);
        LastValueAppend(a + m + w, jo, key);
        LastValueAppend(a + m + w + jo, [""], key);
      }
      AssignValue(MainClassKey, Quote(mc));
      AssignValue(StartupWMClassKey, Quote(mc));
      OtherKeyNotAssigning(StartupWMClassKey, MainClassKey, Quote(mc));
      OtherKeyNotAssigning(FsNameKey, MainClassKey, Quote(mc));
      OtherKeyNotAssigning(MainClassKey, StartupWMClassKey, Quote(mc));
      OtherKeyNotAssigning(FsNameKey, StartupWMClassKey, Quote(mc));
    }
  }

  lemma ComposeValues(inp: TaskInputs)
    ensures LastValue(ComposeMainClassLines(inp.composeMainClass), MainClassKey) ==
      if inp.composeMainClass.Some? then Some(Quote(inp.composeMainClass.value)) else None
    ensures LastValue(ComposeMainClassLines(inp.composeMainClass), StartupWMClassKey) ==
      if inp.composeMainClass.Some? then Some(Quote(ReplaceChar(inp.composeMainClass.value, '.', '-'))) else None
    ensures LastValue(ComposeMainClassLines(inp.composeMainClass), FsNameKey) == None
    ensures LastValue(OptionalAssign(FsNameKey, inp.composePackageName), FsNameKey) ==
      if inp.composePackageName.Some? then Some(Quote(inp.composePackageName.value)) else None
    ensures LastValue(OptionalAssign(FsNameKey, inp.composePackageName), MainClassKey) == None
    ensures LastValue(OptionalAssign(FsNameKey, inp.composePackageName), StartupWMClassKey) == None
  {
    if inp.composeMainClass.Some? {
      var mc := inp.composeMainClass.value;
      var wm := Quote(ReplaceChar(mc, '.', '-'));
      var m := [Assign(MainClassKey, Quote(mc))];
      var w := [Assign(StartupWMClassKey, wm)];
      assert ComposeMainClassLines(inp.composeMainClass) == m + w;
      AssignValue(MainClassKey, Quote(mc));
      AssignValue(StartupWMClassKey, wm);
      OtherKeyNotAssigning(MainClassKey, StartupWMClassKey, wm);
      OtherKeyNotAssigning(FsNameKey, StartupWMClassKey, wm);
      OtherKeyNotAssigning(StartupWMClassKey, MainClassKey, Quote(mc));
      OtherKeyNotAssigning(FsNameKey, MainClassKey, Quote(mc));
      LastValueAppend(m, w, MainClassKey);
      LastValueAppend(m, w, StartupWMClassKey);
      LastValueAppend(m, w, FsNameKey);
    }
    if inp.composePackageName.Some? {
      var v := Quote(inp.composePackageName.value);
      AssignValue(FsNameKey, v);
      OtherKeyNotAssigning(MainClassKey, FsNameKey, v);
      OtherKeyNotAssigning(StartupWMClassKey, FsNameKey, v);
    }
  }
}
