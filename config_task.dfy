/** The configuration task itself: a text buffer that lines are appended to,
    and the task's `importFrom...` steps and `generate`, each appending to the
    buffer what the corresponding function of `ConfigText` describes. */
module ConfigTask {
  import opened Wrappers
  import opened Strings
  import opened Hocon
  import opened Classpath
  import opened ConfigText

  /** The `StringBuilder` the document is built in, as the lines appended so far. */
  class ConfigBuilder {
    var lines: seq<string>

    constructor()
      ensures lines == []
    {
      lines := [];
    }

    /** `appendLine(s)`. */
    method AppendLine(s: string)
      modifies this
      ensures lines == old(lines) + [s]
    {
      lines := lines + [s];
    }
  }

  /** Appending in two steps appends the concatenation. */
  lemma AppendAssoc(a: seq<string>, b: seq<string>, c: seq<string>)
    ensures (a + b) + c == a + (b + c)
  {
  }

  /** The task with its input properties read. */
  class ConveyorConfigTask {
    const inp: TaskInputs

    constructor(inp: TaskInputs)
      ensures this.inp == inp
    {
      this.inp := inp;
    }

    /** `importJVMArgs`: one `app.jvm.options` line holding the arguments that do
        not mention the root project directory, or nothing when there are none. */
    method ImportJvmArgs(sb: ConfigBuilder, jvmArgs: seq<string>)
      modifies sb
      ensures sb.lines == old(sb.lines) + JvmOptionsLines(jvmArgs, inp.rootProjectDir)
    {
      var kept := ArgsNotPointingIntoTree(jvmArgs, inp.rootProjectDir);
      if |kept| > 0 {
        sb.AppendLine(Assign("app.jvm.options", "${app.jvm.options} " + ArrayLiteral(QuoteAll(kept))));
      }
    }

    method ImportFromJavaFxPlugin(sb: ConfigBuilder)
      modifies sb
      ensures sb.lines == old(sb.lines) + JavaFxLines(inp)
    {
      if inp.javafx.Some? {
        var fx := inp.javafx.value;
        sb.AppendLine("");
        sb.AppendLine(JavaFxComment);
        sb.AppendLine(JavaFxInclude);
        sb.AppendLine(Assign("javafx.version", fx.version));
        sb.AppendLine(Assign("app.jvm.modules", "${app.jvm.modules} " + ArrayLiteral(fx.modules)));
      }
    }

    /** The application-plugin part of `importFromJavaPlugin`. */
    method ImportApplication(sb: ConfigBuilder)
      modifies sb
      ensures sb.lines == old(sb.lines) + ApplicationLines(inp)
    {
      if inp.mainClass.Some? {
        var mainClassValue := Quote(inp.mainClass.value);
        sb.AppendLine("");
        sb.AppendLine(ApplicationComment);
        sb.AppendLine(Assign(MainClassKey, mainClassValue));
        sb.AppendLine(Assign(StartupWMClassKey, mainClassValue));
        ImportJvmArgs(sb, inp.applicationDefaultJvmArgs);
        sb.AppendLine("");
      }
    }

    /** The toolchain part of `importFromJavaPlugin`. */
    method ImportToolchain(sb: ConfigBuilder)
      modifies sb
      ensures sb.lines == old(sb.lines) + ToolchainLines(inp.jvmLanguageVersion, inp.jvmVendorValue)
    {
      if inp.jvmLanguageVersion.Some? {
        var jvmVersion := inp.jvmLanguageVersion.value;
        var vendor := inp.jvmVendorValue.GetOr("ADOPTIUM");
        ImportJdk(sb, jvmVersion, vendor);
      }
    }

    /** The JDK of the requested vendor, or the warning for an unknown one. */
    method ImportJdk(sb: ConfigBuilder, jvmVersion: nat, vendor: string)
      modifies sb
      ensures sb.lines == old(sb.lines) + VendorLines(jvmVersion, vendor)
    {
      var conveyorVendor := ConveyorVendor(vendor);
      if conveyorVendor.Some? {
        sb.AppendLine(JavaPluginComment);
        sb.AppendLine(JdkInclude(jvmVersion, conveyorVendor.value));
        assert sb.lines == old(sb.lines) + KnownVendorLines(jvmVersion, conveyorVendor.value);
      } else {
        sb.AppendLine(UnknownVendorComment(vendor));
        sb.AppendLine(UnknownVendorHint);
        sb.AppendLine("//");
        sb.AppendLine(UnknownVendorLink);
        sb.AppendLine(UnknownVendorWarning(vendor));
        assert sb.lines == old(sb.lines) + UnknownVendorLines(vendor);
      }
    }

    method ImportFromJavaPlugin(sb: ConfigBuilder)
      modifies sb
      ensures sb.lines == old(sb.lines) + JavaPluginLines(inp)
    {
      ImportApplication(sb);
      ImportToolchain(sb);
      AppendAssoc(old(sb.lines), ApplicationLines(inp), ToolchainLines(inp.jvmLanguageVersion, inp.jvmVendorValue));
    }

    /** The Compose main class: the GUI main class and, with its dots turned
        into dashes, the `StartupWMClass` of the Linux desktop file. */
    method ImportComposeMainClass(sb: ConfigBuilder)
      modifies sb
      ensures sb.lines == old(sb.lines) + ComposeMainClassLines(inp.composeMainClass)
    {
      if inp.composeMainClass.Some? {
        var mc := inp.composeMainClass.value;
        sb.AppendLine(Assign(MainClassKey, Quote(mc)));
        sb.AppendLine(Assign(StartupWMClassKey, Quote(ReplaceChar(mc, '.', '-'))));
      }
    }

    /** `value?.let { appendLine("key = " + quote(it)) }`. */
    method ImportOptional(sb: ConfigBuilder, key: string, value: Option<string>)
      modifies sb
      ensures sb.lines == old(sb.lines) + OptionalAssign(key, value)
    {
      if value.Some? {
        sb.AppendLine(Assign(key, Quote(value.value)));
      }
    }

    /** The resources directory: the system property pointing at the installed
        application, then the loop over the resources table adding one input
        per sub-directory that exists, in table order. */
    method ImportResourceDirs(sb: ConfigBuilder)
      modifies sb
      ensures sb.lines == old(sb.lines) + ComposeResourceLines(inp.composeAppResourcesRootDir, inp.existingResourceDirs)
    {
      if inp.composeAppResourcesRootDir.Some? {
        var rootDir := inp.composeAppResourcesRootDir.value;
        sb.AppendLine(ResourcesDirProperty);
        ghost var start := sb.lines;
        var parts := ResourceEntries(rootDir, inp.existingResourceDirs, ComposeResourceTable);
        var k := 0;
        while k < |ComposeResourceTable|
          invariant 0 <= k <= |ComposeResourceTable|
          invariant sb.lines == start + Flatten(parts[..k])
        {
          var entry := ComposeResourceTable[k];
          if entry.1 in inp.existingResourceDirs {
            sb.AppendLine(ResourceLine(rootDir, entry));
          }
          assert parts[..k + 1][..k] == parts[..k];
          AppendAssoc(start, Flatten(parts[..k]), parts[k]);
          k := k + 1;
        }
        assert parts[..k] == parts;
        AppendAssoc(old(sb.lines), [ResourcesDirProperty], Flatten(parts));
      }
    }

    method ImportFromComposePlugin(sb: ConfigBuilder)
      modifies sb
      ensures sb.lines == old(sb.lines) + ComposeLines(inp)
    {
      sb.AppendLine("");
      sb.AppendLine(ComposeComment);
      ghost var expected := ["", ComposeComment];
      assert sb.lines == old(sb.lines) + expected;
      ImportComposeMainClass(sb);
      AppendAssoc(old(sb.lines), expected, ComposeMainClassLines(inp.composeMainClass));
      expected := expected + ComposeMainClassLines(inp.composeMainClass);
      ImportJvmArgs(sb, inp.composeJvmArgs);
      AppendAssoc(old(sb.lines), expected, JvmOptionsLines(inp.composeJvmArgs, inp.rootProjectDir));
      expected := expected + JvmOptionsLines(inp.composeJvmArgs, inp.rootProjectDir);
      ImportOptional(sb, FsNameKey, inp.composePackageName);
      AppendAssoc(old(sb.lines), expected, OptionalAssign(FsNameKey, inp.composePackageName));
      expected := expected + OptionalAssign(FsNameKey, inp.composePackageName);
      ImportOptional(sb, "app.description", inp.composeDescription);
      AppendAssoc(old(sb.lines), expected, OptionalAssign("app.description", inp.composeDescription));
      expected := expected + OptionalAssign("app.description", inp.composeDescription);
      ImportOptional(sb, "app.vendor", inp.composeVendor);
      AppendAssoc(old(sb.lines), expected, OptionalAssign("app.vendor", inp.composeVendor));
      expected := expected + OptionalAssign("app.vendor", inp.composeVendor);
      ImportResourceDirs(sb);
      AppendAssoc(old(sb.lines), expected, ComposeResourceLines(inp.composeAppResourcesRootDir, inp.existingResourceDirs));
    }

    /** One indented, quoted line per entry, in the given order. */
    method AppendEntries(sb: ConfigBuilder, entries: seq<string>)
      modifies sb
      ensures sb.lines == old(sb.lines) + EntryLines(entries)
    {
      var m := 0;
      while m < |entries|
        invariant 0 <= m <= |entries|
        invariant sb.lines == old(sb.lines) + EntryLines(entries[..m])
      {
        sb.AppendLine(EntryLine(entries[m]));
        assert EntryLines(entries[..m + 1]) == EntryLines(entries[..m]) + [EntryLine(entries[m])];
        m := m + 1;
      }
      assert entries[..m] == entries;
    }

    /** The block of one platform, skipped when the platform has no files
        beyond the common ones. */
    method ImportPlatform(sb: ConfigBuilder, platform: string, files: set<string>)
      modifies sb
      ensures sb.lines == old(sb.lines) + PlatformBlock(platform, files)
    {
      if files != {} {
        sb.AppendLine("");
        sb.AppendLine(PlatformBlockOpen(platform));
        ghost var expected := ["", PlatformBlockOpen(platform)];
        assert sb.lines == old(sb.lines) + expected;
        var entries := SortedElements(files);
        AppendEntries(sb, entries);
        AppendAssoc(old(sb.lines), expected, EntryLines(entries));
        expected := expected + EntryLines(entries);
        sb.AppendLine("]");
        AppendAssoc(old(sb.lines), expected, ["]"]);
      }
    }

    /** The block of the files common to every platform, when there are any. */
    method ImportCommonFiles(sb: ConfigBuilder)
      modifies sb
      ensures sb.lines == old(sb.lines) + CommonBlock(inp.deps.commonFiles)
    {
      if inp.deps.commonFiles != {} {
        sb.AppendLine(CommonBlockOpen);
        var entries := SortedElements(inp.deps.commonFiles);
        AppendEntries(sb, entries);
        AppendAssoc(old(sb.lines), [CommonBlockOpen], EntryLines(entries));
        sb.AppendLine("]");
        AppendAssoc(old(sb.lines), [CommonBlockOpen] + EntryLines(entries), ["]"]);
      }
    }

    method ImportFromDependencyConfigurations(sb: ConfigBuilder)
      modifies sb
      ensures sb.lines == old(sb.lines) + DependencyLines(inp.appJar, inp.deps)
    {
      var deps := inp.deps;
      sb.AppendLine("");
      sb.AppendLine(InputsComment);
      sb.AppendLine(AppendTo("app.inputs", Quote(inp.appJar)));
      ghost var expected := ["", InputsComment, AppendTo("app.inputs", Quote(inp.appJar))];
      assert sb.lines == old(sb.lines) + expected;
      ImportCommonFiles(sb);
      AppendAssoc(old(sb.lines), expected, CommonBlock(deps.commonFiles));
      expected := expected + CommonBlock(deps.commonFiles);
      ghost var start := sb.lines;
      var platforms := SortedElements(deps.expandedConfigs.Keys);
      ghost var parts := PlatformDeltaBlocks(platforms, deps);
      var k := 0;
      while k < |platforms|
        invariant 0 <= k <= |platforms|
        invariant sb.lines == start + Flatten(parts[..k])
      {
        var platform := platforms[k];
        ImportPlatform(sb, platform, Delta(deps.expandedConfigs[platform], deps.commonFiles));
        assert parts[..k + 1][..k] == parts[..k];
        AppendAssoc(start, Flatten(parts[..k]), parts[k]);
        k := k + 1;
      }
      assert parts[..k] == parts;
      AppendAssoc(old(sb.lines), expected, Flatten(parts));
    }

    /** `generate`: the whole document, or the message of the exception thrown
        when the version or the group is missing. The lines appended before the
        exception are discarded with the builder. */
    method Generate() returns (r: Result<seq<string>, string>)
      ensures r == Document(inp)
    {
      var sb := new ConfigBuilder();
      sb.AppendLine(GeneratedComment);
      sb.AppendLine("");
      sb.AppendLine(ProjectDataComment);
      sb.AppendLine(Assign("gradle.build-dir", Quote(inp.buildDirectory)));
      sb.AppendLine(Assign("gradle.project-name", Quote(inp.projectName)));
      sb.AppendLine(Assign(FsNameKey, Quote(LowerAscii(inp.projectName))));
      var version := inp.projectVersion;
      if VersionMissing(version) {
        return Err(MissingVersionMessage);
      }
      sb.AppendLine(Assign("app.version", version));
      var group := inp.projectGroup;
      if IsBlank(group) {
        return Err(MissingGroupMessage);
      }
      sb.AppendLine(Assign("app.rdns-name", group + ".${app.fsname}"));
      assert sb.lines == HeaderLines(inp);
      ImportFromJavaFxPlugin(sb);
      ImportFromJavaPlugin(sb);
      ImportFromComposePlugin(sb);
      ImportFromDependencyConfigurations(sb);
      return Ok(sb.lines);
    }
  }
}
