/** The text the configuration task generates, as functions from the task's
    inputs to the lines of the document: the header with its two validations,
    then the OpenJFX, application/toolchain, Compose Desktop and inputs
    sections, in that order. */
module ConfigText {
  import opened Wrappers
  import opened Strings
  import opened Hocon
  import opened Classpath

  /** The OpenJFX plugin's settings (present exactly when the plugin is applied). */
  datatype JavaFx = JavaFx(version: string, modules: seq<string>)

  /** The task's input properties once the build has filled them in. Optional
      properties are `Option`s; list properties that may be unset are empty. */
  datatype TaskInputs = TaskInputs(
    buildDirectory: string,
    projectName: string,
    projectVersion: string,
    projectGroup: string,
    mainClass: Option<string>,
    applicationDefaultJvmArgs: seq<string>,
    jvmLanguageVersion: Option<nat>,
    jvmVendorValue: Option<string>,
    rootProjectDir: string,
    javafx: Option<JavaFx>,
    composeMainClass: Option<string>,
    composeJvmArgs: seq<string>,
    composePackageName: Option<string>,
    composeDescription: Option<string>,
    composeVendor: Option<string>,
    composeAppResourcesRootDir: Option<string>,
    // the names of the sub-directories of the Compose resources root that exist on disk
    existingResourceDirs: set<string>,
    appJar: string,
    deps: DependencyInputs)

  const MissingVersionMessage: string :=
    "You must set the 'version' property of the project, because all package formats require one."
  const MissingGroupMessage: string :=
    "You must set the 'group' property of the project, because some package formats require a reverse DNS name."

  const MainClassKey: string := "app.jvm.gui.main-class"
  /** A key of the `Desktop Entry` group of the Linux desktop file. */
  function DesktopEntryKey(name: string): string {
    "app.linux.desktop-file.\"Desktop Entry\"." + name
  }

  const StartupWMClassKey: string := DesktopEntryKey("StartupWMClass")
  const FsNameKey: string := "app.fsname"

  /** A `// text` comment line. */
  function Comment(text: string): string {
    "// " + text
  }

  /** An `include required("path")` line. */
  function IncludeRequired(path: string): string {
    "include required(\"" + path + "\")"
  }

  // The fixed comment and include lines of the document.
  const GeneratedComment: string := Comment("Generated by the Conveyor Gradle plugin.")
  const ProjectDataComment: string := Comment("Gradle project data. The build directory is useful for importing built files.")
  const JavaFxComment: string := Comment("Config from the OpenJFX plugin.")
  const JavaFxInclude: string := IncludeRequired("/stdlib/jvm/javafx/from-jmods.conf")
  const ApplicationComment: string := Comment("Config from the application plugin.")
  const JavaPluginComment: string := Comment("Config from the Java plugin.")
  const UnknownVendorHint: string :=
    Comment("You can still use it, you'll just have to add JDK inputs that define where to download or find it.")
  const UnknownVendorLink: string :=
    Comment("Please see https://conveyor.hydraulic.dev/latest/configs/jvm/#importing-a-jvmjdk for assistance.")
  const ComposeComment: string := Comment("Config from the Jetpack Compose Desktop plugin.")
  const InputsComment: string := Comment("Inputs from dependency configurations and the JAR task.")

  function UnknownVendorComment(vendor: string): string {
    Comment("Gradle build requests a JVM from " + vendor + " but this vendor isn't known to Conveyor at this time.")
  }

  /** A `key = value` line. */
  function Assign(key: string, value: string): string {
    key + " = " + value
  }

  /** A `key += value` line, which appends to an array. */
  function AppendTo(key: string, value: string): string {
    key + " += " + value
  }

  // ---------------------------------------------------------------------------
  // Header (lines 352-367)
  // ---------------------------------------------------------------------------

  predicate VersionMissing(version: string) {
    IsBlank(version) || version == "unspecified"
  }

  function HeaderLines(inp: TaskInputs): seq<string> {
    [ GeneratedComment,
      "",
      ProjectDataComment,
      Assign("gradle.build-dir", Quote(inp.buildDirectory)),
      Assign("gradle.project-name", Quote(inp.projectName)),
      Assign(FsNameKey, Quote(LowerAscii(inp.projectName))),
      Assign("app.version", inp.projectVersion),
      Assign("app.rdns-name", inp.projectGroup + ".${app.fsname}") ]
  }

  // ---------------------------------------------------------------------------
  // JVM options (importJVMArgs, lines 340-348)
  // ---------------------------------------------------------------------------

  /** `filterNot { rootProjectDir in it }`: the arguments, in order, that do not
      mention the root project directory. */
  function ArgsNotPointingIntoTree(args: seq<string>, rootDir: string): (r: seq<string>)
    ensures |r| <= |args|
    ensures forall i :: 0 <= i < |r| ==> r[i] in args && !Contains(r[i], rootDir)
    ensures forall i :: 0 <= i < |args| && !Contains(args[i], rootDir) ==> args[i] in r
  {
    if |args| == 0 then []
    else if Contains(args[|args| - 1], rootDir) then ArgsNotPointingIntoTree(args[..|args| - 1], rootDir)
    else ArgsNotPointingIntoTree(args[..|args| - 1], rootDir) + [args[|args| - 1]]
  }

  function QuoteAll(items: seq<string>): seq<string>
  {
    seq(|items|, i requires 0 <= i < |items| => Quote(items[i]))
  }

  /** `joinToString(", ", "[ ", " ]")`. */
  function ArrayLiteral(items: seq<string>): string {
    "[ " + Join(items, ", ") + " ]"
  }

  function JvmOptionsLines(args: seq<string>, rootDir: string): seq<string> {
    var kept := ArgsNotPointingIntoTree(args, rootDir);
    if |kept| == 0 then []
    else [Assign("app.jvm.options", "${app.jvm.options} " + ArrayLiteral(QuoteAll(kept)))]
  }

  // ---------------------------------------------------------------------------
  // OpenJFX plugin (importFromJavaFXPlugin, lines 254-272)
  // ---------------------------------------------------------------------------

  function JavaFxLines(inp: TaskInputs): seq<string> {
    match inp.javafx
    case None => []
    case Some(fx) =>
      [ "",
        JavaFxComment,
        JavaFxInclude,
        Assign("javafx.version", fx.version),
        Assign("app.jvm.modules", "${app.jvm.modules} " + ArrayLiteral(fx.modules)) ]
  }

  // ---------------------------------------------------------------------------
  // Application plugin and Java toolchain (importFromJavaPlugin, lines 300-338)
  // ---------------------------------------------------------------------------

  function ApplicationLines(inp: TaskInputs): seq<string> {
    match inp.mainClass
    case None => []
    case Some(mc) =>
      [ "",
        ApplicationComment,
        Assign(MainClassKey, Quote(mc)),
        Assign(StartupWMClassKey, Quote(mc)) ]
      + JvmOptionsLines(inp.applicationDefaultJvmArgs, inp.rootProjectDir)
      + [""]
  }

  /** The Conveyor JDK vendor for a Gradle toolchain vendor token, if known. */
  function ConveyorVendor(vendor: string): Option<string> {
    if vendor == "any" then Some("openjdk")
    else match vendor
      case "AMAZON" => Some("amazon")
      case "AZUL" => Some("azul")
      case "ORACLE" => Some("openjdk")
      case "MICROSOFT" => Some("microsoft")
      case "ADOPTIUM" => Some("eclipse")
      case "GRAAL_VM" => Some("graalvm")
      case _ => None
  }

  function JdkInclude(version: nat, conveyorVendor: string): string {
    IncludeRequired("/stdlib/jdk/" + NatToString(version) + "/" + conveyorVendor + ".conf")
  }

  function UnknownVendorWarning(vendor: string): string {
    AppendTo("internal.conveyor.warnings", "\"unknown-jdk-vendor:" + vendor + "\"")
  }

  /** The lines importing the JDK of a vendor Conveyor knows. */
  function KnownVendorLines(version: nat, conveyorVendor: string): seq<string> {
    [ JavaPluginComment,
      JdkInclude(version, conveyorVendor) ]
  }

  /** The explanation and warning written for a vendor Conveyor does not know. */
  function UnknownVendorLines(vendor: string): seq<string> {
    [ UnknownVendorComment(vendor),
      UnknownVendorHint,
      "//",
      UnknownVendorLink,
      UnknownVendorWarning(vendor) ]
  }

  /** The toolchain lines for a requested vendor: the JDK include when Conveyor
      knows the vendor, the explanation and warning otherwise. */
  function VendorLines(version: nat, vendor: string): seq<string> {
    match ConveyorVendor(vendor)
    case Some(cv) => KnownVendorLines(version, cv)
    case None => UnknownVendorLines(vendor)
  }

  function ToolchainLines(jvmLanguageVersion: Option<nat>, jvmVendorValue: Option<string>): seq<string> {
    match jvmLanguageVersion
    case None => []
    case Some(version) => VendorLines(version, jvmVendorValue.GetOr("ADOPTIUM"))
  }

  function JavaPluginLines(inp: TaskInputs): seq<string> {
    ApplicationLines(inp) + ToolchainLines(inp.jvmLanguageVersion, inp.jvmVendorValue)
  }

  // ---------------------------------------------------------------------------
  // Compose Desktop plugin (importFromComposePlugin, lines 214-252)
  // ---------------------------------------------------------------------------

  /** The fixed, ordered table of (input array key, resources sub-directory). */
  const ComposeResourceTable: seq<(string, string)> := [
    ("inputs", "common"),
    ("mac.inputs", "macos"),
    ("windows.inputs", "windows"),
    ("linux.inputs", "linux"),
    ("mac.amd64.inputs", "macos-x64"),
    ("mac.aarch64.inputs", "macos-arm64"),
    ("windows.amd64.inputs", "windows-x64"),
    ("windows.aarch64.inputs", "windows-arm64"),
    ("linux.amd64.inputs", "linux-x64"),
    ("linux.aarch64.inputs", "linux-arm64")
  ]

  /** `File.resolve` of a relative name. */
  function ResolvePath(dir: string, name: string): string {
    dir + "/" + name
  }

  function ResourceLine(rootDir: string, entry: (string, string)): string {
    AppendTo("app." + entry.0, Quote(ResolvePath(rootDir, entry.1)))
  }

  /** The line for one table entry, when its sub-directory exists. */
  function ResourceEntryLines(rootDir: string, existing: set<string>, entry: (string, string)): seq<string> {
    if entry.1 in existing then [ResourceLine(rootDir, entry)] else []
  }

  /** The lines of each table entry, in table order. */
  function ResourceEntries(rootDir: string, existing: set<string>, table: seq<(string, string)>): seq<seq<string>> {
    seq(|table|, i requires 0 <= i < |table| => ResourceEntryLines(rootDir, existing, table[i]))
  }

  /** One line per table entry whose sub-directory exists, in table order. */
  function ResourceTableLines(rootDir: string, existing: set<string>, table: seq<(string, string)>): seq<string> {
    Flatten(ResourceEntries(rootDir, existing, table))
  }

  /** The key of a JVM system property, its name quoted. */
  function SystemPropertyKey(name: string): string {
    "app.jvm.system-properties.\"" + name + "\""
  }

  /** Sets `compose.application.resources.dir` to the quoted `&&` (the
      application's installed location). */
  const ResourcesDirProperty: string :=
    Assign(SystemPropertyKey("compose.application.resources.dir"), Quote("&&"))

  function OptionalAssign(key: string, value: Option<string>): seq<string> {
    match value
    case None => []
    case Some(v) => [Assign(key, Quote(v))]
  }

  function ComposeMainClassLines(composeMainClass: Option<string>): seq<string> {
    match composeMainClass
    case None => []
    case Some(mc) => [Assign(MainClassKey, Quote(mc)), Assign(StartupWMClassKey, Quote(ReplaceChar(mc, '.', '-')))]
  }

  function ComposeResourceLines(rootDir: Option<string>, existing: set<string>): seq<string> {
    match rootDir
    case None => []
    case Some(root) => [ResourcesDirProperty] + ResourceTableLines(root, existing, ComposeResourceTable)
  }

  function ComposeLines(inp: TaskInputs): seq<string> {
    [ "", ComposeComment ]
    + ComposeMainClassLines(inp.composeMainClass)
    + JvmOptionsLines(inp.composeJvmArgs, inp.rootProjectDir)
    + OptionalAssign(FsNameKey, inp.composePackageName)
    + OptionalAssign("app.description", inp.composeDescription)
    + OptionalAssign("app.vendor", inp.composeVendor)
    + ComposeResourceLines(inp.composeAppResourcesRootDir, inp.existingResourceDirs)
  }

  // ---------------------------------------------------------------------------
  // Inputs (importFromDependencyConfigurations, lines 274-298)
  // ---------------------------------------------------------------------------

  const CommonBlockOpen: string := "app.inputs = ${app.inputs} ["

  function EntryLine(entry: string): string {
    "    " + Quote(entry)
  }

  function EntryLines(entries: seq<string>): seq<string>
  {
    seq(|entries|, i requires 0 <= i < |entries| => EntryLine(entries[i]))
  }

  function PlatformBlockOpen(platform: string): string {
    "app." + platform + ".inputs = ${app." + platform + ".inputs} ["
  }

  function CommonBlock(commonFiles: set<string>): seq<string> {
    if commonFiles == {} then []
    else [CommonBlockOpen] + EntryLines(SortedElements(commonFiles)) + ["]"]
  }

  /** A platform's block, or nothing when its delta is empty. The delta is
      listed in ascending order: a sorted set minus other elements iterates in
      the sorted set's order (see `Strings.SortedElementsUnique`). */
  function PlatformBlock(platform: string, delta: set<string>): seq<string> {
    if delta == {} then []
    else ["", PlatformBlockOpen(platform)] + EntryLines(SortedElements(delta)) + ["]"]
  }

  function PlatformDeltaBlock(platform: string, deps: DependencyInputs): seq<string>
    requires platform in deps.expandedConfigs
  {
    PlatformBlock(platform, Delta(deps.expandedConfigs[platform], deps.commonFiles))
  }

  /** The block of each of the given platforms, in the given order. */
  function PlatformDeltaBlocks(platforms: seq<string>, deps: DependencyInputs): seq<seq<string>>
    requires forall i :: 0 <= i < |platforms| ==> platforms[i] in deps.expandedConfigs
  {
    seq(|platforms|, i requires 0 <= i < |platforms| && platforms[i] in deps.expandedConfigs =>
      PlatformDeltaBlock(platforms[i], deps))
  }

  /** The blocks of the given platforms, one after the other. */
  function PlatformBlocks(platforms: seq<string>, deps: DependencyInputs): seq<string>
    requires forall i :: 0 <= i < |platforms| ==> platforms[i] in deps.expandedConfigs
  {
    Flatten(PlatformDeltaBlocks(platforms, deps))
  }

  function DependencyLines(appJar: string, deps: DependencyInputs): seq<string> {
    [ "", InputsComment, AppendTo("app.inputs", Quote(appJar)) ]
    + CommonBlock(deps.commonFiles)
    + PlatformBlocks(SortedElements(deps.expandedConfigs.Keys), deps)
  }

  // ---------------------------------------------------------------------------
  // The whole document (generate, lines 350-374)
  // ---------------------------------------------------------------------------

  function Document(inp: TaskInputs): Result<seq<string>, string> {
    if VersionMissing(inp.projectVersion) then Err(MissingVersionMessage)
    else if IsBlank(inp.projectGroup) then Err(MissingGroupMessage)
    else Ok(HeaderLines(inp) + JavaFxLines(inp) + JavaPluginLines(inp) + ComposeLines(inp)
            + DependencyLines(inp.appJar, inp.deps))
  }
}
