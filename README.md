# Conveyor Gradle plugin: generated configuration text

This project models the part of the Conveyor Gradle plugin that turns a
Gradle project's settings into HOCON configuration text for Conveyor. That
part is the `ConveyorConfigTask` base class: its `generate` method and the
section writers it calls. It proves properties of that model in Dafny.

The model covers:

- **HOCON quoting** (`Hocon`). A value is quoted only when it holds one of
  the 19 characters HOCON reserves in unquoted strings. Quoting doubles each
  backslash and wraps the value in double quotes. A small reader of HOCON
  quoted strings is the reader against which the round trip is stated.
- **Classpath partition** (`Classpath`). Empty machine configurations are
  dropped. The common files are the intersection of the remaining machines'
  files, or the whole common classpath when no machine configuration is
  left. Each machine's platform-specific files are its own files minus the
  common ones.
- **The document** (`ConfigText`). The document is a sequence of lines. Each
  section writer is a function from the task's inputs to the lines it
  appends:
  - the header and its two validation failures;
  - the OpenJFX section;
  - the application plugin section, with JVM-argument filtering;
  - the Java toolchain section, with the JDK vendor table;
  - the Compose Desktop section, with its resource-directory table;
  - the inputs section, with the common block and the platform blocks.
- **The builder** (`ConfigTask`). `ConfigBuilder` is the string builder, as
  a line buffer that only grows. `ConveyorConfigTask` holds the task's
  inputs, and its methods append to the builder step by step, as the
  Kotlin extension functions on `StringBuilder` do. Each method is proved to
  append exactly its section function's lines. `Generate` is proved to
  return exactly `Document`.
- **Properties** (`ConfigProperties`, `SectionProperties`,
  `InputsProperties`):
  - "Last assignment wins" is modelled by `LastValue`. Under it, Compose
    Desktop's main class, window class and file-system name take
    precedence over the application plugin's and the header's.
  - Generation fails exactly on a missing version or a blank group.
  - The application JAR is always listed.
  - The common block and each platform block are written exactly when
    they have files.
  - Entries come in ascending order, each once. Platform blocks come in
    ascending platform order.
  - JVM arguments that mention the root project directory are dropped,
    and the rest keep their order.
  - A vendor token is mapped exactly when it is in the table. An unknown
    vendor yields a warning, not a failure.
  - A resource line is written for a table entry exactly when its
    directory exists, and the lines follow the table's order.

Three behaviours of the code worth knowing when reading the model:

- With a main class, the application plugin section writes the main class
  unchanged as the desktop-entry `StartupWMClass` (lines 304-306). Only the
  Compose section replaces `.` with `-`.
- The OpenJFX section always includes the fixed
  `/stdlib/jvm/javafx/from-jmods.conf`, whatever the JavaFX version (line 259).
- The Compose Desktop section, with its comment, is written on every run,
  whether or not Compose is applied (line 372).

Quoting does not escape an embedded `"`. `Hocon.EmbeddedQuoteBreaksRoundTrip`
shows the consequence: `a"b` is written `"a"b"`, which a HOCON reader does not
read back as one string. The round trip is proved for values without `"`.

## Model

All source paths are in `gradle-plugin/src/main/kotlin/hydraulic/conveyor/gradle/`; the table cites them in full.

| member | source | states |
|---|---|---|
| Hocon.HasForbiddenChars | gradle-plugin/src/main/kotlin/hydraulic/conveyor/gradle/ConveyorConfigTask.kt:201-205 | true exactly when some character of the value is one of the 19 reserved characters listed at line 202 |
| Hocon.EscapeBackslashes | gradle-plugin/src/main/kotlin/hydraulic/conveyor/gradle/ConveyorConfigTask.kt:209 | the result is as long as the value plus its number of backslashes |
| Hocon.EscapeBackslashesCounts | gradle-plugin/src/main/kotlin/hydraulic/conveyor/gradle/ConveyorConfigTask.kt:209 | the backslash count doubles and every other character's count is unchanged |
| Hocon.EscapeBackslashesChar | gradle-plugin/src/main/kotlin/hydraulic/conveyor/gradle/ConveyorConfigTask.kt:209 | a single backslash is escaped as two backslashes; any other single character, `"` included, is kept as it is |
| Hocon.EscapeBackslashesConcat | gradle-plugin/src/main/kotlin/hydraulic/conveyor/gradle/ConveyorConfigTask.kt:209 | escaping is character by character and in place: the escape of a concatenation is the concatenation of the escapes |
| Hocon.UnescapeEscapeBackslashes | gradle-plugin/src/main/kotlin/hydraulic/conveyor/gradle/ConveyorConfigTask.kt:209 | every value is read back unchanged from its escaped form by turning each doubled backslash back into one |
| Hocon.QuoteShape | gradle-plugin/src/main/kotlin/hydraulic/conveyor/gradle/ConveyorConfigTask.kt:207-212 | a value without reserved characters is returned unchanged; otherwise the result starts and ends with `"`, its inside is the backslash-doubled value, and it holds exactly two more `"` than the value |
| Hocon.QuoteRoundTrip | gradle-plugin/src/main/kotlin/hydraulic/conveyor/gradle/ConveyorConfigTask.kt:207-212 | a value that needs quoting and has no `"` and no control character reads back unchanged from its quoted form as a HOCON quoted string |
| Hocon.EmbeddedQuoteBreaksRoundTrip | gradle-plugin/src/main/kotlin/hydraulic/conveyor/gradle/ConveyorConfigTask.kt:207-212 | `a"b` is quoted as `"a"b"`, which does not read back as one quoted string |
| Classpath.IntersectAlong | gradle-plugin/src/main/kotlin/hydraulic/conveyor/gradle/ConveyorConfigTask.kt:190-191 | a file is in the reduction by intersection exactly when it is in every listed machine's files |
| Classpath.PartitionKeepsNonEmptyConfigs | gradle-plugin/src/main/kotlin/hydraulic/conveyor/gradle/ConveyorConfigTask.kt:181-185 | the expanded configurations are exactly the non-empty machine configurations, each with its resolved files |
| Classpath.CommonIsIntersection | gradle-plugin/src/main/kotlin/hydraulic/conveyor/gradle/ConveyorConfigTask.kt:190-194 | with at least one expanded configuration, a file is common exactly when every expanded configuration has it |
| Classpath.NoPlatformConfigsUsesCommonClasspath | gradle-plugin/src/main/kotlin/hydraulic/conveyor/gradle/ConveyorConfigTask.kt:190-194 | with no non-empty machine configuration the common files are the whole common classpath |
| Classpath.DeltaReconstructsPlatform | gradle-plugin/src/main/kotlin/hydraulic/conveyor/gradle/ConveyorConfigTask.kt:289 | a platform's extra files are a subset of its files, disjoint from the common files, and together with the common files they make up the platform's files |
| Strings.SortedElements | gradle-plugin/src/main/kotlin/hydraulic/conveyor/gradle/ConveyorConfigTask.kt:281 | the listing holds exactly the set's elements and is strictly ascending in code-point order |
| Strings.SortedElementsUnique | gradle-plugin/src/main/kotlin/hydraulic/conveyor/gradle/ConveyorConfigTask.kt:288-293 | every strictly ascending listing of a set is the same sequence, so iterating a sorted set or a sorted set minus a set gives that listing |
| Strings.ReplaceChar | gradle-plugin/src/main/kotlin/hydraulic/conveyor/gradle/ConveyorConfigTask.kt:219 | the result has the value's length, with each occurrence of the old character replaced and every other character kept |
| Strings.LowerAscii | gradle-plugin/src/main/kotlin/hydraulic/conveyor/gradle/ConveyorConfigTask.kt:357 | the result has the value's length, with each ASCII capital lowered and every other character kept |
| Strings.ContainsAt | gradle-plugin/src/main/kotlin/hydraulic/conveyor/gradle/ConveyorConfigTask.kt:343 | one string contains another exactly when the other occurs at some index |
| ConfigText.ArgsNotPointingIntoTree | gradle-plugin/src/main/kotlin/hydraulic/conveyor/gradle/ConveyorConfigTask.kt:341-343 | every kept argument is an input argument that does not mention the root project directory, every input argument that does not mention it is kept, and no more arguments come out than went in |
| SectionProperties.ArgsFilterConcat | gradle-plugin/src/main/kotlin/hydraulic/conveyor/gradle/ConveyorConfigTask.kt:341-343 | the filter works argument by argument: filtering a concatenation concatenates the filtered parts, so order is kept |
| SectionProperties.ArgsFilterSingle | gradle-plugin/src/main/kotlin/hydraulic/conveyor/gradle/ConveyorConfigTask.kt:343 | one argument is kept exactly when it does not contain the root project directory |
| SectionProperties.JvmOptionsEmptyIff | gradle-plugin/src/main/kotlin/hydraulic/conveyor/gradle/ConveyorConfigTask.kt:344 | no `app.jvm.options` line is written exactly when every argument mentions the root project directory |
| SectionProperties.JvmOptionsLineContents | gradle-plugin/src/main/kotlin/hydraulic/conveyor/gradle/ConveyorConfigTask.kt:344-346 | otherwise exactly one line is written, appending `[ ` + the quoted kept arguments joined by `, ` + ` ]` to `${app.jvm.options}` |
| SectionProperties.JvmOptionsSingleKept | gradle-plugin/src/main/kotlin/hydraulic/conveyor/gradle/ConveyorConfigTask.kt:345-346 | a single kept argument that needs no quoting appears verbatim between the brackets |
| SectionProperties.ExampleArgsFilter | gradle-plugin/src/main/kotlin/hydraulic/conveyor/gradle/ConveyorConfigTask.kt:341-343 | of `-Xmx512m` and `-Dfile=/home/u/proj/local.cfg` under root `/home/u/proj` only `-Xmx512m` is kept |
| SectionProperties.ExampleQuote | gradle-plugin/src/main/kotlin/hydraulic/conveyor/gradle/ConveyorConfigTask.kt:207-212 | `-Xmx512m` needs no quoting |
| SectionProperties.JvmOptionsExample | gradle-plugin/src/main/kotlin/hydraulic/conveyor/gradle/ConveyorConfigTask.kt:340-348 | the two arguments above produce the single line `app.jvm.options = ${app.jvm.options} [ -Xmx512m ]` |
| SectionProperties.VendorTable | gradle-plugin/src/main/kotlin/hydraulic/conveyor/gradle/ConveyorConfigTask.kt:317-325 | a vendor token is mapped exactly when it is one of the seven known tokens, and always to one of Conveyor's six JDK vendors |
| SectionProperties.VendorNames | gradle-plugin/src/main/kotlin/hydraulic/conveyor/gradle/ConveyorConfigTask.kt:317-323 | `any` and `ORACLE` map to `openjdk`, `ADOPTIUM` to `eclipse`, `GRAAL_VM` to `graalvm`, `AMAZON`, `AZUL` and `MICROSOFT` to their lower-case names |
| SectionProperties.ToolchainWithoutVersion | gradle-plugin/src/main/kotlin/hydraulic/conveyor/gradle/ConveyorConfigTask.kt:311 | without a toolchain language version nothing is written about the JDK |
| SectionProperties.ToolchainKnownVendor | gradle-plugin/src/main/kotlin/hydraulic/conveyor/gradle/ConveyorConfigTask.kt:326-328 | a known vendor gets exactly two lines: the `// Config from the Java plugin.` comment and then the include of `/stdlib/jdk/<version>/<conveyor vendor>.conf`; there is no other include and no warning |
| SectionProperties.ToolchainUnknownVendor | gradle-plugin/src/main/kotlin/hydraulic/conveyor/gradle/ConveyorConfigTask.kt:329-335 | an unknown vendor gets exactly five lines and no include: the comment naming the vendor, the hint, `//`, the documentation link and the `unknown-jdk-vendor:<vendor>` warning |
| SectionProperties.DefaultVendorIsEclipse | gradle-plugin/src/main/kotlin/hydraulic/conveyor/gradle/ConveyorConfigTask.kt:313 | an absent vendor is read as `ADOPTIUM` and includes the `eclipse` JDK of the requested version |
| SectionProperties.JdkIncludeExample | gradle-plugin/src/main/kotlin/hydraulic/conveyor/gradle/ConveyorConfigTask.kt:328 | version 17 of `azul` includes `/stdlib/jdk/17/azul.conf` |
| SectionProperties.UnknownVendorExample | gradle-plugin/src/main/kotlin/hydraulic/conveyor/gradle/ConveyorConfigTask.kt:329-334 | the token `EXOTIC` yields `internal.conveyor.warnings += "unknown-jdk-vendor:EXOTIC"` in the toolchain lines |
| SectionProperties.ResourceTableKeysDistinct | gradle-plugin/src/main/kotlin/hydraulic/conveyor/gradle/ConveyorConfigTask.kt:229-240 | no two entries of the resource table share a key |
| SectionProperties.ResourceTableLineIff | gradle-plugin/src/main/kotlin/hydraulic/conveyor/gradle/ConveyorConfigTask.kt:241-244 | for any table with space-free distinct keys, an entry's `app.<key> += <dir>` line is written exactly when its sub-directory exists |
| SectionProperties.ResourceLineIff | gradle-plugin/src/main/kotlin/hydraulic/conveyor/gradle/ConveyorConfigTask.kt:227-245 | with a resources root, each entry of the Compose table gets its line exactly when its sub-directory exists |
| SectionProperties.ResourcesDirPropertyIsNotResourceLine | gradle-plugin/src/main/kotlin/hydraulic/conveyor/gradle/ConveyorConfigTask.kt:228 | the resources-dir system property line is never one of the resource input lines |
| SectionProperties.NoResourcesWithoutRoot | gradle-plugin/src/main/kotlin/hydraulic/conveyor/gradle/ConveyorConfigTask.kt:227 | without a resources root nothing about resources is written |
| SectionProperties.ResourceLinesInTableOrder | gradle-plugin/src/main/kotlin/hydraulic/conveyor/gradle/ConveyorConfigTask.kt:229-245 | of two written resource lines, the one earlier in the table is written earlier |
| ConfigProperties.DocumentFailsOnlyOnValidation | gradle-plugin/src/main/kotlin/hydraulic/conveyor/gradle/ConveyorConfigTask.kt:359-367 | generation fails exactly when the version is blank or `unspecified` or the group is blank; the version check comes first, each with its own message |
| ConfigProperties.DocumentHeader | gradle-plugin/src/main/kotlin/hydraulic/conveyor/gradle/ConveyorConfigTask.kt:352-367 | a generated document starts with the quoted build directory, the quoted project name, the quoted lower-cased name as `app.fsname`, the version verbatim and `<group>.${app.fsname}` as the reverse DNS name |
| ConfigProperties.ComposeTakesPrecedence | gradle-plugin/src/main/kotlin/hydraulic/conveyor/gradle/ConveyorConfigTask.kt:369-373 | in the whole document the last main class, window class and file-system name are Compose's when set, else the application plugin's main class (unchanged for the window class) or none, else the lower-cased project name |
| ConfigProperties.HeaderValues | gradle-plugin/src/main/kotlin/hydraulic/conveyor/gradle/ConveyorConfigTask.kt:352-367 | the header sets the file-system name to the quoted lower-cased project name and sets no main class or window class |
| ConfigProperties.ApplicationValues | gradle-plugin/src/main/kotlin/hydraulic/conveyor/gradle/ConveyorConfigTask.kt:301-309 | the application section sets main class and window class to the same quoted main class when present, nothing otherwise, and never the file-system name |
| ConfigProperties.ComposeValues | gradle-plugin/src/main/kotlin/hydraulic/conveyor/gradle/ConveyorConfigTask.kt:217-224 | Compose sets the quoted main class, the window class with `.` replaced by `-`, and the package name as file-system name, each only when present |
| ConfigProperties.JavaPluginSectionValue | gradle-plugin/src/main/kotlin/hydraulic/conveyor/gradle/ConveyorConfigTask.kt:300-338 | in the Java plugin section only the application part assigns those three keys |
| ConfigProperties.ComposeSectionValue | gradle-plugin/src/main/kotlin/hydraulic/conveyor/gradle/ConveyorConfigTask.kt:214-252 | in the Compose section only the main-class lines and the package name assign those keys, the package name last |
| ConfigProperties.JavaFxNotAssigning | gradle-plugin/src/main/kotlin/hydraulic/conveyor/gradle/ConveyorConfigTask.kt:254-272 | the OpenJFX section assigns none of those keys |
| ConfigProperties.ToolchainNotAssigning | gradle-plugin/src/main/kotlin/hydraulic/conveyor/gradle/ConveyorConfigTask.kt:311-337 | the toolchain lines assign none of those keys |
| ConfigProperties.JvmOptionsNotAssigning | gradle-plugin/src/main/kotlin/hydraulic/conveyor/gradle/ConveyorConfigTask.kt:340-348 | the JVM options line assigns none of those keys |
| ConfigProperties.ComposeResourcesNotAssigning | gradle-plugin/src/main/kotlin/hydraulic/conveyor/gradle/ConveyorConfigTask.kt:227-245 | the resource lines assign none of those keys |
| ConfigProperties.DependencyLinesNotAssigning | gradle-plugin/src/main/kotlin/hydraulic/conveyor/gradle/ConveyorConfigTask.kt:274-298 | with space-free platform ids the inputs section assigns none of those keys |
| InputsProperties.AppJarAlwaysListed | gradle-plugin/src/main/kotlin/hydraulic/conveyor/gradle/ConveyorConfigTask.kt:277 | every generated document appends the quoted application JAR to `app.inputs` |
| InputsProperties.CommonBlockWrittenIff | gradle-plugin/src/main/kotlin/hydraulic/conveyor/gradle/ConveyorConfigTask.kt:279-285 | the common block is written exactly when there are common files |
| InputsProperties.PlatformBlockWrittenIff | gradle-plugin/src/main/kotlin/hydraulic/conveyor/gradle/ConveyorConfigTask.kt:288-292 | a platform block is written exactly for an expanded platform whose files go beyond the common ones |
| InputsProperties.CommonBlockListing | gradle-plugin/src/main/kotlin/hydraulic/conveyor/gradle/ConveyorConfigTask.kt:279-285 | the common block lists the common files in ascending order, each once, between its opener and `]` |
| InputsProperties.PlatformBlockListing | gradle-plugin/src/main/kotlin/hydraulic/conveyor/gradle/ConveyorConfigTask.kt:289-296 | a platform block lists the platform's extra files in ascending order, each once, after a blank line and its opener |
| InputsProperties.PlatformBlocksInOrder | gradle-plugin/src/main/kotlin/hydraulic/conveyor/gradle/ConveyorConfigTask.kt:288 | of two written platform blocks, the smaller platform's comes first |
| ConfigTask.ConfigBuilder.AppendLine | gradle-plugin/src/main/kotlin/hydraulic/conveyor/gradle/ConveyorConfigTask.kt:351-352 | appending a line adds exactly that line at the end and keeps the lines before it |
| ConfigTask.ConveyorConfigTask.ImportJvmArgs | gradle-plugin/src/main/kotlin/hydraulic/conveyor/gradle/ConveyorConfigTask.kt:340-348 | appends exactly the JVM options lines of the arguments |
| ConfigTask.ConveyorConfigTask.ImportFromJavaFxPlugin | gradle-plugin/src/main/kotlin/hydraulic/conveyor/gradle/ConveyorConfigTask.kt:254-272 | appends exactly the OpenJFX section |
| ConfigTask.ConveyorConfigTask.ImportApplication | gradle-plugin/src/main/kotlin/hydraulic/conveyor/gradle/ConveyorConfigTask.kt:301-309 | appends exactly the application plugin lines |
| ConfigTask.ConveyorConfigTask.ImportToolchain | gradle-plugin/src/main/kotlin/hydraulic/conveyor/gradle/ConveyorConfigTask.kt:311-337 | appends exactly the toolchain lines |
| ConfigTask.ConveyorConfigTask.ImportJdk | gradle-plugin/src/main/kotlin/hydraulic/conveyor/gradle/ConveyorConfigTask.kt:317-335 | appends exactly the include of a known vendor or the warning lines of an unknown one |
| ConfigTask.ConveyorConfigTask.ImportFromJavaPlugin | gradle-plugin/src/main/kotlin/hydraulic/conveyor/gradle/ConveyorConfigTask.kt:300-338 | appends exactly the application lines followed by the toolchain lines |
| ConfigTask.ConveyorConfigTask.ImportComposeMainClass | gradle-plugin/src/main/kotlin/hydraulic/conveyor/gradle/ConveyorConfigTask.kt:217-220 | appends exactly the Compose main-class and window-class lines |
| ConfigTask.ConveyorConfigTask.ImportOptional | gradle-plugin/src/main/kotlin/hydraulic/conveyor/gradle/ConveyorConfigTask.kt:224-226 | appends one quoted assignment when the value is present and nothing otherwise |
| ConfigTask.ConveyorConfigTask.ImportResourceDirs | gradle-plugin/src/main/kotlin/hydraulic/conveyor/gradle/ConveyorConfigTask.kt:227-245 | appends exactly the resource lines |
| ConfigTask.ConveyorConfigTask.ImportFromComposePlugin | gradle-plugin/src/main/kotlin/hydraulic/conveyor/gradle/ConveyorConfigTask.kt:214-252 | appends exactly the Compose Desktop section |
| ConfigTask.ConveyorConfigTask.AppendEntries | gradle-plugin/src/main/kotlin/hydraulic/conveyor/gradle/ConveyorConfigTask.kt:293-295 | appends exactly one entry line per entry, in order |
| ConfigTask.ConveyorConfigTask.ImportCommonFiles | gradle-plugin/src/main/kotlin/hydraulic/conveyor/gradle/ConveyorConfigTask.kt:279-285 | appends exactly the common block |
| ConfigTask.ConveyorConfigTask.ImportPlatform | gradle-plugin/src/main/kotlin/hydraulic/conveyor/gradle/ConveyorConfigTask.kt:289-296 | appends exactly the platform's block of its extra files, or nothing when there are none |
| ConfigTask.ConveyorConfigTask.ImportFromDependencyConfigurations | gradle-plugin/src/main/kotlin/hydraulic/conveyor/gradle/ConveyorConfigTask.kt:274-298 | appends exactly the inputs section |
| ConfigTask.ConveyorConfigTask.Generate | gradle-plugin/src/main/kotlin/hydraulic/conveyor/gradle/ConveyorConfigTask.kt:350-374 | returns exactly the document: the validation error, or the header followed by the OpenJFX, Java plugin, Compose and inputs sections |

## Left out

- Gradle wiring is not modelled: property declarations, conventions, extension lookups and task dependencies (lines 29-178). The task's inputs are one `TaskInputs` value.
- Dependency resolution is not modelled (lines 181-185, 197). Each machine configuration is given as its emptiness flag and its resolved absolute file paths.
- The exception wrapping around the OpenJFX section is not modelled (lines 255, 269-271). Reading plugin settings is not modelled, so nothing there can fail.
- `dir.exists()` is not modelled as a filesystem call (line 242). It is a parameter: the set of resource sub-directories that exist.
- File paths are strings. `File.resolve` is modelled as joining with `/`. The application JAR and build directory are given as the absolute path strings the task reads.
- A `JavaLanguageVersion` is a natural number written in decimal. Gradle only admits positive versions, and decimal rendering is exact for versions 5 and up; versions 1 to 4, which Gradle may render as `1.<n>`, and the version 0, which Gradle rejects, are not distinguished.
- The branch at lines 314-315 is not modelled. It cannot be reached once `isPresent` holds, so the language version is an `Option<nat>`.
- Strings.LowerAscii: lowers ASCII letters only, not the full Unicode case mapping of Kotlin's `lowercase()`.
- Strings.SortedElements: orders by code point; Kotlin compares UTF-16 units, which differs only for characters outside the Basic Multilingual Plane.
- Hocon.QuoteRoundTrip: stated only for values without `"` or control characters, because quoting does not escape them (see `Hocon.EmbeddedQuoteBreaksRoundTrip`); the reader does not decode `\u` escapes, which quoting never writes.
- ConfigProperties.ComposeTakesPrecedence: requires platform ids without spaces, because a platform id is written unquoted into a key and an id with spaces could spell an assignment.
- ConfigProperties.ComposeTakesPrecedence: holds for the document's lines, not for the returned text when a value holds a line break. The version, the group and the JavaFX version and modules are written verbatim, and `quote` does not escape line breaks either. A value such as `1.0` + line break + `app.fsname = evil` then starts a new line in the text, with a later `app.fsname` that the line model does not see.
- ConfigProperties.DependencyLinesNotAssigning: same requirement on platform ids as above.
- `generate` returns one string with a newline after each line. The model returns the sequence of lines.
