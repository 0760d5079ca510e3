/** Classpath partitioning done when the configuration task is created: the
    per-machine dependency configurations are expanded, the files common to all
    of them are found, and each platform's own files are what is left. */
module Classpath {
  import opened Strings

  /** One machine-specific dependency configuration: whether it resolves to
      no files on its own (`Configuration.isEmpty`, a file-collection check),
      and the absolute paths of the files its copy extended from the common
      classpath resolves to. Resolution itself is done by the build system and
      is given here as a flag and a set. */
  datatype MachineConfig = MachineConfig(isEmpty: bool, resolvedFiles: set<string>)

  /** The two task inputs the partition fills: the common file list and, per
      platform, the full set of files its expanded configuration resolves to. */
  datatype DependencyInputs = DependencyInputs(
    commonFiles: set<string>,
    expandedConfigs: map<string, set<string>>)

  /** The machine configurations that resolve to some file, keyed by machine id. */
  function ExpandedConfigs(machineConfigs: map<string, MachineConfig>): map<string, set<string>> {
    map m | m in machineConfigs && !machineConfigs[m].isEmpty :: machineConfigs[m].resolvedFiles
  }

  /** `reduce { a, b -> a.intersect(b) }` over the values of `m` taken in the
      order of `keys`. */
  function IntersectAlong(m: map<string, set<string>>, keys: seq<string>): (r: set<string>)
    requires |keys| > 0
    requires forall i :: 0 <= i < |keys| ==> keys[i] in m
    ensures forall f :: f in r <==> forall i :: 0 <= i < |keys| ==> f in m[keys[i]]
  {
    if |keys| == 1 then m[keys[0]]
    else IntersectAlong(m, keys[..|keys| - 1]) * m[keys[|keys| - 1]]
  }

  /** The common files: the intersection of all expanded configurations when
      there is at least one, otherwise the files of the common classpath. */
  function CommonFiles(commonClasspath: set<string>, expanded: map<string, set<string>>): set<string> {
    if |expanded| > 0 then IntersectAlong(expanded, SortedElements(expanded.Keys))
    else commonClasspath
  }

  /** Lines 181-198: the task's `commonFiles` and `expandedConfigs` inputs. */
  function Partition(commonClasspath: set<string>, machineConfigs: map<string, MachineConfig>): DependencyInputs {
    var expanded := ExpandedConfigs(machineConfigs);
    DependencyInputs(CommonFiles(commonClasspath, expanded), expanded)
  }

  /** What a platform contributes beyond the common files (line 289). */
  function Delta(platformFiles: set<string>, common: set<string>): set<string> {
    platformFiles - common
  }

  // ---------------------------------------------------------------------------
  // Properties of the partition
  // ---------------------------------------------------------------------------

  /** Exactly the machine configurations that declare something are kept, each
      with its own resolved files. */
  lemma PartitionKeepsNonEmptyConfigs(commonClasspath: set<string>, machineConfigs: map<string, MachineConfig>)
    ensures var d := Partition(commonClasspath, machineConfigs);
      && (forall m :: m in d.expandedConfigs <==> m in machineConfigs && !machineConfigs[m].isEmpty)
      && (forall m :: m in d.expandedConfigs ==> d.expandedConfigs[m] == machineConfigs[m].resolvedFiles)
  {
  }

  /** With at least one expanded configuration, a file is common exactly when
      every expanded configuration resolves to it; the common classpath is not
      consulted. */
  lemma CommonIsIntersection(commonClasspath: set<string>, machineConfigs: map<string, MachineConfig>)
    requires exists m :: m in machineConfigs && !machineConfigs[m].isEmpty
    ensures var d := Partition(commonClasspath, machineConfigs);
      forall f :: f in d.commonFiles <==> forall p :: p in d.expandedConfigs ==> f in d.expandedConfigs[p]
  {
    var expanded := ExpandedConfigs(machineConfigs);
    var m :| m in machineConfigs && !machineConfigs[m].isEmpty;
    assert m in expanded;
    var keys := SortedElements(expanded.Keys);
    forall f
      ensures f in CommonFiles(commonClasspath, expanded) <==> forall p :: p in expanded ==> f in expanded[p]
    {
      if f in CommonFiles(commonClasspath, expanded) {
        forall p | p in expanded ensures f in expanded[p] {
          assert p in keys;
          var i :| 0 <= i < |keys| && keys[i] == p;
        }
      }
    }
  }

  /** Without any expanded configuration the common classpath is used as it is
      and there are no platform inputs. */
  lemma NoPlatformConfigsUsesCommonClasspath(commonClasspath: set<string>, machineConfigs: map<string, MachineConfig>)
    requires forall m :: m in machineConfigs ==> machineConfigs[m].isEmpty
    ensures Partition(commonClasspath, machineConfigs) == DependencyInputs(commonClasspath, map[])
  {
    var expanded := ExpandedConfigs(machineConfigs);
    assert expanded.Keys == {};
  }

  /** Every platform's files split into the common files and its delta: the two
      are disjoint and together give back the platform's files exactly. */
  lemma DeltaReconstructsPlatform(commonClasspath: set<string>, machineConfigs: map<string, MachineConfig>, p: string)
    requires p in ExpandedConfigs(machineConfigs)
    ensures var d := Partition(commonClasspath, machineConfigs);
      && d.commonFiles <= d.expandedConfigs[p]
      && Delta(d.expandedConfigs[p], d.commonFiles) * d.commonFiles == {}
      && Delta(d.expandedConfigs[p], d.commonFiles) + d.commonFiles == d.expandedConfigs[p]
  {
    CommonIsIntersection(commonClasspath, machineConfigs);
  }
}
