/**
 * The command-line variant (src/bin.ts): read webpack's stats report, take
 * the project modules it names as the used files, and return the top-level
 * glob matches that are among them, relative to the working directory.
 */
module Cli {
  import opened Wrappers
  import opened Host
  import opened Seqs

  /** A module record of the stats report; `name` is `None` when missing. */
  datatype StatsModule = StatsModule(name: Option<string>)

  /** The parsed stats report; `modules` is `None` when missing. */
  datatype StatsCompilation = StatsCompilation(modules: Option<seq<StatsModule>>)

  const RelativeMarker: string := "./"
  const VendorMarker: string := "./~/"

  /** The fixed glob run: every entry of the current directory, `node_modules` ignored. */
  const ListPattern: Pattern := "*"
  const ListGlobOptions: GlobOptions := map["ignore" := Str("node_modules/**/*")]

  /**
   * The module filter: a present, non-empty name that starts with `./` and
   * has `./~/` at no position.
   */
  predicate IsProjectModuleName(name: Option<string>)
    ensures IsProjectModuleName(name) <==>
      && name.Some?
      && |name.value| >= 2 && name.value[0] == '.' && name.value[1] == '/'
      && forall i: nat :: !OccursAt(name.value, VendorMarker, i)
  {
    if name.Some? then
      assert name.value != [] && StartsWith(name.value, RelativeMarker) <==>
             |name.value| >= 2 && name.value[0] == '.' && name.value[1] == '/';
      ContainsIffOccurs(name.value, VendorMarker);
      name.value != [] && StartsWith(name.value, RelativeMarker) && !Contains(name.value, VendorMarker)
    else
      false
  }

  /** A name that lacks some character of the vendor marker never contains it. */
  lemma LacksVendorMarker(name: string, c: char)
    requires c in VendorMarker && c !in name
    ensures !Contains(name, VendorMarker)
  {
  }

  /**
   * The vendor test is the webpack 1 marker `./~/`, not `node_modules`: a
   * module under `./node_modules/` counts as a project module.
   */
  lemma NodeModulesNameCountsAsProject()
    ensures IsProjectModuleName(Some("./node_modules/lib/x.js"))
  {
    var name := "./node_modules/lib/x.js";
    assert name[..2] == RelativeMarker;
    LacksVendorMarker(name, '~');
  }

  /** A module under the `./~/` marker is never a project module. */
  lemma TildeNameIsVendor(rest: string)
    ensures !IsProjectModuleName(Some(VendorMarker + rest))
  {
  }

  /**
   * `new Set(modules?.filter(...).map(({ name }) => path.join(cwd, name)))`:
   * the joined names of the project modules; empty when `modules` is missing.
   */
  function UsedFiles(compilation: StatsCompilation, cwd: Path, join: PathJoin): (used: set<Path>)
    ensures compilation.modules.None? ==> used == {}
    ensures forall p :: p in used <==>
      compilation.modules.Some? &&
      exists m :: m in compilation.modules.value && IsProjectModuleName(m.name) && p == join(cwd, m.name.value)
  {
    match compilation.modules
    case None => {}
    case Some(modules) =>
      var named := Filter(modules, (m: StatsModule) => IsProjectModuleName(m.name));
      set m | m in named :: join(cwd, m.name.value)
  }

  /** The glob matches kept by `.filter((name) => usedFiles.has(name))`, in glob order. */
  function KeptMatches(cwd: Path, compilation: StatsCompilation, glob: Glob, join: PathJoin): (kept: seq<Path>)
    ensures IsSubsequence(kept, glob(ListPattern, ListGlobOptions))
    ensures forall name :: name in kept <==>
      name in glob(ListPattern, ListGlobOptions) && name in UsedFiles(compilation, cwd, join)
    ensures forall name ::
      multiset(kept)[name] == if name in UsedFiles(compilation, cwd, join) then multiset(glob(ListPattern, ListGlobOptions))[name] else 0
  {
    var used := UsedFiles(compilation, cwd, join);
    var matches := glob(ListPattern, ListGlobOptions);
    var keep := name => name in used;
    forall name ensures multiset(Filter(matches, keep))[name] == if name in used then multiset(matches)[name] else 0 {
      FilterCount(matches, keep, name);
    }
    Filter(matches, keep)
  }

  /**
   * The array `main` resolves to: the kept matches, each made relative to
   * `cwd`, one element per kept match and in the same order.
   */
  function Main(cwd: Path, compilation: StatsCompilation, glob: Glob, join: PathJoin, relative: PathRelative)
    : (result: seq<Path>)
    ensures |result| <= |glob(ListPattern, ListGlobOptions)|
    ensures |result| == |KeptMatches(cwd, compilation, glob, join)|
    ensures forall i :: 0 <= i < |result| ==> result[i] == relative(cwd, KeptMatches(cwd, compilation, glob, join)[i])
  {
    var kept := KeptMatches(cwd, compilation, glob, join);
    IsSubsequenceLength(kept, glob(ListPattern, ListGlobOptions));
    seq(|kept|, i requires 0 <= i < |kept| => relative(cwd, kept[i]))
  }

  /** Every element of the result is the relative form of a match that the report used. */
  lemma ResultElementsAreUsedMatches(cwd: Path, compilation: StatsCompilation, glob: Glob, join: PathJoin,
                                  relative: PathRelative, i: nat)
    requires i < |Main(cwd, compilation, glob, join, relative)|
    ensures exists name ::
      && name in glob(ListPattern, ListGlobOptions)
      && name in UsedFiles(compilation, cwd, join)
      && Main(cwd, compilation, glob, join, relative)[i] == relative(cwd, name)
  {
  }

  /** Every used match is in the result; the filter keeps used files rather than removing them. */
  lemma UsedMatchIsInResult(cwd: Path, compilation: StatsCompilation, glob: Glob, join: PathJoin,
                          relative: PathRelative, name: Path)
    requires name in glob(ListPattern, ListGlobOptions) && name in UsedFiles(compilation, cwd, join)
    ensures relative(cwd, name) in Main(cwd, compilation, glob, join, relative)
  {
  }

  /**
   * A match outside the used set is never in the result, as long as `relative`
   * does not send another match to the same element.
   */
  lemma UnusedMatchIsNotInResult(cwd: Path, compilation: StatsCompilation, glob: Glob, join: PathJoin,
                               relative: PathRelative, name: Path)
    requires name in glob(ListPattern, ListGlobOptions) && name !in UsedFiles(compilation, cwd, join)
    requires forall other :: other in glob(ListPattern, ListGlobOptions) && relative(cwd, other) == relative(cwd, name) ==> other == name
    ensures relative(cwd, name) !in Main(cwd, compilation, glob, join, relative)
  {
  }

  /** A report without a module list marks nothing as used, so the result is empty. */
  lemma NoModulesEmptyResult(cwd: Path, glob: Glob, join: PathJoin, relative: PathRelative)
    ensures Main(cwd, StatsCompilation(None), glob, join, relative) == []
  {
  }
}
