/**
 * The webpack plugin (src/index.ts): after webpack has emitted its output,
 * expand the configured glob patterns, drop every matched file the
 * compilation used, and decide what becomes of the "unused files" error.
 */
module Plugin {
  import opened Wrappers
  import opened Host
  import opened Seqs

  // ---------------------------------------------------------------------
  // Options

  const DefaultPatterns: seq<Pattern> := ["**/*.*"]
  const DefaultIgnore: string := "node_modules/**/*"

  /** What a caller may pass to the constructor: every field may be absent. */
  datatype PartialOptions = PartialOptions(
    patterns: Option<seq<Pattern>>,
    failOnUnused: Option<bool>,
    globOptions: Option<GlobOptions>)

  /** The options the plugin keeps once defaults are filled in. */
  datatype PluginOptions = PluginOptions(
    patterns: seq<Pattern>,
    failOnUnused: bool,
    globOptions: GlobOptions)

  /** `options?.globOptions`, as spread into an object literal: absent contributes nothing. */
  function UserGlobOptions(options: Option<PartialOptions>): GlobOptions
  {
    if options.Some? then options.value.globOptions.GetOr(map[]) else map[]
  }

  /**
   * The constructor's defaults: each absent field takes its default, and the
   * caller's glob options are spread over `{ ignore: DefaultIgnore }`, so a
   * caller's own `ignore` (even one set to `undefined`) wins.
   */
  function ResolveOptions(options: Option<PartialOptions>): (r: PluginOptions)
    ensures options.None? || options.value.patterns.None? ==> r.patterns == DefaultPatterns
    ensures options.Some? && options.value.patterns.Some? ==> r.patterns == options.value.patterns.value
    ensures options.None? || options.value.failOnUnused.None? ==> r.failOnUnused
    ensures options.Some? && options.value.failOnUnused.Some? ==> r.failOnUnused == options.value.failOnUnused.value
    ensures r.globOptions.Keys == {"ignore"} + UserGlobOptions(options).Keys
    ensures forall k :: k in UserGlobOptions(options) ==> r.globOptions[k] == UserGlobOptions(options)[k]
    ensures "ignore" !in UserGlobOptions(options) ==> r.globOptions["ignore"] == Str(DefaultIgnore)
  {
    var given := options.GetOr(PartialOptions(None, None, None));
    PluginOptions(
      given.patterns.GetOr(DefaultPatterns),
      given.failOnUnused.GetOr(true),
      map["ignore" := Str(DefaultIgnore)] + UserGlobOptions(options))
  }

  /**
   * `{ cwd, ...globOptions }`: the glob options for one run, rooted at the
   * compiler's context unless the configured options name their own `cwd`.
   */
  function GlobOptionsFor(cwd: Path, globOptions: GlobOptions): (r: GlobOptions)
    ensures r.Keys == {"cwd"} + globOptions.Keys
    ensures forall k :: k in globOptions ==> r[k] == globOptions[k]
    ensures "cwd" !in globOptions ==> r["cwd"] == Str(cwd)
  {
    map["cwd" := Str(cwd)] + globOptions
  }

  // ---------------------------------------------------------------------
  // The compilation webpack hands to the hook

  /** An emitted asset; `existsAt` is whatever that property holds, `Undefined` when missing. */
  datatype Asset = Asset(existsAt: JsValue)

  /**
   * The part of webpack's compilation the plugin touches. Only `errors` and
   * `warnings` are changed by the plugin.
   */
  class Compilation {
    const context: Path
    const fileDependencies: seq<Path>
    const assets: map<string, Asset>
    const bail: bool
    var errors: seq<ThrownError>
    var warnings: seq<ThrownError>

    constructor (context: Path, fileDependencies: seq<Path>, assets: map<string, Asset>, bail: bool,
                 errors: seq<ThrownError>, warnings: seq<ThrownError>)
      ensures this.context == context && this.fileDependencies == fileDependencies
      ensures this.assets == assets && this.bail == bail
      ensures this.errors == errors && this.warnings == warnings
    {
      this.context := context;
      this.fileDependencies := fileDependencies;
      this.assets := assets;
      this.bail := bail;
      this.errors := errors;
      this.warnings := warnings;
    }
  }

  // ---------------------------------------------------------------------
  // The used-file set

  /** The files a compilation used: its file dependencies and the string `existsAt` of its assets. */
  function FileDeps(fileDependencies: seq<Path>, assets: map<string, Asset>): (used: set<Path>)
    ensures forall p :: p in used <==>
      p in fileDependencies || exists relpath :: relpath in assets && assets[relpath].existsAt == Str(p)
  {
    (set p | p in fileDependencies) +
    (set relpath | relpath in assets && assets[relpath].existsAt.Str? :: assets[relpath].existsAt.s)
  }

  /** An asset whose `existsAt` is missing or not a string adds nothing to the used set. */
  lemma NonStringAssetAddsNothing(fileDependencies: seq<Path>, assets: map<string, Asset>, relpath: string, asset: Asset)
    requires !asset.existsAt.Str?
    ensures FileDeps(fileDependencies, assets[relpath := asset]) == FileDeps(fileDependencies, assets - {relpath})
  {
    var with, without := FileDeps(fileDependencies, assets[relpath := asset]), FileDeps(fileDependencies, assets - {relpath});
    forall p | p in with ensures p in without {
      if p !in fileDependencies {
        var k :| k in assets[relpath := asset] && assets[relpath := asset][k].existsAt == Str(p);
        assert k != relpath && k in assets - {relpath};
      }
    }
    forall p | p in without ensures p in with {
      if p !in fileDependencies {
        var k :| k in assets - {relpath} && (assets - {relpath})[k].existsAt == Str(p);
        assert k in assets[relpath := asset];
      }
    }
  }

  /** `getFileDepsMap`: start from the file dependencies, then add each asset's string `existsAt`. */
  method GetFileDepsMap(fileDependencies: seq<Path>, assets: map<string, Asset>) returns (fileDepsBy: set<Path>)
    ensures forall p :: p in fileDepsBy <==>
      p in fileDependencies || exists relpath :: relpath in assets && assets[relpath].existsAt == Str(p)
    ensures fileDepsBy == FileDeps(fileDependencies, assets)
  {
    fileDepsBy := set p | p in fileDependencies;
    var pending := assets.Keys;
    while pending != {}
      invariant pending <= assets.Keys
      invariant forall p :: p in fileDepsBy <==>
        p in fileDependencies || exists relpath :: relpath in assets.Keys - pending && assets[relpath].existsAt == Str(p)
      decreases pending
    {
      var relpath :| relpath in pending;
      var existsAt := assets[relpath].existsAt;
      if existsAt.Str? {
        fileDepsBy := fileDepsBy + {existsAt.s};
      }
      pending := pending - {relpath};
    }
  }

  // ---------------------------------------------------------------------
  // Pattern expansion

  /** The match list of each pattern, in pattern order. */
  function MatchLists(patterns: seq<Pattern>, options: GlobOptions, glob: Glob): (lists: seq<seq<Path>>)
    ensures |lists| == |patterns|
    ensures forall i :: 0 <= i < |patterns| ==> lists[i] == glob(patterns[i], options)
  {
    seq(|patterns|, i requires 0 <= i < |patterns| => glob(patterns[i], options))
  }

  /** `unfoldPatterns`: push the matches of every pattern, in pattern order, duplicates kept. */
  method UnfoldPatterns(patterns: seq<Pattern>, options: GlobOptions, glob: Glob) returns (matchedFiles: seq<Path>)
    ensures matchedFiles == Flatten(MatchLists(patterns, options, glob))
    ensures |matchedFiles| == TotalLength(MatchLists(patterns, options, glob))
    ensures forall f :: f in matchedFiles <==> exists i :: 0 <= i < |patterns| && f in glob(patterns[i], options)
  {
    matchedFiles := [];
    for i := 0 to |patterns|
      invariant matchedFiles == Flatten(MatchLists(patterns[..i], options, glob))
    {
      ghost var lists := MatchLists(patterns[..i + 1], options, glob);
      assert lists[..i] == MatchLists(patterns[..i], options, glob);
      matchedFiles := matchedFiles + glob(patterns[i], options);
    }
    assert patterns[..|patterns|] == patterns;
    ghost var lists := MatchLists(patterns, options, glob);
    FlattenLength(lists);
    forall f ensures f in matchedFiles <==> exists i :: 0 <= i < |patterns| && f in glob(patterns[i], options) {
      FlattenMembership(lists, f);
      if f in matchedFiles {
        var i :| 0 <= i < |lists| && f in lists[i];
        assert f in glob(patterns[i], options);
      }
      if exists i :: 0 <= i < |patterns| && f in glob(patterns[i], options) {
        var i :| 0 <= i < |patterns| && f in glob(patterns[i], options);
        assert f in lists[i];
      }
    }
  }

  // ---------------------------------------------------------------------
  // The unused files and the error that reports them

  /** The matched files whose path joined to `cwd` the compilation did not use, in match order. */
  function UnusedFiles(files: seq<Path>, used: set<Path>, cwd: Path, join: PathJoin): (unused: seq<Path>)
    ensures forall f :: f in unused <==> f in files && join(cwd, f) !in used
    ensures IsSubsequence(unused, files)
    ensures unused == [] <==> forall f :: f in files ==> join(cwd, f) in used
  {
    Filter(files, f => join(cwd, f) !in used)
  }

  /** Each unused file is listed as often as it was matched. */
  lemma UnusedKeepsDuplicates(files: seq<Path>, used: set<Path>, cwd: Path, join: PathJoin, f: Path)
    requires join(cwd, f) !in used
    ensures multiset(UnusedFiles(files, used, cwd, join))[f] == multiset(files)[f]
  {
    FilterCount(files, f => join(cwd, f) !in used, f);
  }

  /** Two markdown files matched, only the readme used: the changelog alone is unused. */
  lemma ChangelogAloneUnused(used: set<Path>, cwd: Path, join: PathJoin)
    requires join(cwd, "README.md") in used && join(cwd, "CHANGELOG.md") !in used
    ensures UnusedFiles(["README.md", "CHANGELOG.md"], used, cwd, join) == ["CHANGELOG.md"]
  {
  }

  /**
   * The unused files of one after-emit run: the matches of the configured
   * patterns, under the run's glob options, whose joined path the
   * compilation did not use.
   */
  function FindUnused(options: PluginOptions, cwd: Path, fileDependencies: seq<Path>, assets: map<string, Asset>,
                      glob: Glob, join: PathJoin): (unused: seq<Path>)
    ensures forall f :: f in unused <==>
      && (exists i :: 0 <= i < |options.patterns| && f in glob(options.patterns[i], GlobOptionsFor(cwd, options.globOptions)))
      && join(cwd, f) !in FileDeps(fileDependencies, assets)
  {
    var runOptions := GlobOptionsFor(cwd, options.globOptions);
    var lists := MatchLists(options.patterns, runOptions, glob);
    var files := Flatten(lists);
    assert forall f :: f in files <==> exists i :: 0 <= i < |options.patterns| && f in glob(options.patterns[i], runOptions) by {
      forall f ensures f in files <==> exists i :: 0 <= i < |options.patterns| && f in glob(options.patterns[i], runOptions) {
        FlattenMembership(lists, f);
        if f in files {
          var i :| 0 <= i < |lists| && f in lists[i];
          assert f in glob(options.patterns[i], runOptions);
        }
      }
    }
    UnusedFiles(files, FileDeps(fileDependencies, assets), cwd, join)
  }

  const UnusedMessagePrefix: string := "found some unused files: "

  /** The error thrown when unused files exist: a plain `Error`, not a `WebpackError`. */
  function UnusedFilesError(unused: seq<Path>): (e: ThrownError)
    ensures e.kind == PlainError
    ensures StartsWith(e.message, UnusedMessagePrefix)
    ensures e.message == UnusedMessagePrefix + Join(unused, "\n")
  {
    ThrownError(PlainError, UnusedMessagePrefix + Join(unused, "\n"))
  }

  /** The error's message names every unused file. */
  lemma UnusedMessageListsEveryFile(unused: seq<Path>, i: nat)
    requires i < |unused|
    ensures Contains(UnusedFilesError(unused).message, unused[i])
  {
    JoinContainsEachPart(unused, "\n", i);
    ContainsAfter(UnusedMessagePrefix, Join(unused, "\n"), unused[i]);
  }

  /**
   * When no unused path holds a newline, the message after its prefix splits
   * at newlines back into exactly the unused paths, in order.
   */
  lemma UnusedMessageRoundTrip(unused: seq<Path>)
    requires unused != []
    requires forall p :: p in unused ==> '\n' !in p
    ensures Split(UnusedFilesError(unused).message[|UnusedMessagePrefix|..], '\n') == unused
  {
    var message := UnusedFilesError(unused).message;
    assert message[|UnusedMessagePrefix|..] == Join(unused, "\n");
    SplitJoinRoundTrip(unused, '\n');
  }

  // ---------------------------------------------------------------------
  // The catch block

  /** What the catch block does with a caught error. */
  datatype Disposition = Rethrow | PushToErrors | PushToWarnings | Drop

  /**
   * Rethrow when failing on unused files in bail mode; otherwise file a
   * `WebpackError` under errors or warnings by `failOnUnused`; drop anything else.
   */
  function Catch(err: ThrownError, failOnUnused: bool, bail: bool): (d: Disposition)
    ensures d == Rethrow <==> failOnUnused && bail
    ensures d == PushToErrors <==> failOnUnused && !bail && err.kind.WebpackError?
    ensures d == PushToWarnings <==> !failOnUnused && err.kind.WebpackError?
    ensures d == Drop <==> !(failOnUnused && bail) && err.kind.PlainError?
  {
    if failOnUnused && bail then Rethrow
    else if err.kind.WebpackError? then (if failOnUnused then PushToErrors else PushToWarnings)
    else Drop
  }

  /** The observable result of the hook: what it throws and the two collections afterwards. */
  datatype Outcome = Outcome(rethrown: Option<ThrownError>, errors: seq<ThrownError>, warnings: seq<ThrownError>)

  /** The effect of catching `err` on the compilation's errors and warnings. */
  function Settle(err: ThrownError, failOnUnused: bool, bail: bool,
                  errors: seq<ThrownError>, warnings: seq<ThrownError>): (o: Outcome)
    ensures o.rethrown.Some? <==> failOnUnused && bail
    ensures o.rethrown.Some? ==> o.rethrown.value == err
    ensures errors <= o.errors && warnings <= o.warnings
    ensures |o.errors| + |o.warnings| ==
            |errors| + |warnings| + (if err.kind == WebpackError && !(failOnUnused && bail) then 1 else 0)
    ensures o.errors != errors ==> failOnUnused && o.errors == errors + [err]
    ensures o.warnings != warnings ==> !failOnUnused && o.warnings == warnings + [err]
  {
    match Catch(err, failOnUnused, bail)
    case Rethrow => Outcome(Some(err), errors, warnings)
    case PushToErrors => Outcome(None, errors + [err], warnings)
    case PushToWarnings => Outcome(None, errors, warnings + [err])
    case Drop => Outcome(None, errors, warnings)
  }

  /**
   * As written, the unused-files error is a plain `Error`, so outside
   * "fail on unused in bail mode" the finding leaves no trace at all.
   */
  lemma UnusedFindingSurfacesOnlyInBailMode(unused: seq<Path>, failOnUnused: bool, bail: bool,
                                            errors: seq<ThrownError>, warnings: seq<ThrownError>)
    ensures var o := Settle(UnusedFilesError(unused), failOnUnused, bail, errors, warnings);
      o.errors == errors && o.warnings == warnings &&
      (o.rethrown.Some? <==> failOnUnused && bail)
  {
  }

  // ---------------------------------------------------------------------
  // The plugin

  /**
   * The catch block of `applyAfterEmit`, for any caught error: rethrow it
   * (returned in `rethrown`), push it onto errors or warnings, or drop it.
   */
  method CatchInAfterEmit(compilation: Compilation, err: ThrownError, failOnUnused: bool)
    returns (rethrown: Option<ThrownError>)
    modifies compilation
    ensures Outcome(rethrown, compilation.errors, compilation.warnings) ==
            Settle(err, failOnUnused, compilation.bail, old(compilation.errors), old(compilation.warnings))
  {
    rethrown := None;
    if failOnUnused && compilation.bail {
      rethrown := Some(err);
    } else if err.kind.WebpackError? {
      if failOnUnused {
        compilation.errors := compilation.errors + [err];
      } else {
        compilation.warnings := compilation.warnings + [err];
      }
    }
  }

  class UnusedFilesPlugin {
    var options: PluginOptions

    constructor (options: Option<PartialOptions>)
      ensures this.options == ResolveOptions(options)
    {
      this.options := ResolveOptions(options);
    }

    /**
     * `applyAfterEmit`: compute the unused files; when there are none,
     * nothing happens; otherwise the unused-files error is caught and
     * rethrown (returned in `rethrown`), filed, or dropped.
     */
    method ApplyAfterEmit(compilation: Compilation, glob: Glob, join: PathJoin) returns (rethrown: Option<ThrownError>)
      modifies compilation
      ensures var unused := FindUnused(options, compilation.context, compilation.fileDependencies,
                                       compilation.assets, glob, join);
        if unused == [] then
          rethrown == None && unchanged(compilation)
        else
          Outcome(rethrown, compilation.errors, compilation.warnings) ==
          Settle(UnusedFilesError(unused), options.failOnUnused, compilation.bail,
                 old(compilation.errors), old(compilation.warnings))
    {
      var patterns, failOnUnused, globOptions := options.patterns, options.failOnUnused, options.globOptions;
      var cwd := compilation.context;
      var fileDepsMap := GetFileDepsMap(compilation.fileDependencies, compilation.assets);
      var files := UnfoldPatterns(patterns, GlobOptionsFor(cwd, globOptions), glob);
      var unused := UnusedFiles(files, fileDepsMap, cwd, join);
      if unused == [] {
        rethrown := None;
      } else {
        rethrown := CatchInAfterEmit(compilation, UnusedFilesError(unused), failOnUnused);
      }
    }
  }
}
