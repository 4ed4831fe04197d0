/** What each staging routine of the stager does, as functions of its
    inputs and the environment: the value it returns or the exception it
    raises, and the side effects it has performed by then, in order. The
    `Stager` class is proved to behave exactly as these functions say. */
module StagingSpec {
  import opened Paths
  import opened StagingTypes
  import opened Naming

  // ---------------------------------------------------------------------
  // Populating the requirements cache (retried `pip download`)

  /** The exit status of attempt `i`; attempts the environment does not
      list succeed. */
  function CacheAttemptExit(env: Env, i: nat): int {
    if i < |env.cacheAttemptExits| then env.cacheAttemptExits[i] else 0
  }

  /** What attempt `i` of `_populate_requirements_cache` raises, if anything. */
  function CacheAttemptOutcome(env: Env, i: nat): Option<Error> {
    if env.pythonExecutable == "" then Some(ValueError)
    else if CacheAttemptExit(env, i) == 0 then None
    else Some(CalledProcessError(CacheAttemptExit(env, i)))
  }

  /** The outcomes of the first attempt and of every retry. */
  function CacheAttemptOutcomes(env: Env): (r: seq<Option<Error>>)
    ensures |r| == NumRetries + 1
  {
    seq(NumRetries + 1, i requires 0 <= i <= NumRetries => CacheAttemptOutcome(env, i))
  }

  /** `_populate_requirements_cache` under its retry decorator: one `pip
      download` per attempt made; the outcome is the last attempt's. */
  function PopulateRequirementsCache(env: Env, requirementsFile: string, cacheDir: string): Run<()> {
    var outcomes := CacheAttemptOutcomes(env);
    var k := FinalAttempt(outcomes, NumRetries);
    var cmd := CacheDownloadCommand(env.pythonExecutable, requirementsFile, cacheDir);
    var effects := if env.pythonExecutable == "" then [] else seq(k + 1, _ => Exec(cmd));
    Run(if outcomes[k].None? then Ok(()) else Err(outcomes[k].value), effects)
  }

  // ---------------------------------------------------------------------
  // Extra packages and jar packages

  /** The file names each kind of package may have. */
  predicate AcceptedName(kind: PackageKind, name: string) {
    match kind
    case ExtraPackage =>
      EndsWith(name, ".tar") || EndsWith(name, ".tar.gz") || EndsWith(name, ".whl") || EndsWith(name, ".zip")
    case JarPackage =>
      EndsWith(name, ".jar")
  }

  /** The state of the validation loop over a package list: the exception
      raised (if any), the existing local packages, the names in the
      staging temp directory as it lists them, and the effects so far. */
  datatype Scan = Scan(error: Option<Error>, local: seq<string>, downloaded: seq<string>, effects: seq<Effect>)

  /** A download into the staging temp directory adds its file to the
      listing; downloading the same name again overwrites that file. */
  function AddListing(listing: seq<string>, name: string): seq<string> {
    if name in listing then listing else listing + [name]
  }

  /** One iteration of the validation loop, for `package`. */
  function ScanStep(env: Env, kind: PackageKind, stagingTempDir: string, s: Scan, package: string): Scan {
    if s.error.Some? then s
    else if !AcceptedName(kind, Basename(package)) then
      s.(error := Some(RuntimeError(BadPackageName(kind, package))))
    else if IsFile(env, package) then
      s.(local := s.local + [package])
    else if IsRemotePath(package) then
      var name := Split(package).1;
      var d := DownloadFile(env, package, Join(stagingTempDir, name));
      if d.result.Err? then Scan(Some(d.result.error), s.local, s.downloaded, s.effects + d.effects)
      else Scan(None, s.local, AddListing(s.downloaded, name), s.effects + d.effects)
    else
      s.(error := Some(RuntimeError(PackageMissing(kind, package))))
  }

  /** The validation loop run over all of `packages`, in order. */
  function ScanPackages(env: Env, kind: PackageKind, stagingTempDir: string, packages: seq<string>): Scan {
    if packages == [] then Scan(None, [], [], [])
    else
      ScanStep(env, kind, stagingTempDir,
               ScanPackages(env, kind, stagingTempDir, packages[..|packages| - 1]),
               packages[|packages| - 1])
  }

  /** Scanning one more package of a list is one more loop iteration. */
  lemma ScanPrefixStep(env: Env, kind: PackageKind, stagingTempDir: string, packages: seq<string>, i: nat)
    requires i < |packages|
    ensures ScanPackages(env, kind, stagingTempDir, packages[..i + 1])
         == ScanStep(env, kind, stagingTempDir, ScanPackages(env, kind, stagingTempDir, packages[..i]), packages[i])
  {
    assert packages[..i + 1][..i] == packages[..i];
  }

  /** A validation loop that has raised stays raised: the rest of the list
      changes nothing. */
  lemma {:induction false} ScanStopsAtError(env: Env, kind: PackageKind, stagingTempDir: string,
                                           packages: seq<string>, k: nat)
    requires k <= |packages|
    requires ScanPackages(env, kind, stagingTempDir, packages[..k]).error.Some?
    ensures ScanPackages(env, kind, stagingTempDir, packages)
         == ScanPackages(env, kind, stagingTempDir, packages[..k])
    decreases |packages|
  {
    if k < |packages| {
      var init := packages[..|packages| - 1];
      assert init[..k] == packages[..k];
      ScanStopsAtError(env, kind, stagingTempDir, init, k);
    } else {
      assert packages[..k] == packages;
    }
  }

  /** The files to stage once validation passed: the local packages, then
      the staging temp directory's listing. */
  function StagedSources(s: Scan, stagingTempDir: string): seq<string> {
    s.local + InDir(stagingTempDir, s.downloaded)
  }

  /** Each name joined onto `dir`. */
  function InDir(dir: string, names: seq<string>): (r: seq<string>)
    ensures |r| == |names|
  {
    if names == [] then []
    else InDir(dir, names[..|names| - 1]) + [Join(dir, names[|names| - 1])]
  }

  /** The base name of each path. */
  function Basenames(paths: seq<string>): (r: seq<string>)
    ensures |r| == |paths|
  {
    if paths == [] then []
    else Basenames(paths[..|paths| - 1]) + [Basename(paths[|paths| - 1])]
  }

  /** One `stage_artifact` per file, each under its own base name. */
  function StageCalls(stagingLocation: string, paths: seq<string>): (r: seq<Effect>)
    ensures |r| == |paths|
  {
    if paths == [] then []
    else
      var p := paths[|paths| - 1];
      StageCalls(stagingLocation, paths[..|paths| - 1]) + [Stage(p, Join(stagingLocation, Basename(p)))]
  }

  /** `_stage_extra_packages` */
  function ExtraPackages(env: Env, packages: seq<string>, stagingLocation: string, tempDir: string,
                         stagingTempDir: string): Run<seq<string>>
  {
    var s := ScanPackages(env, ExtraPackage, stagingTempDir, packages);
    if s.error.Some? then Run(Err(s.error.value), s.effects)
    else
      var sources := StagedSources(s, stagingTempDir);
      var manifest := Join(tempDir, ExtraPackagesFile);
      Run(Ok(Basenames(sources) + [ExtraPackagesFile]),
          s.effects + StageCalls(stagingLocation, sources) +
          [WriteLines(manifest, Basenames(sources))] + [Stage(manifest, Join(stagingLocation, ExtraPackagesFile))])
  }

  /** `_stage_jar_packages` */
  function JarPackages(env: Env, packages: seq<string>, stagingLocation: string,
                       stagingTempDir: string): Run<seq<string>>
  {
    var s := ScanPackages(env, JarPackage, stagingTempDir, packages);
    if s.error.Some? then Run(Err(s.error.value), s.effects)
    else
      var sources := StagedSources(s, stagingTempDir);
      Run(Ok(Basenames(sources)), s.effects + StageCalls(stagingLocation, sources))
  }

  // ---------------------------------------------------------------------
  // The Beam SDK

  /** The first of `candidates` that exists. */
  function FirstExisting(env: Env, candidates: seq<string>): (r: Option<string>)
    ensures r.Some? ==> r.value in candidates && Exists(env, r.value)
    ensures r.None? <==> forall i :: 0 <= i < |candidates| ==> !Exists(env, candidates[i])
  {
    if candidates == [] then None
    else if Exists(env, candidates[0]) then Some(candidates[0])
    else FirstExisting(env, candidates[1..])
  }

  /** The candidate found is the first one that exists. */
  lemma {:induction false} FirstExistingAt(env: Env, candidates: seq<string>, k: nat)
    requires k < |candidates| && Exists(env, candidates[k])
    requires forall j :: 0 <= j < k ==> !Exists(env, candidates[j])
    ensures FirstExisting(env, candidates) == Some(candidates[k])
  {
    if k > 0 {
      FirstExistingAt(env, candidates[1..], k - 1);
    }
  }

  /** `_download_pypi_sdk_package` */
  function PypiSdkDownload(env: Env, tempDir: string, req: SdkRequest): Run<string> {
    match env.installedVersion
    case None => Run(Err(RuntimeError(SdkDistributionNotInstalled)), [])
    case Some(version) =>
      var exe := PythonExecutable(env);
      if exe.Err? then Run(Err(exe.error), [])
      else
        var cmd := SdkDownloadCommand(exe.value, tempDir, version, req);
        var exit := if req.fetchBinary then env.sdkBinaryExit else env.sdkSourceExit;
        if exit != 0 then Run(Err(RuntimeError(SdkDownloadFailed(exit))), [Exec(cmd)])
        else
          var expected := ExpectedSdkFiles(tempDir, version, req);
          match FirstExisting(env, expected)
          case None => Run(Err(RuntimeError(SdkDistributionNotDownloaded(expected))), [Exec(cmd)])
          case Some(file) => Run(Ok(file), [Exec(cmd)])
  }

  /** The best-effort wheel step of `_stage_beam_sdk('pypi')`, given the
      names staged so far: a RuntimeError is swallowed, anything else
      propagates. */
  function StageSdkWheel(env: Env, stagingLocation: string, tempDir: string, sourceNames: seq<string>): Run<seq<string>> {
    var bin := PypiSdkDownload(env, tempDir, BinaryRequest(env));
    if bin.result.Err? then
      if bin.result.error.RuntimeError? then Run(Ok(sourceNames), bin.effects)
      else Run(Err(bin.result.error), bin.effects)
    else
      var name := DesiredSdkFilename(bin.result.value);
      // the name check only raises RuntimeError, which is swallowed
      if name.Err? then Run(Ok(sourceNames), bin.effects)
      else
        Run(Ok(sourceNames + [name.value]),
            bin.effects + [Stage(bin.result.value, Join(stagingLocation, name.value))])
  }

  /** `_stage_beam_sdk` */
  function BeamSdk(env: Env, remoteLocation: string, stagingLocation: string, tempDir: string): Run<seq<string>> {
    if remoteLocation == "pypi" then
      var src := PypiSdkDownload(env, tempDir, SourceRequest);
      if src.result.Err? then Run(Err(src.result.error), src.effects)
      else
        var name := DesiredSdkFilename(src.result.value);
        if name.Err? then Run(Err(name.error), src.effects)
        else
          var staged := src.effects + [Stage(src.result.value, Join(stagingLocation, name.value))];
          var wheel := StageSdkWheel(env, stagingLocation, tempDir, [name.value]);
          Run(wheel.result, staged + wheel.effects)
    else if IsRemotePath(remoteLocation) then
      var localFile := Join(tempDir, DownloadedSdkFile);
      var d := DownloadFile(env, remoteLocation, localFile);
      if d.result.Err? then Run(Err(d.result.error), d.effects)
      else
        var name := DesiredSdkFilename(remoteLocation);
        if name.Err? then Run(Err(name.error), d.effects)
        else Run(Ok([name.value]), d.effects + [Stage(localFile, Join(stagingLocation, name.value))])
    else
      Run(Err(RuntimeError(UnsupportedSdkLocation(remoteLocation))), [])
  }

  // ---------------------------------------------------------------------
  // The setup package

  /** `_build_setup_package` with the default build command. It first
      changes into the setup file's directory; a setup file named without
      any directory has an empty `os.path.dirname`, and `os.chdir('')`
      raises. */
  function BuildSetupPackage(env: Env, setupFile: string, tempDir: string): Run<string> {
    var exe := PythonExecutable(env);
    if '/' !in setupFile then Run(Err(IOError("")), [])
    else if exe.Err? then Run(Err(exe.error), [])
    else
      var cmd := [exe.value, Basename(setupFile), "sdist", "--dist-dir", tempDir];
      if env.sdistExit != 0 then Run(Err(CalledProcessError(env.sdistExit)), [Exec(cmd)])
      else if env.sdistOutputs == [] then
        Run(Err(RuntimeError(SetupTarballMissing(Join(tempDir, "*.tar.gz")))), [Exec(cmd)])
      else Run(Ok(env.sdistOutputs[0]), [Exec(cmd)])
  }

  // ---------------------------------------------------------------------
  // stage_job_resources, one group of resources at a time

  const Nothing: Run<seq<string>> := Run(Ok([]), [])

  /** `requirements_cache`, or the default cache under the system temp dir. */
  function RequirementsCachePath(env: Env, options: Options): string {
    match options.requirementsCache
    case None => Join(env.systemTempDir, "dataflow-requirements-cache")
    case Some(dir) => dir
  }

  /** The requirements file and the packages in the requirements cache. */
  function RequirementsGroup(env: Env, options: Options, stagingLocation: string): Run<seq<string>> {
    match options.requirementsFile
    case None => Nothing
    case Some(file) =>
      if !IsFile(env, file) then Run(Err(RuntimeError(RequirementsFileMissing(file))), [])
      else
        var first := [Stage(file, Join(stagingLocation, RequirementsFile))];
        var p := PopulateRequirementsCache(env, file, RequirementsCachePath(env, options));
        if p.result.Err? then Run(Err(p.result.error), first + p.effects)
        else
          Run(Ok([RequirementsFile] + Basenames(env.cacheListing)),
              first + p.effects + StageCalls(stagingLocation, env.cacheListing))
  }

  /** The workflow tarball built from the setup file. */
  function SetupGroup(env: Env, options: Options, stagingLocation: string, tempDir: string): Run<seq<string>> {
    match options.setupFile
    case None => Nothing
    case Some(file) =>
      if !IsFile(env, file) then Run(Err(RuntimeError(SetupFileMissing(file))), [])
      else if Basename(file) != "setup.py" then Run(Err(RuntimeError(SetupFileMisnamed(file))), [])
      else
        var b := BuildSetupPackage(env, file, tempDir);
        if b.result.Err? then Run(Err(b.result.error), b.effects)
        else
          Run(Ok([WorkflowTarballFile]),
              b.effects + [Stage(b.result.value, Join(stagingLocation, WorkflowTarballFile))])
  }

  function ExtraGroup(env: Env, options: Options, stagingLocation: string, tempDir: string): Run<seq<string>> {
    match options.extraPackages
    case None => Nothing
    case Some(packages) => ExtraPackages(env, packages, stagingLocation, tempDir, env.extraStagingTempDir)
  }

  function JarGroup(env: Env, options: Options, stagingLocation: string): Run<seq<string>> {
    match options.jarPackages
    case None => Nothing
    case Some(jars) => JarPackages(env, SplitOn(jars, ','), stagingLocation, env.jarStagingTempDir)
  }

  /** The pickled main session. */
  function SessionGroup(options: Options, stagingLocation: string, tempDir: string): Run<seq<string>> {
    if options.saveMainSession then
      var file := Join(tempDir, PickledMainSessionFile);
      Run(Ok([PickledMainSessionFile]),
          [DumpSession(file), Stage(file, Join(stagingLocation, PickledMainSessionFile))])
    else Nothing
  }

  /** The local SDK file `sdk_location` designates: the tarball inside it
      when it is a directory, else the location itself. */
  function LocalSdkPath(env: Env, location: string): string {
    if IsDir(env, location) then Join(location, DataflowSdkTarballFile) else location
  }

  /** The dispatch on `sdk_location`. */
  function SdkGroup(env: Env, options: Options, stagingLocation: string, tempDir: string): Run<seq<string>> {
    match options.sdkLocation
    case None => Nothing
    case Some(location) =>
      if location == "default" || IsRemotePath(location) then
        BeamSdk(env, if location == "default" then "pypi" else location, stagingLocation, tempDir)
      else if location == "container" then Nothing
      else
        var sdkPath := LocalSdkPath(env, location);
        if IsFile(env, sdkPath) then
          var name := DesiredSdkFilename(location);
          if name.Err? then Run(Err(name.error), [])
          else
            var stagedPath := Join(stagingLocation, name.value);
            Run(Ok([Split(stagedPath).1]), [Stage(sdkPath, stagedPath)])
        else if location == "default" then Run(Err(RuntimeError(DefaultSdkTarballMissing(sdkPath))), [])
        else if location == "" then Nothing
        else Run(Err(RuntimeError(SdkFileMissing(sdkPath))), [])
  }

  /** The Dataflow worker jar. */
  function WorkerJarGroup(options: Options, stagingLocation: string): Run<seq<string>> {
    match options.dataflowWorkerJar
    case None => Nothing
    case Some(jar) =>
      Run(Ok([DataflowWorkerJarFile]), [Stage(jar, Join(stagingLocation, DataflowWorkerJarFile))])
  }

  /** Run `b` after `a`: stop at `a`'s exception, else append `b`'s names
      and effects to `a`'s. */
  function Then(a: Run<seq<string>>, b: Run<seq<string>>): Run<seq<string>> {
    if a.result.Err? then a
    else if b.result.Err? then Run(Err(b.result.error), a.effects + b.effects)
    else Run(Ok(a.result.value + b.result.value), a.effects + b.effects)
  }

  /** On success, `stage_job_resources` removes its temp directory and
      commits the manifest; an exception skips both. */
  function Finish(r: Run<seq<string>>, tempDir: string): Run<seq<string>> {
    if r.result.Err? then r
    else Run(r.result, r.effects + [RemoveTree(tempDir), CommitManifest])
  }

  /** `stage_job_resources` (the retrieval token aside): the groups of
      resources in the order they are staged, stopping at the first
      exception. */
  function JobResources(env: Env, options: Options, stagingLocation: Option<string>, tempDir: string): Run<seq<string>> {
    match stagingLocation
    case None => Run(Err(RuntimeError(StagingLocationUnset)), [])
    case Some(location) =>
      Finish(Then(Then(Then(Then(Then(Then(
        RequirementsGroup(env, options, location),
        SetupGroup(env, options, location, tempDir)),
        ExtraGroup(env, options, location, tempDir)),
        JarGroup(env, options, location)),
        SessionGroup(options, location, tempDir)),
        SdkGroup(env, options, location, tempDir)),
        WorkerJarGroup(options, location)), tempDir)
  }
}
