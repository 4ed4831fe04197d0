/** What `stage_job_resources` promises as a whole: the resource names it
    returns are exactly the files it staged, in the order it staged them;
    it cleans up and commits the manifest only when it succeeds; and it
    stops at the first exception, having done nothing after it. */
module JobProperties {
  import opened Paths
  import opened StagingTypes
  import opened Naming
  import opened StagingSpec
  import opened PackageProperties

  /** Where each `stage_artifact` call among `effects` put its file, in
      order. */
  function Destinations(effects: seq<Effect>): (r: seq<string>)
    ensures |r| <= |effects|
  {
    if effects == [] then []
    else
      var last := effects[|effects| - 1];
      Destinations(effects[..|effects| - 1]) + (if last.Stage? then [last.destination] else [])
  }

  /** The staging calls of two runs of effects, one after the other. */
  lemma {:induction false} DestinationsAppend(a: seq<Effect>, b: seq<Effect>)
    ensures Destinations(a + b) == Destinations(a) + Destinations(b)
    decreases |b|
  {
    if b == [] {
      assert a + b == a;
      AppendEmpty(Destinations(a));
    } else {
      var init, last := b[..|b| - 1], b[|b| - 1];
      assert (a + b)[..|a + b| - 1] == a + init;
      assert (a + b)[|a + b| - 1] == last;
      DestinationsAppend(a, init);
      AppendAssoc(Destinations(a), Destinations(init), if last.Stage? then [last.destination] else []);
    }
  }

  /** The clean-up effects among `effects`: removing the temp directory
      and committing the manifest. */
  function Closing(effects: seq<Effect>): (r: seq<Effect>)
    ensures |r| <= |effects|
  {
    if effects == [] then []
    else
      var last := effects[|effects| - 1];
      Closing(effects[..|effects| - 1]) + (if last.RemoveTree? || last.CommitManifest? then [last] else [])
  }

  lemma {:induction false} ClosingAppend(a: seq<Effect>, b: seq<Effect>)
    ensures Closing(a + b) == Closing(a) + Closing(b)
    decreases |b|
  {
    if b == [] {
      assert a + b == a;
      AppendEmpty(Closing(a));
    } else {
      var init, last := b[..|b| - 1], b[|b| - 1];
      assert (a + b)[..|a + b| - 1] == a + init;
      assert (a + b)[|a + b| - 1] == last;
      ClosingAppend(a, init);
      AppendAssoc(Closing(a), Closing(init), if last.RemoveTree? || last.CommitManifest? then [last] else []);
    }
  }

  /** Effects that only run subprocesses, download or write local files
      neither stage nor clean up. */
  lemma {:induction false} Unstaged(effects: seq<Effect>)
    requires forall e :: e in effects ==> e.Exec? || e.Download? || e.WriteLines? || e.DumpSession?
    ensures Destinations(effects) == [] && Closing(effects) == []
  {
    if effects != [] {
      var init := effects[..|effects| - 1];
      assert forall e :: e in init ==> e in effects;
      Unstaged(init);
      assert effects[|effects| - 1] in effects;
    }
  }

  /** Staging files one by one sends each to the staging location under its
      own base name. */
  lemma {:induction false} DestinationsOfStageCalls(location: string, paths: seq<string>)
    ensures Destinations(StageCalls(location, paths)) == InDir(location, Basenames(paths))
  {
    if paths != [] {
      var init := paths[..|paths| - 1];
      var p := paths[|paths| - 1];
      var calls := StageCalls(location, paths);
      assert calls[..|calls| - 1] == StageCalls(location, init);
      DestinationsOfStageCalls(location, init);
      var names := Basenames(paths);
      assert names[..|names| - 1] == Basenames(init);
    }
  }

  /** Joining two lists of names onto a directory. */
  lemma {:induction false} InDirAppend(dir: string, a: seq<string>, b: seq<string>)
    ensures InDir(dir, a + b) == InDir(dir, a) + InDir(dir, b)
    decreases |b|
  {
    if b == [] {
      assert a + b == a;
      AppendEmpty(InDir(dir, a));
    } else {
      var init, last := b[..|b| - 1], b[|b| - 1];
      assert (a + b)[..|a + b| - 1] == a + init;
      assert (a + b)[|a + b| - 1] == last;
      InDirAppend(dir, a, init);
      AppendAssoc(InDir(dir, a), InDir(dir, init), [Join(dir, last)]);
    }
  }

  /** A step of `stage_job_resources` that stages what it names: when it
      succeeds, the files it staged went, in order, to the staging location
      under the names it returns. It never removes the temp directory nor
      commits the manifest. */
  predicate StagesItsNames(r: Run<seq<string>>, location: string) {
    (r.result.Ok? ==> Destinations(r.effects) == InDir(location, r.result.value)) &&
    Closing(r.effects) == []
  }

  /** Running one such step after another gives such a step. */
  lemma ThenStagesItsNames(a: Run<seq<string>>, b: Run<seq<string>>, location: string)
    requires StagesItsNames(a, location) && StagesItsNames(b, location)
    ensures StagesItsNames(Then(a, b), location)
  {
    ClosingAppend(a.effects, b.effects);
    if a.result.Ok? && b.result.Ok? {
      DestinationsAppend(a.effects, b.effects);
      InDirAppend(location, a.result.value, b.result.value);
    }
  }

  /** The retried `pip download` only runs subprocesses. */
  lemma PopulateUnstaged(env: Env, requirementsFile: string, cacheDir: string)
    ensures var p := PopulateRequirementsCache(env, requirementsFile, cacheDir);
            Destinations(p.effects) == [] && Closing(p.effects) == []
  {
    Unstaged(PopulateRequirementsCache(env, requirementsFile, cacheDir).effects);
  }

  /** A single `stage_artifact` call after effects that stage nothing. */
  lemma StageOne(before: seq<Effect>, source: string, location: string, name: string)
    requires Destinations(before) == [] && Closing(before) == []
    ensures Destinations(before + [Stage(source, Join(location, name))]) == InDir(location, [name])
    ensures Closing(before + [Stage(source, Join(location, name))]) == []
  {
    DestinationsAppend(before, [Stage(source, Join(location, name))]);
    ClosingAppend(before, [Stage(source, Join(location, name))]);
    assert InDir(location, [name]) == [Join(location, name)];
  }

  /** The requirements file and the requirements cache. */
  lemma RequirementsStagesItsNames(env: Env, options: Options, location: string)
    ensures StagesItsNames(RequirementsGroup(env, options, location), location)
  {
    if options.requirementsFile.Some? && IsFile(env, options.requirementsFile.value) {
      var file := options.requirementsFile.value;
      var p := PopulateRequirementsCache(env, file, RequirementsCachePath(env, options));
      PopulateUnstaged(env, file, RequirementsCachePath(env, options));
      StagedAfterFile(file, p.effects, location, RequirementsFile, env.cacheListing);
    }
  }

  /** One file staged, then subprocesses, then one file per path: the
      destinations follow the names. */
  lemma StagedAfterFile(source: string, middle: seq<Effect>, location: string, name: string, paths: seq<string>)
    requires Destinations(middle) == [] && Closing(middle) == []
    ensures var first := [Stage(source, Join(location, name))];
            Destinations(first + middle) == InDir(location, [name]) && Closing(first + middle) == [] &&
            Destinations(first + middle + StageCalls(location, paths)) == InDir(location, [name] + Basenames(paths)) &&
            Closing(first + middle + StageCalls(location, paths)) == []
  {
    var first := [Stage(source, Join(location, name))];
    DestinationsAppend(first, middle);
    ClosingAppend(first, middle);
    assert Destinations(first) == [Join(location, name)];
    assert InDir(location, [name]) == [Join(location, name)];
    AppendEmpty(Destinations(first));
    AppendEmpty(Closing(first));
    DestinationsAppend(first + middle, StageCalls(location, paths));
    ClosingAppend(first + middle, StageCalls(location, paths));
    DestinationsOfStageCalls(location, paths);
    StageCallsUnclosed(location, paths);
    InDirAppend(location, [name], Basenames(paths));
  }

  lemma {:induction false} StageCallsUnclosed(location: string, paths: seq<string>)
    ensures Closing(StageCalls(location, paths)) == []
  {
    if paths != [] {
      var calls := StageCalls(location, paths);
      assert calls[..|calls| - 1] == StageCalls(location, paths[..|paths| - 1]);
      StageCallsUnclosed(location, paths[..|paths| - 1]);
    }
  }

  /** The workflow tarball built from the setup file. */
  lemma SetupStagesItsNames(env: Env, options: Options, location: string, tempDir: string)
    ensures StagesItsNames(SetupGroup(env, options, location, tempDir), location)
  {
    if options.setupFile.Some? {
      var b := BuildSetupPackage(env, options.setupFile.value, tempDir);
      Unstaged(b.effects);
      if b.result.Ok? {
        StageOne(b.effects, b.result.value, location, WorkflowTarballFile);
      }
    }
  }

  /** `_build_setup_package` and the setup group around it: the build
      succeeds exactly when the setup file names a directory, an executable
      is set, `setup.py sdist` exits 0 and its glob finds a tarball; the
      first tarball found is then staged as `workflow.tar.gz`, the one name
      returned. */
  lemma SetupGroupOutcome(env: Env, options: Options, location: string, tempDir: string)
    requires options.setupFile.Some? && IsFile(env, options.setupFile.value)
    requires Basename(options.setupFile.value) == "setup.py"
    ensures var r := SetupGroup(env, options, location, tempDir);
      var f := options.setupFile.value;
      && (r.result.Ok? <==>
            '/' in f && env.pythonExecutable != "" && env.sdistExit == 0 && env.sdistOutputs != [])
      && (r.result.Ok? ==>
            r.result.value == [WorkflowTarballFile] &&
            r.effects[|r.effects| - 1] == Stage(env.sdistOutputs[0], Join(location, WorkflowTarballFile)) &&
            Destinations(r.effects) == [Join(location, WorkflowTarballFile)])
      && ('/' !in f ==> r == Run(Err(IOError("")), []))
      && ('/' in f && env.pythonExecutable == "" ==> r == Run(Err(ValueError), []))
      && ('/' in f && env.pythonExecutable != "" && env.sdistExit != 0 ==>
            r.result == Err(CalledProcessError(env.sdistExit)))
      && ('/' in f && env.pythonExecutable != "" && env.sdistExit == 0 && env.sdistOutputs == [] ==>
            r.result == Err(RuntimeError(SetupTarballMissing(Join(tempDir, "*.tar.gz")))))
  {
    var b := BuildSetupPackage(env, options.setupFile.value, tempDir);
    Unstaged(b.effects);
    if b.result.Ok? {
      StageOne(b.effects, b.result.value, location, WorkflowTarballFile);
    }
  }

  /** Files staged one by one after a validation loop, then local writes,
      then one more file. */
  lemma StagedAfterScan(before: seq<Effect>, location: string, paths: seq<string>, writes: seq<Effect>,
                        source: string, name: string)
    requires Destinations(before) == [] && Closing(before) == []
    requires Destinations(writes) == [] && Closing(writes) == []
    ensures Destinations(before + StageCalls(location, paths)) == InDir(location, Basenames(paths))
    ensures Closing(before + StageCalls(location, paths)) == []
    ensures Destinations(before + StageCalls(location, paths) + writes + [Stage(source, Join(location, name))])
         == InDir(location, Basenames(paths) + [name])
    ensures Closing(before + StageCalls(location, paths) + writes + [Stage(source, Join(location, name))]) == []
  {
    var staged := before + StageCalls(location, paths);
    DestinationsAppend(before, StageCalls(location, paths));
    ClosingAppend(before, StageCalls(location, paths));
    DestinationsOfStageCalls(location, paths);
    StageCallsUnclosed(location, paths);
    DestinationsAppend(staged, writes);
    ClosingAppend(staged, writes);
    AppendEmpty(Destinations(staged));
    AppendEmpty(Closing(staged));
    var last := [Stage(source, Join(location, name))];
    DestinationsAppend(staged + writes, last);
    ClosingAppend(staged + writes, last);
    assert Destinations(last) == [Join(location, name)];
    InDirAppend(location, Basenames(paths), [name]);
    assert InDir(location, [name]) == [Join(location, name)];
  }

  /** `_stage_extra_packages`: the packages, then `extra_packages.txt`. */
  lemma ExtraStagesItsNames(env: Env, options: Options, location: string, tempDir: string)
    ensures StagesItsNames(ExtraGroup(env, options, location, tempDir), location)
  {
    if options.extraPackages.Some? {
      var packages := options.extraPackages.value;
      var stagingTempDir := env.extraStagingTempDir;
      var s := ScanPackages(env, ExtraPackage, stagingTempDir, packages);
      ScanOnlyDownloads(env, ExtraPackage, stagingTempDir, packages);
      Unstaged(s.effects);
      if s.error.None? {
        var sources := StagedSources(s, stagingTempDir);
        var manifest := Join(tempDir, ExtraPackagesFile);
        var writes := [WriteLines(manifest, Basenames(sources))];
        Unstaged(writes);
        StagedAfterScan(s.effects, location, sources, writes, manifest, ExtraPackagesFile);
      }
    }
  }

  /** `_stage_jar_packages`: the packages and nothing else. */
  lemma JarStagesItsNames(env: Env, options: Options, location: string)
    ensures StagesItsNames(JarGroup(env, options, location), location)
  {
    if options.jarPackages.Some? {
      var packages := SplitOn(options.jarPackages.value, ',');
      var stagingTempDir := env.jarStagingTempDir;
      var s := ScanPackages(env, JarPackage, stagingTempDir, packages);
      ScanOnlyDownloads(env, JarPackage, stagingTempDir, packages);
      Unstaged(s.effects);
      if s.error.None? {
        StagedAfterScan(s.effects, location, StagedSources(s, stagingTempDir), [], "", "");
      }
    }
  }

  /** The pickled main session. */
  lemma SessionStagesItsNames(options: Options, location: string, tempDir: string)
    ensures StagesItsNames(SessionGroup(options, location, tempDir), location)
  {
    if options.saveMainSession {
      var file := Join(tempDir, PickledMainSessionFile);
      Unstaged([DumpSession(file)]);
      StageOne([DumpSession(file)], file, location, PickledMainSessionFile);
    }
  }

  /** The Dataflow worker jar. */
  lemma WorkerJarStagesItsNames(options: Options, location: string)
    ensures StagesItsNames(WorkerJarGroup(options, location), location)
  {
    if options.dataflowWorkerJar.Some? {
      StageOne([], options.dataflowWorkerJar.value, location, DataflowWorkerJarFile);
    }
  }

  /** `dataflow_worker_jar`, when given, is staged as `dataflow-worker.jar`,
      the one name returned; otherwise nothing is staged. */
  lemma WorkerJarOutcome(options: Options, location: string)
    ensures var r := WorkerJarGroup(options, location);
      && r.result.Ok?
      && (options.dataflowWorkerJar.Some? ==>
            r.result.value == [DataflowWorkerJarFile] &&
            r.effects == [Stage(options.dataflowWorkerJar.value, Join(location, DataflowWorkerJarFile))] &&
            Destinations(r.effects) == [Join(location, DataflowWorkerJarFile)])
      && (options.dataflowWorkerJar.None? ==> r == Run(Ok([]), []))
  {
    if options.dataflowWorkerJar.Some? {
      StageOne([], options.dataflowWorkerJar.value, location, DataflowWorkerJarFile);
    }
  }

  /** A PyPI download of the SDK only runs `pip`. */
  lemma PypiSdkDownloadUnstaged(env: Env, tempDir: string, req: SdkRequest)
    ensures Destinations(PypiSdkDownload(env, tempDir, req).effects) == []
    ensures Closing(PypiSdkDownload(env, tempDir, req).effects) == []
  {
    Unstaged(PypiSdkDownload(env, tempDir, req).effects);
  }

  /** The best-effort wheel step stages the wheel, if anything, under the
      name it adds. */
  lemma WheelStagesItsNames(env: Env, location: string, tempDir: string, sourceNames: seq<string>)
    ensures var w := StageSdkWheel(env, location, tempDir, sourceNames);
            Closing(w.effects) == [] &&
            (w.result.Ok? ==> |w.result.value| >= |sourceNames| &&
                              w.result.value[..|sourceNames|] == sourceNames &&
                              Destinations(w.effects) == InDir(location, w.result.value[|sourceNames|..]))
  {
    var w := StageSdkWheel(env, location, tempDir, sourceNames);
    var bin := PypiSdkDownload(env, tempDir, BinaryRequest(env));
    PypiSdkDownloadUnstaged(env, tempDir, BinaryRequest(env));
    if w.result.Ok? {
      if w.result.value == sourceNames {
        assert w.result.value[|sourceNames|..] == [];
        assert w.result.value[..|sourceNames|] == sourceNames;
      } else {
        var name := DesiredSdkFilename(bin.result.value).value;
        StageOne(bin.effects, bin.result.value, location, name);
        assert w.result.value[|sourceNames|..] == [name];
        assert w.result.value[..|sourceNames|] == sourceNames;
      }
    }
  }

  /** `_stage_beam_sdk`, from PyPI or from a remote location. */
  lemma BeamSdkStagesItsNames(env: Env, remoteLocation: string, location: string, tempDir: string)
    ensures StagesItsNames(BeamSdk(env, remoteLocation, location, tempDir), location)
  {
    var r := BeamSdk(env, remoteLocation, location, tempDir);
    if remoteLocation == "pypi" {
      var src := PypiSdkDownload(env, tempDir, SourceRequest);
      PypiSdkDownloadUnstaged(env, tempDir, SourceRequest);
      if src.result.Ok? && DesiredSdkFilename(src.result.value).Ok? {
        var name := DesiredSdkFilename(src.result.value).value;
        var staged := src.effects + [Stage(src.result.value, Join(location, name))];
        StageOne(src.effects, src.result.value, location, name);
        var w := StageSdkWheel(env, location, tempDir, [name]);
        WheelStagesItsNames(env, location, tempDir, [name]);
        ClosingAppend(staged, w.effects);
        if w.result.Ok? {
          DestinationsAppend(staged, w.effects);
          var names := w.result.value;
          assert names == [name] + names[1..];
          InDirAppend(location, [name], names[1..]);
        }
      }
    } else if IsRemotePath(remoteLocation) {
      var localFile := Join(tempDir, DownloadedSdkFile);
      var d := DownloadFile(env, remoteLocation, localFile);
      Unstaged(d.effects);
      if d.result.Ok? && DesiredSdkFilename(remoteLocation).Ok? {
        StageOne(d.effects, localFile, location, DesiredSdkFilename(remoteLocation).value);
      }
    }
  }

  /** The dispatch on `sdk_location`. */
  lemma SdkStagesItsNames(env: Env, options: Options, location: string, tempDir: string)
    ensures StagesItsNames(SdkGroup(env, options, location, tempDir), location)
  {
    if options.sdkLocation.Some? {
      var sdk := options.sdkLocation.value;
      if sdk == "default" || IsRemotePath(sdk) {
        BeamSdkStagesItsNames(env, if sdk == "default" then "pypi" else sdk, location, tempDir);
      } else if sdk != "container" && IsFile(env, LocalSdkPath(env, sdk)) && DesiredSdkFilename(sdk).Ok? {
        var name := DesiredSdkFilename(sdk).value;
        SplitOfJoin(location, name);
        StageOne([], LocalSdkPath(env, sdk), location, name);
      }
    }
  }

  /** Every group of `stage_job_resources` stages what it names, and so do
      all of them run in order. */
  lemma GroupsStageTheirNames(env: Env, options: Options, location: string, tempDir: string)
    ensures StagesItsNames(
              Then(Then(Then(Then(Then(Then(
                RequirementsGroup(env, options, location),
                SetupGroup(env, options, location, tempDir)),
                ExtraGroup(env, options, location, tempDir)),
                JarGroup(env, options, location)),
                SessionGroup(options, location, tempDir)),
                SdkGroup(env, options, location, tempDir)),
                WorkerJarGroup(options, location)), location)
  {
    var a := RequirementsGroup(env, options, location);
    RequirementsStagesItsNames(env, options, location);
    SetupStagesItsNames(env, options, location, tempDir);
    ThenStagesItsNames(a, SetupGroup(env, options, location, tempDir), location);
    a := Then(a, SetupGroup(env, options, location, tempDir));
    ExtraStagesItsNames(env, options, location, tempDir);
    ThenStagesItsNames(a, ExtraGroup(env, options, location, tempDir), location);
    a := Then(a, ExtraGroup(env, options, location, tempDir));
    JarStagesItsNames(env, options, location);
    ThenStagesItsNames(a, JarGroup(env, options, location), location);
    a := Then(a, JarGroup(env, options, location));
    SessionStagesItsNames(options, location, tempDir);
    ThenStagesItsNames(a, SessionGroup(options, location, tempDir), location);
    a := Then(a, SessionGroup(options, location, tempDir));
    SdkStagesItsNames(env, options, location, tempDir);
    ThenStagesItsNames(a, SdkGroup(env, options, location, tempDir), location);
    a := Then(a, SdkGroup(env, options, location, tempDir));
    WorkerJarStagesItsNames(options, location);
    ThenStagesItsNames(a, WorkerJarGroup(options, location), location);
  }

  /** A clean-up effect occurs among `effects` exactly when `Closing` lists
      it. */
  lemma {:induction false} InClosing(effects: seq<Effect>, e: Effect)
    requires e.RemoveTree? || e.CommitManifest?
    ensures e in effects <==> e in Closing(effects)
  {
    if effects != [] {
      var init := effects[..|effects| - 1];
      InClosing(init, e);
      assert effects == init + [effects[|effects| - 1]];
    }
  }

  /** `stage_job_resources`: on success, the files it staged went to the
      staging location under exactly the names it returns, in the same
      order, and it ends by removing its temp directory and committing the
      manifest; when it raises, it has done neither. */
  lemma JobResourcesOutcome(env: Env, options: Options, stagingLocation: Option<string>, tempDir: string)
    ensures var r := JobResources(env, options, stagingLocation, tempDir);
            (r.result.Ok? ==> stagingLocation.Some? &&
                              Destinations(r.effects) == InDir(stagingLocation.value, r.result.value) &&
                              |r.effects| >= 2 &&
                              r.effects[|r.effects| - 2..] == [RemoveTree(tempDir), CommitManifest]) &&
            (CommitManifest in r.effects <==> r.result.Ok?) &&
            (RemoveTree(tempDir) in r.effects <==> r.result.Ok?)
  {
    var r := JobResources(env, options, stagingLocation, tempDir);
    if stagingLocation.Some? {
      var location := stagingLocation.value;
      GroupsStageTheirNames(env, options, location, tempDir);
      var groups :=
        Then(Then(Then(Then(Then(Then(
          RequirementsGroup(env, options, location),
          SetupGroup(env, options, location, tempDir)),
          ExtraGroup(env, options, location, tempDir)),
          JarGroup(env, options, location)),
          SessionGroup(options, location, tempDir)),
          SdkGroup(env, options, location, tempDir)),
          WorkerJarGroup(options, location));
      assert r == Finish(groups, tempDir);
      var closing := [RemoveTree(tempDir), CommitManifest];
      if groups.result.Ok? {
        DestinationsAppend(groups.effects, closing);
        ClosingAppend(groups.effects, closing);
        assert Destinations(closing) == [];
        assert Closing(closing) == closing;
        AppendEmpty(Destinations(groups.effects));
      }
      InClosing(r.effects, CommitManifest);
      InClosing(r.effects, RemoveTree(tempDir));
    }
  }

  /** The checks `stage_job_resources` makes before staging anything: no
      staging location, a missing requirements file, or a setup file that
      is missing or not named `setup.py` raise at once, after only the
      requirements group's effects. */
  lemma JobResourcesEarlyErrors(env: Env, options: Options, stagingLocation: Option<string>, tempDir: string)
    ensures var r := JobResources(env, options, stagingLocation, tempDir);
            (stagingLocation.None? ==> r == Run(Err(RuntimeError(StagingLocationUnset)), [])) &&
            (stagingLocation.Some? && options.requirementsFile.Some? && !IsFile(env, options.requirementsFile.value) ==>
               r == Run(Err(RuntimeError(RequirementsFileMissing(options.requirementsFile.value))), [])) &&
            (stagingLocation.Some? && RequirementsGroup(env, options, stagingLocation.value).result.Ok? &&
             options.setupFile.Some? && !IsFile(env, options.setupFile.value) ==>
               r == Run(Err(RuntimeError(SetupFileMissing(options.setupFile.value))),
                        RequirementsGroup(env, options, stagingLocation.value).effects)) &&
            (stagingLocation.Some? && RequirementsGroup(env, options, stagingLocation.value).result.Ok? &&
             options.setupFile.Some? && IsFile(env, options.setupFile.value) &&
             Basename(options.setupFile.value) != "setup.py" ==>
               r == Run(Err(RuntimeError(SetupFileMisnamed(options.setupFile.value))),
                        RequirementsGroup(env, options, stagingLocation.value).effects))
  {
    if stagingLocation.Some? {
      var location := stagingLocation.value;
      var req := RequirementsGroup(env, options, location);
      var setup := SetupGroup(env, options, location, tempDir);
      if req.result.Ok? && setup.result.Err? {
        AppendEmpty(req.effects);
      }
    }
  }

  /** A setup file given as a bare `setup.py`, with no directory, passes
      both checks but cannot be built: changing into its empty directory
      name raises before the build runs, after only the requirements
      group's effects. */
  lemma SetupFileWithoutDirectory(env: Env, options: Options, location: string, tempDir: string)
    requires options.setupFile == Some("setup.py") && IsFile(env, "setup.py")
    requires RequirementsGroup(env, options, location).result.Ok?
    ensures SetupGroup(env, options, location, tempDir) == Run(Err(IOError("")), [])
    ensures JobResources(env, options, Some(location), tempDir)
         == Run(Err(IOError("")), RequirementsGroup(env, options, location).effects)
  {
    SplitOfName("setup.py");
    assert Basename("setup.py") == "setup.py";
    AppendEmpty(RequirementsGroup(env, options, location).effects);
  }
}
