/** The stager itself: an object that stages artifacts one at a time and
    records every side effect it performs. Each method follows the control
    flow of the routine it models (loops appending to lists, early raises)
    and is proved to agree with that routine's specification function. */
module StagerModel {
  import opened Paths
  import opened StagingTypes
  import opened Naming
  import StagingSpec

  class Stager {
    /** Every side effect performed so far, in order; `stage_artifact`
        calls are the `Stage` entries. */
    var log: seq<Effect>

    constructor ()
      ensures log == []
    {
      log := [];
    }

    /** `stage_artifact`: the storage backend copies the file; the model
        records the call. */
    method StageArtifact(source: string, destination: string)
      modifies this
      ensures log == old(log) + [Stage(source, destination)]
    {
      log := log + [Stage(source, destination)];
    }

    /** `_download_file` */
    method DownloadFile(env: Env, from: string, to: string) returns (r: Result<()>)
      modifies this
      ensures r == Naming.DownloadFile(env, from, to).result
      ensures log == old(log) + [Download(from, to)]
    {
      log := log + [Download(from, to)];
      if from in env.fetchable {
        r := Ok(());
      } else if StartsWith(from, "http://") || StartsWith(from, "https://") {
        r := Err(RuntimeError(ArtifactNotFound(from)));
      } else {
        r := Err(IOError(from));
      }
    }

    /** `processes.check_output` of a command that exits with `exit`. */
    method CheckOutput(args: seq<string>, exit: int) returns (r: Result<()>)
      modifies this
      ensures r == Naming.CheckOutput(args, exit).result
      ensures log == old(log) + [Exec(args)]
    {
      log := log + [Exec(args)];
      r := if exit == 0 then Ok(()) else Err(CalledProcessError(exit));
    }

    method WriteLines(path: string, lines: seq<string>)
      modifies this
      ensures log == old(log) + [Effect.WriteLines(path, lines)]
    {
      log := log + [Effect.WriteLines(path, lines)];
    }

    /** `pickler.dump_session` */
    method DumpSession(path: string)
      modifies this
      ensures log == old(log) + [Effect.DumpSession(path)]
    {
      log := log + [Effect.DumpSession(path)];
    }

    /** `shutil.rmtree` followed by `commit_manifest` */
    method CleanUpAndCommit(tempDir: string)
      modifies this
      ensures log == old(log) + [RemoveTree(tempDir), CommitManifest]
    {
      log := log + [RemoveTree(tempDir)];
      log := log + [CommitManifest];
    }

    /** `_populate_requirements_cache` under `with_exponential_backoff(
        num_retries=4, retry_filter=retry_on_non_zero_exit)`: the loop of
        the decorator, without its sleeps. */
    method PopulateRequirementsCache(env: Env, requirementsFile: string, cacheDir: string) returns (r: Result<()>)
      modifies this
      ensures r == StagingSpec.PopulateRequirementsCache(env, requirementsFile, cacheDir).result
      ensures log == old(log) + StagingSpec.PopulateRequirementsCache(env, requirementsFile, cacheDir).effects
    {
      ghost var outcomes := StagingSpec.CacheAttemptOutcomes(env);
      ghost var cmd := CacheDownloadCommand(env.pythonExecutable, requirementsFile, cacheDir);
      var attempt: nat := 0;
      while true
        invariant attempt <= NumRetries
        invariant forall j :: 0 <= j < attempt ==> outcomes[j].Some? && RetryOnNonZeroExit(outcomes[j].value)
        invariant log == old(log) + seq(attempt, _ => Exec(cmd))
        decreases NumRetries - attempt
      {
        var exe := PythonExecutable(env);
        if exe.Err? {
          FinalAttemptIs(outcomes, NumRetries, attempt);
          r := Err(exe.error);
          return;
        }
        var args := CacheDownloadCommand(exe.value, requirementsFile, cacheDir);
        ghost var before := log;
        r := CheckOutput(args, StagingSpec.CacheAttemptExit(env, attempt));
        assert log == old(log) + seq(attempt + 1, _ => Exec(cmd)) by {
          assert before == old(log) + seq(attempt, _ => Exec(cmd));
        }
        if r.Ok? || !RetryOnNonZeroExit(r.error) || attempt == NumRetries {
          FinalAttemptIs(outcomes, NumRetries, attempt);
          return;
        }
        attempt := attempt + 1;
      }
    }

    /** The loop that stages each file under its base name, appending the
        name to the resources. */
    method StageFiles(paths: seq<string>, stagingLocation: string) returns (names: seq<string>)
      modifies this
      ensures names == StagingSpec.Basenames(paths)
      ensures log == old(log) + StagingSpec.StageCalls(stagingLocation, paths)
    {
      names := [];
      for i := 0 to |paths|
        invariant names == StagingSpec.Basenames(paths[..i])
        invariant log == old(log) + StagingSpec.StageCalls(stagingLocation, paths[..i])
      {
        var basename := Basename(paths[i]);
        StageArtifact(paths[i], Join(stagingLocation, basename));
        names := names + [basename];
        assert paths[..i + 1][..i] == paths[..i];
        AppendAssoc(old(log), StagingSpec.StageCalls(stagingLocation, paths[..i]),
                    [Stage(paths[i], Join(stagingLocation, basename))]);
      }
      assert paths[..|paths|] == paths;
    }

    /** The validation loop shared by `_stage_extra_packages` and
        `_stage_jar_packages`: check each name, keep existing local files,
        download remote ones into the staging temp directory. Returns the
        exception raised, the local packages and the temp dir's listing. */
    method ValidatePackages(env: Env, kind: PackageKind, packages: seq<string>, stagingTempDir: string)
      returns (error: Option<Error>, localPackages: seq<string>, listing: seq<string>)
      modifies this
      ensures var s := StagingSpec.ScanPackages(env, kind, stagingTempDir, packages);
              error == s.error && (error.None? ==> localPackages == s.local && listing == s.downloaded) &&
              log == old(log) + s.effects
    {
      localPackages, listing := [], [];
      ghost var effects: seq<Effect> := [];
      for i := 0 to |packages|
        invariant StagingSpec.ScanPackages(env, kind, stagingTempDir, packages[..i])
               == StagingSpec.Scan(None, localPackages, listing, effects)
        invariant log == old(log) + effects
      {
        StagingSpec.ScanPrefixStep(env, kind, stagingTempDir, packages, i);
        var stepError, stepLocal, stepListing;
        ghost var added;
        stepError, stepLocal, stepListing, added := ValidatePackage(env, kind, stagingTempDir, packages[i], localPackages, listing, effects);
        AppendAssoc(old(log), effects, added);
        effects := effects + added;
        if stepError.Some? {
          error := stepError;
          StagingSpec.ScanStopsAtError(env, kind, stagingTempDir, packages, i + 1);
          return;
        }
        localPackages, listing := stepLocal, stepListing;
      }
      assert packages[..|packages|] == packages;
      error := None;
    }

    /** One iteration of the validation loop, for `package`: a bad name or
        a missing local file raises, a remote package is downloaded into
        the staging temp directory, an existing file is kept. */
    method ValidatePackage(env: Env, kind: PackageKind, stagingTempDir: string, package: string,
                           localPackages: seq<string>, listing: seq<string>, ghost effects: seq<Effect>)
      returns (error: Option<Error>, newLocal: seq<string>, newListing: seq<string>, ghost added: seq<Effect>)
      modifies this
      ensures StagingSpec.ScanStep(env, kind, stagingTempDir, StagingSpec.Scan(None, localPackages, listing, effects), package)
           == StagingSpec.Scan(error, newLocal, newListing, effects + added)
      ensures log == old(log) + added
    {
      newLocal, newListing, added := localPackages, listing, [];
      AppendEmpty(effects);
      AppendEmpty(log);
      if !StagingSpec.AcceptedName(kind, Basename(package)) {
        error := Some(RuntimeError(BadPackageName(kind, package)));
      } else if IsFile(env, package) {
        error := None;
        newLocal := localPackages + [package];
      } else if IsRemotePath(package) {
        var lastComponent := Split(package).1;
        var d := DownloadFile(env, package, Join(stagingTempDir, lastComponent));
        added := [Download(package, Join(stagingTempDir, lastComponent))];
        if d.Err? {
          error := Some(d.error);
        } else {
          error := None;
          newListing := StagingSpec.AddListing(listing, lastComponent);
        }
      } else {
        error := Some(RuntimeError(PackageMissing(kind, package)));
      }
    }

    /** `_stage_extra_packages`, with `mkdtemp` returning the environment's
        `extraStagingTempDir`. */
    method StageExtraPackages(env: Env, packages: seq<string>, stagingLocation: string, tempDir: string)
      returns (r: Result<seq<string>>)
      modifies this
      ensures r == StagingSpec.ExtraPackages(env, packages, stagingLocation, tempDir, env.extraStagingTempDir).result
      ensures log == old(log) + StagingSpec.ExtraPackages(env, packages, stagingLocation, tempDir, env.extraStagingTempDir).effects
    {
      var stagingTempDir := env.extraStagingTempDir;
      ghost var s := StagingSpec.ScanPackages(env, ExtraPackage, stagingTempDir, packages);
      var error, localPackages, listing := ValidatePackages(env, ExtraPackage, packages, stagingTempDir);
      if error.Some? {
        return Err(error.value);
      }
      localPackages := localPackages + StagingSpec.InDir(stagingTempDir, listing);
      assert localPackages == StagingSpec.StagedSources(s, stagingTempDir);
      var resources := StageFiles(localPackages, stagingLocation);
      ghost var effects := s.effects + StagingSpec.StageCalls(stagingLocation, localPackages);
      AppendAssoc(old(log), s.effects, StagingSpec.StageCalls(stagingLocation, localPackages));
      var manifest := Join(tempDir, ExtraPackagesFile);
      WriteLines(manifest, resources);
      AppendAssoc(old(log), effects, [Effect.WriteLines(manifest, resources)]);
      effects := effects + [Effect.WriteLines(manifest, resources)];
      StageArtifact(manifest, Join(stagingLocation, ExtraPackagesFile));
      AppendAssoc(old(log), effects, [Stage(manifest, Join(stagingLocation, ExtraPackagesFile))]);
      resources := resources + [ExtraPackagesFile];
      r := Ok(resources);
    }

    /** `_stage_jar_packages`, with `mkdtemp` returning the environment's
        `jarStagingTempDir`. */
    method StageJarPackages(env: Env, packages: seq<string>, stagingLocation: string)
      returns (r: Result<seq<string>>)
      modifies this
      ensures r == StagingSpec.JarPackages(env, packages, stagingLocation, env.jarStagingTempDir).result
      ensures log == old(log) + StagingSpec.JarPackages(env, packages, stagingLocation, env.jarStagingTempDir).effects
    {
      var stagingTempDir := env.jarStagingTempDir;
      ghost var s := StagingSpec.ScanPackages(env, JarPackage, stagingTempDir, packages);
      var error, localPackages, listing := ValidatePackages(env, JarPackage, packages, stagingTempDir);
      if error.Some? {
        return Err(error.value);
      }
      localPackages := localPackages + StagingSpec.InDir(stagingTempDir, listing);
      assert localPackages == StagingSpec.StagedSources(s, stagingTempDir);
      var resources := StageFiles(localPackages, stagingLocation);
      AppendAssoc(old(log), s.effects, StagingSpec.StageCalls(stagingLocation, localPackages));
      return Ok(resources);
    }

    /** `_download_pypi_sdk_package` */
    method DownloadPypiSdkPackage(env: Env, tempDir: string, req: SdkRequest) returns (r: Result<string>)
      modifies this
      ensures r == StagingSpec.PypiSdkDownload(env, tempDir, req).result
      ensures log == old(log) + StagingSpec.PypiSdkDownload(env, tempDir, req).effects
    {
      if env.installedVersion.None? {
        return Err(RuntimeError(SdkDistributionNotInstalled));
      }
      var version := env.installedVersion.value;
      var exe := PythonExecutable(env);
      if exe.Err? {
        return Err(exe.error);
      }
      var cmdArgs := [exe.value, "-m", "pip", "download", "--dest", tempDir,
                      BeamPackageName + "==" + version, "--no-deps"];
      var expectedFiles: seq<string>;
      if req.fetchBinary {
        cmdArgs := cmdArgs + ["--only-binary", ":all:", "--python-version", req.languageVersionTag,
                              "--implementation", req.languageImplementationTag, "--abi", req.abiTag,
                              "--platform", req.platformTag];
        expectedFiles := [Join(tempDir, WheelFilename(version, req))];
      } else {
        cmdArgs := cmdArgs + ["--no-binary", ":all:"];
        expectedFiles := [Join(tempDir, BeamPackageName + "-" + version + ".zip"),
                          Join(tempDir, BeamPackageName + "-" + version + ".tar.gz")];
      }
      var exit := if req.fetchBinary then env.sdkBinaryExit else env.sdkSourceExit;
      var run := CheckOutput(cmdArgs, exit);
      if run.Err? {
        return Err(RuntimeError(SdkDownloadFailed(exit)));
      }
      for i := 0 to |expectedFiles|
        invariant forall j :: 0 <= j < i ==> !Exists(env, expectedFiles[j])
      {
        if Exists(env, expectedFiles[i]) {
          StagingSpec.FirstExistingAt(env, expectedFiles, i);
          return Ok(expectedFiles[i]);
        }
      }
      return Err(RuntimeError(SdkDistributionNotDownloaded(expectedFiles)));
    }

    /** The best-effort wheel step of `_stage_beam_sdk('pypi')`: a
        RuntimeError is swallowed and the names staged so far returned. */
    method StageSdkWheel(env: Env, stagingLocation: string, tempDir: string, stagedSdkFiles: seq<string>)
      returns (r: Result<seq<string>>)
      modifies this
      ensures r == StagingSpec.StageSdkWheel(env, stagingLocation, tempDir, stagedSdkFiles).result
      ensures log == old(log) + StagingSpec.StageSdkWheel(env, stagingLocation, tempDir, stagedSdkFiles).effects
    {
      ghost var bin := StagingSpec.PypiSdkDownload(env, tempDir, BinaryRequest(env));
      var sdkLocalFile := DownloadPypiSdkPackage(env, tempDir, BinaryRequest(env));
      if sdkLocalFile.Err? {
        if sdkLocalFile.error.RuntimeError? {
          return Ok(stagedSdkFiles);
        }
        return Err(sdkLocalFile.error);
      }
      var binaryName := DesiredSdkFilename(sdkLocalFile.value);
      if binaryName.Err? {
        return Ok(stagedSdkFiles);
      }
      var staged := Stage(sdkLocalFile.value, Join(stagingLocation, binaryName.value));
      StageArtifact(sdkLocalFile.value, Join(stagingLocation, binaryName.value));
      AppendAssoc(old(log), bin.effects, [staged]);
      return Ok(stagedSdkFiles + [binaryName.value]);
    }

    /** `_stage_beam_sdk` */
    method StageBeamSdk(env: Env, remoteLocation: string, stagingLocation: string, tempDir: string)
      returns (r: Result<seq<string>>)
      modifies this
      ensures r == StagingSpec.BeamSdk(env, remoteLocation, stagingLocation, tempDir).result
      ensures log == old(log) + StagingSpec.BeamSdk(env, remoteLocation, stagingLocation, tempDir).effects
    {
      if remoteLocation == "pypi" {
        ghost var src := StagingSpec.PypiSdkDownload(env, tempDir, SourceRequest);
        var sdkLocalFile := DownloadPypiSdkPackage(env, tempDir, SourceRequest);
        if sdkLocalFile.Err? {
          return Err(sdkLocalFile.error);
        }
        var sourcesName := DesiredSdkFilename(sdkLocalFile.value);
        if sourcesName.Err? {
          return Err(sourcesName.error);
        }
        StageArtifact(sdkLocalFile.value, Join(stagingLocation, sourcesName.value));
        ghost var staged := src.effects + [Stage(sdkLocalFile.value, Join(stagingLocation, sourcesName.value))];
        AppendAssoc(old(log), src.effects, [Stage(sdkLocalFile.value, Join(stagingLocation, sourcesName.value))]);
        ghost var wheel := StagingSpec.StageSdkWheel(env, stagingLocation, tempDir, [sourcesName.value]);
        r := StageSdkWheel(env, stagingLocation, tempDir, [sourcesName.value]);
        AppendAssoc(old(log), staged, wheel.effects);
      } else if IsRemotePath(remoteLocation) {
        var localDownloadFile := Join(tempDir, DownloadedSdkFile);
        var d := DownloadFile(env, remoteLocation, localDownloadFile);
        if d.Err? {
          return Err(d.error);
        }
        var stagedName := DesiredSdkFilename(remoteLocation);
        if stagedName.Err? {
          return Err(stagedName.error);
        }
        StageArtifact(localDownloadFile, Join(stagingLocation, stagedName.value));
        AppendAssoc(old(log), [Download(remoteLocation, localDownloadFile)],
                    [Stage(localDownloadFile, Join(stagingLocation, stagedName.value))]);
        return Ok([stagedName.value]);
      } else {
        return Err(RuntimeError(UnsupportedSdkLocation(remoteLocation)));
      }
    }

    /** `_build_setup_package` with the default build command. */
    method BuildSetupPackage(env: Env, setupFile: string, tempDir: string) returns (r: Result<string>)
      modifies this
      ensures r == StagingSpec.BuildSetupPackage(env, setupFile, tempDir).result
      ensures log == old(log) + StagingSpec.BuildSetupPackage(env, setupFile, tempDir).effects
    {
      if '/' !in setupFile {
        // os.chdir(os.path.dirname(setupFile)) with an empty directory name
        return Err(IOError(""));
      }
      var exe := PythonExecutable(env);
      if exe.Err? {
        return Err(exe.error);
      }
      var buildSetupArgs := [exe.value, Basename(setupFile), "sdist", "--dist-dir", tempDir];
      var run := CheckOutput(buildSetupArgs, env.sdistExit);
      if run.Err? {
        return Err(run.error);
      }
      var outputFiles := env.sdistOutputs;
      if outputFiles == [] {
        return Err(RuntimeError(SetupTarballMissing(Join(tempDir, "*.tar.gz"))));
      }
      return Ok(outputFiles[0]);
    }

    /** The requirements part of `stage_job_resources`. */
    method StageRequirements(env: Env, options: Options, stagingLocation: string) returns (r: Result<seq<string>>)
      modifies this
      ensures r == StagingSpec.RequirementsGroup(env, options, stagingLocation).result
      ensures log == old(log) + StagingSpec.RequirementsGroup(env, options, stagingLocation).effects
    {
      if options.requirementsFile.None? {
        return Ok([]);
      }
      var requirementsFile := options.requirementsFile.value;
      if !IsFile(env, requirementsFile) {
        return Err(RuntimeError(RequirementsFileMissing(requirementsFile)));
      }
      StageArtifact(requirementsFile, Join(stagingLocation, RequirementsFile));
      ghost var effects := [Stage(requirementsFile, Join(stagingLocation, RequirementsFile))];
      var resources := [RequirementsFile];
      var cachePath := StagingSpec.RequirementsCachePath(env, options);
      ghost var p := StagingSpec.PopulateRequirementsCache(env, requirementsFile, cachePath);
      var populated := PopulateRequirementsCache(env, requirementsFile, cachePath);
      AppendAssoc(old(log), effects, p.effects);
      effects := effects + p.effects;
      if populated.Err? {
        return Err(populated.error);
      }
      var names := StageFiles(env.cacheListing, stagingLocation);
      AppendAssoc(old(log), effects, StagingSpec.StageCalls(stagingLocation, env.cacheListing));
      r := Ok(resources + names);
    }

    /** The setup-file part of `stage_job_resources`. */
    method StageSetupFile(env: Env, options: Options, stagingLocation: string, tempDir: string) returns (r: Result<seq<string>>)
      modifies this
      ensures r == StagingSpec.SetupGroup(env, options, stagingLocation, tempDir).result
      ensures log == old(log) + StagingSpec.SetupGroup(env, options, stagingLocation, tempDir).effects
    {
      if options.setupFile.None? {
        return Ok([]);
      }
      var setupFile := options.setupFile.value;
      if !IsFile(env, setupFile) {
        return Err(RuntimeError(SetupFileMissing(setupFile)));
      }
      if Basename(setupFile) != "setup.py" {
        return Err(RuntimeError(SetupFileMisnamed(setupFile)));
      }
      ghost var b := StagingSpec.BuildSetupPackage(env, setupFile, tempDir);
      var tarballFile := BuildSetupPackage(env, setupFile, tempDir);
      if tarballFile.Err? {
        return Err(tarballFile.error);
      }
      StageArtifact(tarballFile.value, Join(stagingLocation, WorkflowTarballFile));
      AppendAssoc(old(log), b.effects, [Stage(tarballFile.value, Join(stagingLocation, WorkflowTarballFile))]);
      return Ok([WorkflowTarballFile]);
    }

    /** The `sdk_location` part of `stage_job_resources`. */
    method StageSdk(env: Env, options: Options, stagingLocation: string, tempDir: string) returns (r: Result<seq<string>>)
      modifies this
      ensures r == StagingSpec.SdkGroup(env, options, stagingLocation, tempDir).result
      ensures log == old(log) + StagingSpec.SdkGroup(env, options, stagingLocation, tempDir).effects
    {
      if options.sdkLocation.None? {
        return Ok([]);
      }
      var sdkLocation := options.sdkLocation.value;
      if sdkLocation == "default" || IsRemotePath(sdkLocation) {
        var sdkRemoteLocation := if sdkLocation == "default" then "pypi" else sdkLocation;
        r := StageBeamSdk(env, sdkRemoteLocation, stagingLocation, tempDir);
      } else if sdkLocation == "container" {
        r := Ok([]);
      } else {
        var sdkPath := if IsDir(env, sdkLocation) then Join(sdkLocation, DataflowSdkTarballFile) else sdkLocation;
        if IsFile(env, sdkPath) {
          var name := DesiredSdkFilename(sdkLocation);
          if name.Err? {
            return Err(name.error);
          }
          var stagedPath := Join(stagingLocation, name.value);
          StageArtifact(sdkPath, stagedPath);
          var (_, sdkStagedFilename) := Split(stagedPath);
          r := Ok([sdkStagedFilename]);
        } else if sdkLocation == "default" {
          r := Err(RuntimeError(DefaultSdkTarballMissing(sdkPath)));
        } else if sdkLocation == "" {
          r := Ok([]);
        } else {
          r := Err(RuntimeError(SdkFileMissing(sdkPath)));
        }
      }
    }

    /** `stage_job_resources`, with `temp_dir` already chosen; returns the
        names of the staged resources (the retrieval token is left out). */
    method StageJobResources(env: Env, options: Options, stagingLocation: Option<string>, tempDir: string)
      returns (r: Result<seq<string>>)
      modifies this
      ensures r == StagingSpec.JobResources(env, options, stagingLocation, tempDir).result
      ensures log == old(log) + StagingSpec.JobResources(env, options, stagingLocation, tempDir).effects
    {
      if stagingLocation.None? {
        return Err(RuntimeError(StagingLocationUnset));
      }
      var location := stagingLocation.value;
      // `done` is what the groups staged so far amount to.
      ghost var done := StagingSpec.RequirementsGroup(env, options, location);
      var resources := StageRequirements(env, options, location);
      if resources.Err? {
        return resources;
      }

      ghost var group := StagingSpec.SetupGroup(env, options, location, tempDir);
      var names := StageSetupFile(env, options, location, tempDir);
      AppendAssoc(old(log), done.effects, group.effects);
      done := StagingSpec.Then(done, group);
      if names.Err? {
        return names;
      }
      resources := Ok(resources.value + names.value);

      group := StagingSpec.ExtraGroup(env, options, location, tempDir);
      if options.extraPackages.Some? {
        names := StageExtraPackages(env, options.extraPackages.value, location, tempDir);
        AppendAssoc(old(log), done.effects, group.effects);
      } else {
        names := Ok([]);
        AppendEmpty(done.effects);
      }
      done := StagingSpec.Then(done, group);
      if names.Err? {
        return names;
      }
      resources := Ok(resources.value + names.value);

      group := StagingSpec.JarGroup(env, options, location);
      if options.jarPackages.Some? {
        names := StageJarPackages(env, SplitOn(options.jarPackages.value, ','), location);
        AppendAssoc(old(log), done.effects, group.effects);
      } else {
        names := Ok([]);
        AppendEmpty(done.effects);
      }
      done := StagingSpec.Then(done, group);
      if names.Err? {
        return names;
      }
      resources := Ok(resources.value + names.value);

      group := StagingSpec.SessionGroup(options, location, tempDir);
      if options.saveMainSession {
        var pickledSessionFile := Join(tempDir, PickledMainSessionFile);
        DumpSession(pickledSessionFile);
        StageArtifact(pickledSessionFile, Join(location, PickledMainSessionFile));
        AppendAssoc(old(log), done.effects, [Effect.DumpSession(pickledSessionFile)]);
        AppendAssoc(old(log), done.effects + [Effect.DumpSession(pickledSessionFile)],
                    [Stage(pickledSessionFile, Join(location, PickledMainSessionFile))]);
        assert [Effect.DumpSession(pickledSessionFile)] + [Stage(pickledSessionFile, Join(location, PickledMainSessionFile))]
            == group.effects;
        AppendAssoc(done.effects, [Effect.DumpSession(pickledSessionFile)],
                    [Stage(pickledSessionFile, Join(location, PickledMainSessionFile))]);
        names := Ok([PickledMainSessionFile]);
      } else {
        names := Ok([]);
        AppendEmpty(done.effects);
      }
      done := StagingSpec.Then(done, group);
      resources := Ok(resources.value + names.value);

      group := StagingSpec.SdkGroup(env, options, location, tempDir);
      names := StageSdk(env, options, location, tempDir);
      AppendAssoc(old(log), done.effects, group.effects);
      done := StagingSpec.Then(done, group);
      if names.Err? {
        return names;
      }
      resources := Ok(resources.value + names.value);

      group := StagingSpec.WorkerJarGroup(options, location);
      if options.dataflowWorkerJar.Some? {
        StageArtifact(options.dataflowWorkerJar.value, Join(location, DataflowWorkerJarFile));
        AppendAssoc(old(log), done.effects, group.effects);
        names := Ok([DataflowWorkerJarFile]);
      } else {
        names := Ok([]);
        AppendEmpty(done.effects);
      }
      done := StagingSpec.Then(done, group);
      resources := Ok(resources.value + names.value);

      CleanUpAndCommit(tempDir);
      AppendAssoc(old(log), done.effects, [RemoveTree(tempDir), CommitManifest]);
      return resources;
    }
  }
}
