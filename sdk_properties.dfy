/** What the SDK staging and the requirements cache promise: which files a
    PyPI download expects and which it yields, what `_stage_beam_sdk`
    stages and when it fails, what each `sdk_location` mode stages, how many
    `pip download` attempts populating the cache makes, and what the
    requirements group stages. */
module SdkProperties {
  import opened Paths
  import opened StagingTypes
  import opened Naming
  import opened StagingSpec

  /** The candidate found is the first that exists: every one before it is
      missing. */
  lemma {:induction false} FirstExistingIsFirst(env: Env, candidates: seq<string>)
    ensures var r := FirstExisting(env, candidates);
            r.Some? ==> exists k :: 0 <= k < |candidates| && r.value == candidates[k] &&
                                   forall j :: 0 <= j < k ==> !Exists(env, candidates[j])
  {
    if candidates != [] && !Exists(env, candidates[0]) {
      var rest := candidates[1..];
      FirstExistingIsFirst(env, rest);
      if FirstExisting(env, rest).Some? {
        var k :| 0 <= k < |rest| && FirstExisting(env, rest).value == rest[k] &&
                 forall j :: 0 <= j < k ==> !Exists(env, rest[j]);
        assert forall j :: 1 <= j < k + 1 ==> candidates[j] == rest[j - 1];
        assert FirstExisting(env, candidates).value == candidates[k + 1];
      }
    }
  }

  /** A path ending in `.zip` or `.tar.gz` does not end in `.whl`. */
  lemma NotWheel(path: string)
    requires EndsWith(path, ".zip") || EndsWith(path, ".tar.gz")
    ensures !EndsWith(path, ".whl")
  {
  }

  /** The wheel expected from PyPI is named after the `apache_beam`
      package and is a `.whl` file. */
  lemma WheelFilenameShape(version: string, req: SdkRequest)
    ensures StartsWith(WheelFilename(version, req), "apache_beam")
    ensures EndsWith(WheelFilename(version, req), ".whl")
  {
    var name := ReplaceChar(BeamPackageName, '-', '_');
    assert name == "apache_beam";
    var w := WheelFilename(version, req);
    assert w[..11] == name;
    var rest := "-" + version + "-" + req.languageImplementationTag + req.languageVersionTag + "-" +
                req.abiTag + "-" + req.platformTag;
    assert w == name + rest + ".whl";
    assert w[|w| - 4..] == ".whl";
  }

  /** The expected source archives sit in the temp directory, under the
      versioned names of the `apache-beam` package. */
  lemma SourceSdkFileNames(tempDir: string, version: string, req: SdkRequest)
    requires !req.fetchBinary && '/' !in version
    ensures var r := ExpectedSdkFiles(tempDir, version, req);
            Split(r[0]).1 == "apache-beam-" + version + ".zip" && Split(r[1]).1 == "apache-beam-" + version + ".tar.gz"
    ensures var r := ExpectedSdkFiles(tempDir, version, req);
            tempDir != [] && tempDir[|tempDir| - 1] != '/' ==> Split(r[0]).0 == tempDir && Split(r[1]).0 == tempDir
  {
    var prefix := "apache-beam-";
    assert BeamPackageName + "-" == prefix;
    var zip, tgz := prefix + version + ".zip", prefix + version + ".tar.gz";
    assert BeamPackageName + "-" + version + ".zip" == zip;
    assert BeamPackageName + "-" + version + ".tar.gz" == tgz;
    NoSlashAround(prefix, version, ".zip");
    NoSlashAround(prefix, version, ".tar.gz");
    SplitOfJoin(tempDir, zip);
    SplitOfJoin(tempDir, tgz);
  }

  /** The expected wheel sits in the temp directory, under the name tagged
      with the requested interpreter, ABI and platform. */
  lemma WheelSdkFileName(tempDir: string, version: string, req: SdkRequest)
    requires req.fetchBinary
    requires '/' !in version && '/' !in req.languageImplementationTag && '/' !in req.languageVersionTag &&
             '/' !in req.abiTag && '/' !in req.platformTag
    ensures var r := ExpectedSdkFiles(tempDir, version, req);
            Split(r[0]).1 == "apache_beam-" + version + "-" + req.languageImplementationTag + req.languageVersionTag +
                             "-" + req.abiTag + "-" + req.platformTag + ".whl"
    ensures var r := ExpectedSdkFiles(tempDir, version, req);
            tempDir != [] && tempDir[|tempDir| - 1] != '/' ==> Split(r[0]).0 == tempDir
  {
    var impl, lang, abi, platform := req.languageImplementationTag, req.languageVersionTag, req.abiTag, req.platformTag;
    assert ReplaceChar(BeamPackageName, '-', '_') == "apache_beam";
    var head := "apache_beam-" + version + "-";
    assert ReplaceChar(BeamPackageName, '-', '_') + "-" + version + "-" == head;
    var tags := impl + lang + "-" + abi + "-" + platform;
    var name := head + tags + ".whl";
    assert WheelFilename(version, req) == name;
    assert "apache_beam-" + version + "-" + impl + lang + "-" + abi + "-" + platform + ".whl" == name;
    NoSlashAround("apache_beam-", version, "-");
    NoSlashAround(impl, lang, "-");
    NoSlashAround(impl + lang + "-", abi, "-");
    NoSlashAround(impl + lang + "-" + abi + "-", platform, "");
    assert impl + lang + "-" + abi + "-" + platform + "" == tags;
    NoSlashAround(head, tags, ".whl");
    SplitOfJoin(tempDir, name);
  }

  lemma NoSlashAround(a: string, b: string, c: string)
    requires '/' !in a && '/' !in b && '/' !in c
    ensures '/' !in a + b + c
  {
  }

  /** `_download_pypi_sdk_package`: without an installed distribution or a
      Python executable it raises before running anything; otherwise it
      runs `pip download` once. A failed `pip download` raises a
      RuntimeError with its exit status; after a successful one the
      download succeeds exactly when some expected file exists, and then
      returns the first that does (a wheel when a binary was requested and
      a source archive otherwise); when none exists it raises a
      RuntimeError listing them. Every exception but a missing executable
      is a RuntimeError. */
  lemma PypiSdkDownloadOutcome(env: Env, tempDir: string, req: SdkRequest)
    ensures var r := PypiSdkDownload(env, tempDir, req);
            (env.installedVersion.None? ==> r == Run(Err(RuntimeError(SdkDistributionNotInstalled)), [])) &&
            (env.installedVersion.Some? && env.pythonExecutable == "" ==> r == Run(Err(ValueError), [])) &&
            (env.installedVersion.Some? && env.pythonExecutable != "" ==>
               r.effects == [Exec(SdkDownloadCommand(env.pythonExecutable, tempDir, env.installedVersion.value, req))])
    ensures var r := PypiSdkDownload(env, tempDir, req);
            env.installedVersion.Some? && env.pythonExecutable != "" ==>
              var exit := if req.fetchBinary then env.sdkBinaryExit else env.sdkSourceExit;
              var expected := ExpectedSdkFiles(tempDir, env.installedVersion.value, req);
              (r.result.Ok? <==> exit == 0 && exists i :: 0 <= i < |expected| && Exists(env, expected[i])) &&
              (exit != 0 ==> r.result == Err(RuntimeError(SdkDownloadFailed(exit)))) &&
              (exit == 0 && (forall i :: 0 <= i < |expected| ==> !Exists(env, expected[i])) ==>
                 r.result == Err(RuntimeError(SdkDistributionNotDownloaded(expected))))
    ensures var r := PypiSdkDownload(env, tempDir, req);
            (r.result.Ok? ==>
               var expected := ExpectedSdkFiles(tempDir, env.installedVersion.value, req);
               exists k :: 0 <= k < |expected| && r.result.value == expected[k] && Exists(env, expected[k]) &&
                           forall j :: 0 <= j < k ==> !Exists(env, expected[j])) &&
            (r.result.Ok? && req.fetchBinary ==> EndsWith(r.result.value, ".whl")) &&
            (r.result.Ok? && !req.fetchBinary ==> EndsWith(r.result.value, ".zip") || EndsWith(r.result.value, ".tar.gz")) &&
            (r.result.Err? ==> r.result.error.RuntimeError? || r.result.error == ValueError)
  {
    var r := PypiSdkDownload(env, tempDir, req);
    if r.result.Ok? {
      var expected := ExpectedSdkFiles(tempDir, env.installedVersion.value, req);
      FirstExistingIsFirst(env, expected);
    }
  }

  /** `_stage_beam_sdk('pypi')` fails exactly when the source download
      fails: the wheel step cannot fail once the source step succeeded. It
      stages the sources as the SDK tarball and then, when a wheel named
      after `apache_beam` was downloaded, the wheel under its own name. */
  lemma PypiSdkOutcome(env: Env, stagingLocation: string, tempDir: string)
    ensures var r := BeamSdk(env, "pypi", stagingLocation, tempDir);
            var src := PypiSdkDownload(env, tempDir, SourceRequest);
            var bin := PypiSdkDownload(env, tempDir, BinaryRequest(env));
            (r.result.Err? <==> src.result.Err?) &&
            (r.result.Err? ==> r == Run(Err(src.result.error), src.effects)) &&
            (r.result.Ok? ==> 1 <= |r.result.value| <= 2 && r.result.value[0] == DataflowSdkTarballFile) &&
            (r.result.Ok? ==> (|r.result.value| == 2 <==>
                               bin.result.Ok? && DesiredSdkFilename(bin.result.value).Ok?)) &&
            (r.result.Ok? && |r.result.value| == 2 ==>
               StartsWith(r.result.value[1], "apache_beam") && EndsWith(r.result.value[1], ".whl"))
  {
    var src := PypiSdkDownload(env, tempDir, SourceRequest);
    var bin := PypiSdkDownload(env, tempDir, BinaryRequest(env));
    PypiSdkDownloadOutcome(env, tempDir, SourceRequest);
    PypiSdkDownloadOutcome(env, tempDir, BinaryRequest(env));
    if src.result.Ok? {
      NotWheel(src.result.value);
    }
  }

  /** A path without a ':' names no scheme. */
  lemma NotRemote(path: string)
    requires ':' !in path
    ensures !IsRemotePath(path)
  {
    forall i | 0 <= i && i + 3 <= |path| ensures !OccursAt(path, "://", i) {
      assert path[i..i + 3][0] == path[i];
    }
  }

  /** `_stage_beam_sdk` for a location other than `pypi`: a remote
      location is downloaded to `beam-sdk.tar.gz` in the temp directory and
      staged under the name the location asks for; a failed download or a
      badly named wheel raises, the latter after the download. Any other
      location is refused before anything is done. */
  lemma BeamSdkLocationOutcome(env: Env, location: string, stagingLocation: string, tempDir: string)
    requires location != "pypi"
    ensures var r := BeamSdk(env, location, stagingLocation, tempDir);
            var localFile := Join(tempDir, DownloadedSdkFile);
            var name := DesiredSdkFilename(location);
            (IsRemotePath(location) && location !in env.fetchable ==>
               r == Run(Err(DownloadFile(env, location, localFile).result.error), [Download(location, localFile)])) &&
            (IsRemotePath(location) && location in env.fetchable && name.Ok? ==>
               r == Run(Ok([name.value]), [Download(location, localFile), Stage(localFile, Join(stagingLocation, name.value))])) &&
            (IsRemotePath(location) && location in env.fetchable && name.Err? ==>
               r == Run(Err(RuntimeError(UnrecognizedSdkWheel(location))), [Download(location, localFile)])) &&
            (!IsRemotePath(location) ==> r == Run(Err(RuntimeError(UnsupportedSdkLocation(location))), []))
  {
  }

  /** `sdk_location=default` stages the SDK from PyPI: it fails exactly
      when the source download fails; otherwise the SDK tarball comes
      first, and the wheel second exactly when the best-effort wheel step
      found one named after `apache_beam`. */
  lemma SdkDefaultOutcome(env: Env, options: Options, stagingLocation: string, tempDir: string)
    requires options.sdkLocation == Some("default")
    ensures var r := SdkGroup(env, options, stagingLocation, tempDir);
            var src := PypiSdkDownload(env, tempDir, SourceRequest);
            var bin := PypiSdkDownload(env, tempDir, BinaryRequest(env));
            (r.result.Err? <==> src.result.Err?) &&
            (r.result.Err? ==> r == Run(Err(src.result.error), src.effects)) &&
            (r.result.Ok? ==> 1 <= |r.result.value| <= 2 && r.result.value[0] == DataflowSdkTarballFile) &&
            (r.result.Ok? ==> (|r.result.value| == 2 <==>
                               bin.result.Ok? && DesiredSdkFilename(bin.result.value).Ok?))
  {
    assert SdkGroup(env, options, stagingLocation, tempDir) == BeamSdk(env, "pypi", stagingLocation, tempDir);
    PypiSdkOutcome(env, stagingLocation, tempDir);
  }

  /** A remote `sdk_location` is downloaded and staged under the name it
      asks for, or raises the download's or the wheel name's error. */
  lemma SdkRemoteOutcome(env: Env, options: Options, stagingLocation: string, tempDir: string)
    requires options.sdkLocation.Some? && IsRemotePath(options.sdkLocation.value)
    ensures var r := SdkGroup(env, options, stagingLocation, tempDir);
            var location := options.sdkLocation.value;
            var localFile := Join(tempDir, DownloadedSdkFile);
            var name := DesiredSdkFilename(location);
            (location !in env.fetchable ==>
               r == Run(Err(DownloadFile(env, location, localFile).result.error), [Download(location, localFile)])) &&
            (location in env.fetchable && name.Ok? ==>
               r == Run(Ok([name.value]), [Download(location, localFile), Stage(localFile, Join(stagingLocation, name.value))])) &&
            (location in env.fetchable && name.Err? ==>
               r == Run(Err(RuntimeError(UnrecognizedSdkWheel(location))), [Download(location, localFile)]))
  {
    var location := options.sdkLocation.value;
    NotRemote("default");
    NotRemote("pypi");
    assert SdkGroup(env, options, stagingLocation, tempDir) == BeamSdk(env, location, stagingLocation, tempDir);
    BeamSdkLocationOutcome(env, location, stagingLocation, tempDir);
  }

  /** Without `sdk_location`, or with `sdk_location=container` (the SDK
      built into the container is used as it is), nothing is staged and
      nothing is raised. */
  lemma SdkUnsetOrContainer(env: Env, options: Options, stagingLocation: string, tempDir: string)
    requires options.sdkLocation.None? || options.sdkLocation == Some("container")
    ensures SdkGroup(env, options, stagingLocation, tempDir) == Run(Ok([]), [])
  {
    NotRemote("container");
  }

  /** A PyPI download never raises the missing-default-tarball error. */
  lemma PypiSdkNeverDefaultMissing(env: Env, tempDir: string, req: SdkRequest)
    ensures var r := PypiSdkDownload(env, tempDir, req);
            r.result.Err? ==> !(r.result.error.RuntimeError? && r.result.error.cause.DefaultSdkTarballMissing?)
  {
  }

  /** The missing-default-tarball error is never raised: `default` never
      reaches the local-file check that raises it, and `_stage_beam_sdk`
      raises no such error either. */
  lemma SdkNeverDefaultMissing(env: Env, options: Options, stagingLocation: string, tempDir: string)
    ensures var r := SdkGroup(env, options, stagingLocation, tempDir);
            r.result.Err? ==> !(r.result.error.RuntimeError? && r.result.error.cause.DefaultSdkTarballMissing?)
  {
    if options.sdkLocation.Some? {
      var sdk := options.sdkLocation.value;
      if sdk == "default" || IsRemotePath(sdk) {
        if sdk == "default" {
          SdkDefaultOutcome(env, options, stagingLocation, tempDir);
          PypiSdkNeverDefaultMissing(env, tempDir, SourceRequest);
        } else {
          SdkRemoteOutcome(env, options, stagingLocation, tempDir);
        }
      }
    }
  }

  /** A local `sdk_location` is staged when the file it designates (the
      tarball inside it, for a directory) exists, under the name the
      location asks for; a missing file is skipped for an empty location
      and raises otherwise. */
  lemma SdkLocalPath(env: Env, options: Options, stagingLocation: string, tempDir: string)
    requires options.sdkLocation.Some?
    requires options.sdkLocation.value != "default" && options.sdkLocation.value != "container"
    requires !IsRemotePath(options.sdkLocation.value)
    ensures var r := SdkGroup(env, options, stagingLocation, tempDir);
            var sdk := options.sdkLocation.value;
            var sdkPath := LocalSdkPath(env, sdk);
            (IsFile(env, sdkPath) && DesiredSdkFilename(sdk).Ok? ==>
               r == Run(Ok([DesiredSdkFilename(sdk).value]),
                        [Stage(sdkPath, Join(stagingLocation, DesiredSdkFilename(sdk).value))])) &&
            (IsFile(env, sdkPath) && DesiredSdkFilename(sdk).Err? ==>
               r == Run(Err(RuntimeError(UnrecognizedSdkWheel(sdk))), [])) &&
            (!IsFile(env, sdkPath) && sdk == "" ==> r == Nothing) &&
            (!IsFile(env, sdkPath) && sdk != "" ==> r == Run(Err(RuntimeError(SdkFileMissing(sdkPath))), [])) &&
            (IsDir(env, sdk) && IsFile(env, Join(sdk, DataflowSdkTarballFile)) && !EndsWith(sdk, ".whl") ==>
               r == Run(Ok([DataflowSdkTarballFile]),
                        [Stage(Join(sdk, DataflowSdkTarballFile), Join(stagingLocation, DataflowSdkTarballFile))]))
  {
    var sdk := options.sdkLocation.value;
    if IsFile(env, LocalSdkPath(env, sdk)) && DesiredSdkFilename(sdk).Ok? {
      SplitOfJoin(stagingLocation, DesiredSdkFilename(sdk).value);
    }
  }

  /** `_populate_requirements_cache` under its retry decorator. Without a
      Python executable the first attempt raises a ValueError, which is not
      retried, before anything runs. Otherwise each attempt runs the same
      `pip download`; the decorator stops at the first that exits 0 and
      gives up after the fourth retry, raising that attempt's error. */
  lemma PopulateRequirementsCacheOutcome(env: Env, requirementsFile: string, cacheDir: string)
    ensures var r := PopulateRequirementsCache(env, requirementsFile, cacheDir);
            var exe := env.pythonExecutable;
            (exe == "" ==> r == Run(Err(ValueError), [])) &&
            (exe != "" ==>
               (r.result.Ok? <==> exists k :: 0 <= k <= NumRetries && CacheAttemptExit(env, k) == 0) &&
               1 <= |r.effects| <= NumRetries + 1 &&
               (forall i :: 0 <= i < |r.effects| ==> r.effects[i] == Exec(CacheDownloadCommand(exe, requirementsFile, cacheDir))) &&
               (forall j :: 0 <= j < |r.effects| - 1 ==> CacheAttemptExit(env, j) != 0) &&
               (r.result.Ok? ==> CacheAttemptExit(env, |r.effects| - 1) == 0) &&
               (r.result.Err? ==> |r.effects| == NumRetries + 1 &&
                                  r.result.error == CalledProcessError(CacheAttemptExit(env, NumRetries))))
  {
    var outcomes := CacheAttemptOutcomes(env);
    var k := FinalAttempt(outcomes, NumRetries);
    if env.pythonExecutable == "" {
      FinalAttemptIs(outcomes, NumRetries, 0);
    } else {
      assert forall j :: 0 <= j < k ==> CacheAttemptExit(env, j) != 0 by {
        forall j | 0 <= j < k ensures CacheAttemptExit(env, j) != 0 {
          assert outcomes[j] == CacheAttemptOutcome(env, j);
        }
      }
      assert outcomes[k] == CacheAttemptOutcome(env, k);
      if outcomes[k].Some? {
        forall j | 0 <= j <= NumRetries ensures CacheAttemptExit(env, j) != 0 {
          assert outcomes[j] == CacheAttemptOutcome(env, j);
        }
      }
    }
  }

  /** The requirements group of `stage_job_resources`, for an existing
      requirements file: the file is staged first as `requirements.txt`;
      the group then succeeds exactly when populating the cache does, and
      returns `requirements.txt` followed by the base name of every file
      in the cache. When populating the cache fails, no cache file is
      staged. */
  lemma RequirementsGroupOutcome(env: Env, options: Options, stagingLocation: string)
    requires options.requirementsFile.Some? && IsFile(env, options.requirementsFile.value)
    ensures var r := RequirementsGroup(env, options, stagingLocation);
            var file := options.requirementsFile.value;
            var p := PopulateRequirementsCache(env, file, RequirementsCachePath(env, options));
            |r.effects| >= 1 && r.effects[0] == Stage(file, Join(stagingLocation, RequirementsFile)) &&
            (r.result.Ok? <==>
               env.pythonExecutable != "" && exists k :: 0 <= k <= NumRetries && CacheAttemptExit(env, k) == 0) &&
            (r.result.Ok? ==> r.result.value == [RequirementsFile] + Basenames(env.cacheListing)) &&
            (r.result.Err? ==> r == Run(Err(p.result.error), [r.effects[0]] + p.effects))
  {
    var file := options.requirementsFile.value;
    PopulateRequirementsCacheOutcome(env, file, RequirementsCachePath(env, options));
  }
}
