/** The values the stager works on: the options it reads, the environment
    it observes (files on disk, outcomes of downloads and subprocesses),
    the exceptions it raises and the side effects it performs. */
module StagingTypes {

  datatype Option<+T> = None | Some(value: T)

  /** A staging step either returns a value or raises an exception. */
  datatype Result<+T> = Ok(value: T) | Err(error: Error)

  /** The two kinds of package lists staged by the same procedure:
      `--extra_package(s)` and the `jar_packages` experiment. */
  datatype PackageKind = ExtraPackage | JarPackage

  /** What a `RuntimeError` raised by the stager is about. */
  datatype Cause =
    | StagingLocationUnset
    | RequirementsFileMissing(path: string)
    | SetupFileMissing(path: string)
    | SetupFileMisnamed(path: string)
    | SetupTarballMissing(pattern: string)
    | BadPackageName(kind: PackageKind, package: string)
    | PackageMissing(kind: PackageKind, package: string)
    | ArtifactNotFound(url: string)
    | UnrecognizedSdkWheel(location: string)
    | SdkFileMissing(path: string)
    | DefaultSdkTarballMissing(path: string)
    | UnsupportedSdkLocation(location: string)
    | SdkDistributionNotInstalled
    | SdkDownloadFailed(returncode: int)
    | SdkDistributionNotDownloaded(expected: seq<string>)

  /** The Python exceptions that can leave the stager. */
  datatype Error =
    | RuntimeError(cause: Cause)
      /** `processes.CalledProcessError` from a failed subprocess */
    | CalledProcessError(returncode: int)
      /** `ValueError` when no Python executable can be found */
    | ValueError
      /** an `OSError` about `path`: copying a remote path that is not
          http(s) failed, or the working directory could not be changed */
    | IOError(path: string)

  /** The observable side effects, in the order they happen. */
  datatype Effect =
      /** `stage_artifact(source, destination)` */
    | Stage(source: string, destination: string)
      /** `_download_file(from, to)` */
    | Download(from: string, to: string)
      /** `processes.check_output(args)` */
    | Exec(args: seq<string>)
      /** writing a local text file, one line per entry */
    | WriteLines(path: string, lines: seq<string>)
      /** `pickler.dump_session(path)` */
    | DumpSession(path: string)
      /** `shutil.rmtree(path)` */
    | RemoveTree(path: string)
      /** `commit_manifest()` */
    | CommitManifest

  /** The world the stager observes, fixed for one call. Subprocesses and
      downloads are not run: their outcomes are given here. */
  datatype Env = Env(
    files: set<string>,              // paths for which os.path.isfile holds
    dirs: set<string>,               // paths for which os.path.isdir holds
    fetchable: set<string>,          // remote locations _download_file can fetch
    pythonExecutable: string,        // $BEAM_PYTHON or sys.executable; "" when neither is set
    installedVersion: Option<string>, // version of the installed apache-beam distribution
    pythonMajor: nat,                // sys.version_info[0]
    pythonMinor: nat,                // sys.version_info[1]
    systemTempDir: string,           // tempfile.gettempdir()
    cacheAttemptExits: seq<int>,     // exit status of successive `pip download` runs into the cache;
                                     // attempts past the end of the list succeed
    cacheListing: seq<string>,       // glob of the requirements cache once populated
    sdistExit: int,                  // exit status of `setup.py sdist`
    sdistOutputs: seq<string>,       // glob of temp_dir/*.tar.gz after the sdist
    sdkSourceExit: int,              // exit status of the SDK source `pip download`
    sdkBinaryExit: int,              // exit status of the SDK wheel `pip download`
    extraStagingTempDir: string,     // what mkdtemp returns in _stage_extra_packages
    jarStagingTempDir: string        // what mkdtemp returns in _stage_jar_packages
  )

  predicate IsFile(env: Env, path: string) {
    path in env.files
  }

  predicate IsDir(env: Env, path: string) {
    path in env.dirs
  }

  /** `os.path.exists` */
  predicate Exists(env: Env, path: string) {
    IsFile(env, path) || IsDir(env, path)
  }

  /** The options `stage_job_resources` reads. `sdkLocation == None` stands
      for options without an `sdk_location` attribute. */
  datatype Options = Options(
    requirementsFile: Option<string>,
    requirementsCache: Option<string>,
    setupFile: Option<string>,
    extraPackages: Option<seq<string>>,
    jarPackages: Option<string>,     // value of the jar_packages experiment, comma-separated
    saveMainSession: bool,
    sdkLocation: Option<string>,
    dataflowWorkerJar: Option<string>
  )

  /** What one step does: its outcome and the effects it had, including
      those that happened before an exception was raised. */
  datatype Run<+T> = Run(result: Result<T>, effects: seq<Effect>)

  /** Appending to a log in two steps or in one gives the same log. */
  lemma AppendAssoc<T>(a: seq<T>, b: seq<T>, c: seq<T>)
    ensures (a + b) + c == a + (b + c)
  {
  }

  /** Appending nothing leaves a log as it was. */
  lemma AppendEmpty<T>(a: seq<T>)
    ensures a + [] == a
  {
  }
}
