/** The stager's fixed names and its small naming and classification rules:
    which paths are remote, which name the SDK gets once staged, which
    subprocess failures are retried, and which files a PyPI download of the
    SDK is expected to produce. */
module Naming {
  import opened Paths
  import opened StagingTypes

  const WorkflowTarballFile := "workflow.tar.gz"
  const RequirementsFile := "requirements.txt"
  const ExtraPackagesFile := "extra_packages.txt"
  const DataflowWorkerJarFile := "dataflow-worker.jar"
  /** `DATAFLOW_SDK_TARBALL_FILE` */
  const DataflowSdkTarballFile := "dataflow_python_sdk.tar"
  /** `names.PICKLED_MAIN_SESSION_FILE` */
  const PickledMainSessionFile := "pickled_main_session"
  /** `names.BEAM_PACKAGE_NAME`, what `get_sdk_package_name` returns */
  const BeamPackageName := "apache-beam"
  /** the name a remote SDK is downloaded to inside the temp directory */
  const DownloadedSdkFile := "beam-sdk.tar.gz"
  /** retries granted to `_populate_requirements_cache` after its first attempt */
  const NumRetries: nat := 4

  /** `_is_remote_path`: a path is remote when it names a scheme. */
  function IsRemotePath(path: string): (r: bool)
    ensures r <==> exists i :: OccursAt(path, "://", i)
  {
    Find(path, "://") != -1
  }

  /** `retry_on_non_zero_exit`: only a subprocess that exited with a
      non-zero status is worth another attempt. */
  function RetryOnNonZeroExit(e: Error): (r: bool)
    ensures r <==> e.CalledProcessError? && e.returncode != 0
  {
    match e
    case CalledProcessError(code) => code != 0
    case _ => false
  }

  /** The retry decorator around `_populate_requirements_cache`, without
      its sleeps: `outcomes[i]` is what attempt `i` would raise (None when
      it succeeds). The result is the index of the last attempt made: the
      first that succeeds or raises something the filter does not retry,
      or attempt `retries` when every earlier one was retried. */
  function FinalAttempt(outcomes: seq<Option<Error>>, retries: nat): (k: nat)
    requires retries < |outcomes|
    ensures k <= retries
    ensures forall j :: 0 <= j < k ==> outcomes[j].Some? && RetryOnNonZeroExit(outcomes[j].value)
    ensures k < retries ==> outcomes[k].None? || !RetryOnNonZeroExit(outcomes[k].value)
  {
    FinalAttemptFrom(outcomes, retries, 0)
  }

  /** The retry loop from attempt `i` on, all earlier attempts having been
      retried. */
  function FinalAttemptFrom(outcomes: seq<Option<Error>>, retries: nat, i: nat): (k: nat)
    requires i <= retries < |outcomes|
    ensures i <= k <= retries
    ensures forall j :: i <= j < k ==> outcomes[j].Some? && RetryOnNonZeroExit(outcomes[j].value)
    ensures k < retries ==> outcomes[k].None? || !RetryOnNonZeroExit(outcomes[k].value)
    decreases retries - i
  {
    if i == retries || outcomes[i].None? || !RetryOnNonZeroExit(outcomes[i].value) then i
    else FinalAttemptFrom(outcomes, retries, i + 1)
  }

  /** The retry loop's last attempt is determined by its contract: any
      index meeting it is the one `FinalAttempt` picks. */
  lemma FinalAttemptIs(outcomes: seq<Option<Error>>, retries: nat, k: nat)
    requires retries < |outcomes| && k <= retries
    requires forall j :: 0 <= j < k ==> outcomes[j].Some? && RetryOnNonZeroExit(outcomes[j].value)
    requires k == retries || outcomes[k].None? || !RetryOnNonZeroExit(outcomes[k].value)
    ensures FinalAttempt(outcomes, retries) == k
  {
    FinalAttemptFromIs(outcomes, retries, 0, k);
  }

  lemma {:induction false} FinalAttemptFromIs(outcomes: seq<Option<Error>>, retries: nat, i: nat, k: nat)
    requires i <= k <= retries < |outcomes|
    requires forall j :: i <= j < k ==> outcomes[j].Some? && RetryOnNonZeroExit(outcomes[j].value)
    requires k == retries || outcomes[k].None? || !RetryOnNonZeroExit(outcomes[k].value)
    ensures FinalAttemptFrom(outcomes, retries, i) == k
    decreases k - i
  {
    if i < k {
      FinalAttemptFromIs(outcomes, retries, i + 1, k);
    }
  }

  /** `_desired_sdk_filename_in_staging_location`: a wheel keeps its own
      file name, which must start with `apache_beam`; anything else is
      staged under the fixed tarball name. */
  function DesiredSdkFilename(location: string): (r: Result<string>)
    ensures r.Ok? <==> !EndsWith(location, ".whl") || StartsWith(Split(location).1, "apache_beam")
    ensures r.Err? ==> r.error == RuntimeError(UnrecognizedSdkWheel(location))
    ensures r.Ok? ==> '/' !in r.value
    ensures !EndsWith(location, ".whl") ==> r == Ok(DataflowSdkTarballFile)
    ensures r.Ok? && EndsWith(location, ".whl") ==>
              r.value == Split(location).1 && EndsWith(r.value, ".whl") && EndsWith(location, r.value) &&
              ('/' in location ==> location == Split(location).0 + "/" + r.value)
  {
    if EndsWith(location, ".whl") then
      var wheelFilename := Split(location).1;
      SplitSuffix(location);
      SplitRejoins(location);
      if StartsWith(wheelFilename, "apache_beam") then Ok(wheelFilename)
      else Err(RuntimeError(UnrecognizedSdkWheel(location)))
    else
      Ok(DataflowSdkTarballFile)
  }

  /** `_get_python_executable` */
  function PythonExecutable(env: Env): (r: Result<string>)
    ensures r.Ok? <==> env.pythonExecutable != ""
    ensures r.Ok? ==> r.value == env.pythonExecutable
    ensures r.Err? ==> r.error == ValueError
  {
    if env.pythonExecutable == "" then Err(ValueError) else Ok(env.pythonExecutable)
  }

  /** `processes.check_output`: a non-zero exit raises CalledProcessError. */
  function CheckOutput(args: seq<string>, exit: int): (r: Run<()>)
    ensures r.effects == [Exec(args)]
    ensures r.result.Ok? <==> exit == 0
    ensures r.result.Err? ==> RetryOnNonZeroExit(r.result.error)
  {
    Run(if exit == 0 then Ok(()) else Err(CalledProcessError(exit)), [Exec(args)])
  }

  /** `_download_file`: an http(s) URL that cannot be fetched raises a
      RuntimeError; any other remote path that cannot be copied raises an
      I/O error. Either way the attempt is recorded. */
  function DownloadFile(env: Env, from: string, to: string): (r: Run<()>)
    ensures r.effects == [Download(from, to)]
    ensures r.result.Ok? <==> from in env.fetchable
    ensures r.result.Err? && (StartsWith(from, "http://") || StartsWith(from, "https://")) ==>
              r.result.error == RuntimeError(ArtifactNotFound(from))
  {
    var outcome :=
      if from in env.fetchable then Ok(())
      else if StartsWith(from, "http://") || StartsWith(from, "https://") then Err(RuntimeError(ArtifactNotFound(from)))
      else Err(IOError(from));
    Run(outcome, [Download(from, to)])
  }

  /** The tags `_download_pypi_sdk_package` is called with. */
  datatype SdkRequest = SdkRequest(
    fetchBinary: bool,
    languageVersionTag: string,
    languageImplementationTag: string,
    abiTag: string,
    platformTag: string)

  /** The source distribution request: the function's default arguments. */
  const SourceRequest := SdkRequest(false, "27", "cp", "cp27mu", "manylinux1_x86_64")

  /** The wheel request, tagged with the running interpreter's version. */
  function BinaryRequest(env: Env): SdkRequest {
    var version := Decimal(env.pythonMajor) + Decimal(env.pythonMinor);
    SdkRequest(true, version, "cp",
               "cp" + version + (if env.pythonMajor < 3 then "mu" else "m"),
               "manylinux1_x86_64")
  }

  /** The file name of the SDK wheel pip is expected to download. */
  function WheelFilename(version: string, req: SdkRequest): string {
    ReplaceChar(BeamPackageName, '-', '_') + "-" + version + "-" +
    req.languageImplementationTag + req.languageVersionTag + "-" +
    req.abiTag + "-" + req.platformTag + ".whl"
  }

  /** The files a PyPI download of the SDK is expected to leave in the
      temp directory, in the order they are looked for. */
  function ExpectedSdkFiles(tempDir: string, version: string, req: SdkRequest): (r: seq<string>)
    ensures req.fetchBinary ==> |r| == 1 && EndsWith(r[0], ".whl")
    ensures !req.fetchBinary ==> |r| == 2 && EndsWith(r[0], ".zip") && EndsWith(r[1], ".tar.gz")
  {
    if req.fetchBinary then
      [Join(tempDir, WheelFilename(version, req))]
    else
      [Join(tempDir, BeamPackageName + "-" + version + ".zip"),
       Join(tempDir, BeamPackageName + "-" + version + ".tar.gz")]
  }

  /** The `pip download` command line for the SDK. */
  function SdkDownloadCommand(exe: string, tempDir: string, version: string, req: SdkRequest): seq<string> {
    var base := [exe, "-m", "pip", "download", "--dest", tempDir,
                 BeamPackageName + "==" + version, "--no-deps"];
    if req.fetchBinary then
      base + ["--only-binary", ":all:", "--python-version", req.languageVersionTag,
              "--implementation", req.languageImplementationTag, "--abi", req.abiTag,
              "--platform", req.platformTag]
    else
      base + ["--no-binary", ":all:"]
  }

  /** The `pip download` command line that populates the requirements cache. */
  function CacheDownloadCommand(exe: string, requirementsFile: string, cacheDir: string): seq<string> {
    [exe, "-m", "pip", "download", "--dest", cacheDir, "-r", requirementsFile,
     "--exists-action", "i", "--no-binary", ":all:"]
  }
}
