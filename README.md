# Apache Beam Python stager, modelled in Dafny

This project models the staging logic of the Apache Beam Python SDK's
portability stager (`apache_beam/runners/portability/stager.py`). Before a
job is submitted, `Stager.stage_job_resources` collects the resources a
worker needs and copies each one to the staging location with
`stage_artifact`. The resources are:

- the requirements file and the requirements cache;
- the workflow tarball built from `setup.py`;
- the extra packages and the `extra_packages.txt` listing;
- the jar packages;
- the pickled main session;
- the Beam SDK (from PyPI, a remote URL, a local file or directory, or
  nothing for `container`);
- the Dataflow worker jar.

It returns the staged file names, or raises on the first problem.

The world the stager observes is a value, `StagingTypes.Env`. It holds:

- the files and directories that exist;
- the remote locations that can be fetched;
- the Python executable and interpreter version;
- the installed `apache-beam` version;
- the exit status of each subprocess (`pip download`, `setup.py sdist`);
- the listings `glob` and `mkdtemp` would produce.

Each side effect the stager performs is recorded as a `StagingTypes.Effect`:

- a stage call;
- a download;
- a subprocess run;
- a local file write;
- a session dump;
- the removal of the temp directory;
- the manifest commit.

The model has three layers:

- `StagingSpec` gives each staging routine as a function of its inputs. The
  function returns a `Run`: the value returned or the exception raised,
  together with the effects performed by then, in order.
- `StagerModel.Stager` is a class whose `log` field grows as its methods
  run. Each method follows the control flow of the Python routine, with its
  loops and the `resources`/`local_packages` lists it builds. Each is proved
  to return what its `StagingSpec` function says and to append exactly that
  function's effects to `log`.
- `PackageProperties`, `SdkProperties` and `JobProperties` prove what the
  routines promise against independent reference definitions. These cover
  which lists are accepted, which names are staged in which order, that
  names and stage destinations agree, and where each exception is raised.

`Paths` holds the string helpers the stager relies on: `str.find`,
`startswith`/`endswith`, `FileSystems.split`/`os.path.basename`,
`os.path.join`, `str.split(',')` and `'%d'` formatting. `Naming` holds the
fixed names and the small naming rules.

## Model

| member | source | states |
|---|---|---|
| Naming.IsRemotePath | sdks/python/apache_beam/runners/portability/stager.py:330-332 | a path is remote exactly when `://` occurs in it at some index |
| Paths.Find | sdks/python/apache_beam/runners/portability/stager.py:332 | `str.find`: -1 exactly when the substring occurs nowhere, otherwise an index where it occurs with no earlier occurrence |
| SdkProperties.NotRemote | sdks/python/apache_beam/runners/portability/stager.py:330-332 | a path without ':' (such as `container` or `default`) is never remote |
| Naming.RetryOnNonZeroExit | sdks/python/apache_beam/runners/portability/stager.py:87-91 | the retry filter accepts exactly a CalledProcessError with a non-zero return code |
| Naming.FinalAttempt | sdks/python/apache_beam/runners/portability/stager.py:481-482 | the retry decorator makes attempts until one succeeds or raises something the filter refuses, at most `num_retries` retries after the first; every earlier attempt raised a retried error |
| Naming.FinalAttemptIs | sdks/python/apache_beam/runners/portability/stager.py:481-482 | the last attempt is uniquely determined: any index meeting that description is the one chosen |
| Naming.DesiredSdkFilename | sdks/python/apache_beam/runners/portability/stager.py:533-548 | a `.whl` location succeeds exactly when its last component starts with `apache_beam` and then maps to that component, which rejoins the location's head to give the location back; any other `.whl` raises RuntimeError naming the location; every other location maps to `dataflow_python_sdk.tar` |
| Naming.PythonExecutable | sdks/python/apache_beam/runners/portability/stager.py:470-478 | returns the configured executable, or raises ValueError when there is none |
| Naming.CheckOutput | sdks/python/apache_beam/runners/portability/stager.py:504 | runs the command once; succeeds exactly on exit 0, and otherwise raises an error the retry filter accepts |
| Naming.DownloadFile | sdks/python/apache_beam/runners/portability/stager.py:300-328 | records one download; succeeds exactly when the location can be fetched; an http(s) URL that cannot be fetched raises RuntimeError |
| Naming.ExpectedSdkFiles | sdks/python/apache_beam/runners/portability/stager.py:645-680 | a binary request expects one `.whl` file; a source request expects a `.zip` and then a `.tar.gz` file |
| SdkProperties.WheelFilenameShape | sdks/python/apache_beam/runners/portability/stager.py:659-670 | the expected wheel is named after the `apache_beam` package and ends in `.whl` |
| SdkProperties.SourceSdkFileNames | sdks/python/apache_beam/runners/portability/stager.py:675-679 | the expected source archives are `apache-beam-<version>.zip` and `apache-beam-<version>.tar.gz`, each inside the temp directory |
| SdkProperties.WheelSdkFileName | sdks/python/apache_beam/runners/portability/stager.py:661-671 | the expected wheel is `apache_beam-<version>-<implementation><python version>-<abi>-<platform>.whl`, inside the temp directory |
| StagingSpec.FirstExisting | sdks/python/apache_beam/runners/portability/stager.py:686-688 | the scan of the expected files finds one that exists, or none exactly when none exists |
| SdkProperties.FirstExistingIsFirst | sdks/python/apache_beam/runners/portability/stager.py:686-688 | the file found is the first expected file that exists: every one before it is missing |
| StagingSpec.FirstExistingAt | sdks/python/apache_beam/runners/portability/stager.py:686-688 | conversely, when the k-th expected file is the first to exist, the scan returns it |
| SdkProperties.PypiSdkDownloadOutcome | sdks/python/apache_beam/runners/portability/stager.py:618-693 | no installed distribution or no executable raises before anything runs; otherwise `pip download` runs once; a non-zero exit raises RuntimeError with that status; after exit 0 the download succeeds exactly when some expected file exists, returning the first that does (a wheel for a binary request, a `.zip` or `.tar.gz` otherwise), and raises RuntimeError listing the expected files when none does; every exception but ValueError is a RuntimeError |
| SdkProperties.PypiSdkOutcome | sdks/python/apache_beam/runners/portability/stager.py:569-602 | `_stage_beam_sdk('pypi')` fails exactly when the source download fails, with that download's error and effects; on success it returns the SDK tarball name first, then a second name exactly when the best-effort wheel step found a wheel named after `apache_beam` |
| SdkProperties.BeamSdkLocationOutcome | sdks/python/apache_beam/runners/portability/stager.py:603-616 | `_stage_beam_sdk` for a remote location downloads it to `beam-sdk.tar.gz` in the temp directory, then stages that file under the location's desired name and returns that name; a failed download raises its error, and a badly named wheel raises after the download; a location that is neither `pypi` nor remote raises before doing anything |
| SdkProperties.SdkDefaultOutcome | sdks/python/apache_beam/runners/portability/stager.py:232-250 | `sdk_location=default` fails exactly when the PyPI source download fails, with its error and effects; on success the SDK tarball name comes first, and a second name exactly when the wheel step found a wheel named after `apache_beam` |
| SdkProperties.SdkRemoteOutcome | sdks/python/apache_beam/runners/portability/stager.py:232-250 | a remote `sdk_location` is downloaded and staged under its desired name, or raises the download's error or the wheel-name error after the download |
| SdkProperties.SdkUnsetOrContainer | sdks/python/apache_beam/runners/portability/stager.py:231-254 | without `sdk_location`, or with `container`, nothing is staged and nothing is raised |
| SdkProperties.SdkLocalPath | sdks/python/apache_beam/runners/portability/stager.py:255-285 | a local location (the tarball inside it, for a directory) is staged under its desired name when the file exists; a bad wheel name raises before staging; a missing file is skipped silently for an empty location and raises otherwise |
| SdkProperties.SdkNeverDefaultMissing | sdks/python/apache_beam/runners/portability/stager.py:232-285 | the `default` tarball-missing error is unreachable: `default` is dispatched to PyPI first, and neither `_stage_beam_sdk` nor a local location raises it |
| SdkProperties.PopulateRequirementsCacheOutcome | sdks/python/apache_beam/runners/portability/stager.py:481-504 | without an executable, ValueError with nothing run; otherwise 1 to 5 identical `pip download` runs, each earlier one failed; success exactly when one of the five attempts exits 0; on failure five runs and the fifth attempt's CalledProcessError |
| SdkProperties.RequirementsGroupOutcome | sdks/python/apache_beam/runners/portability/stager.py:159-183 | for an existing requirements file: it is staged first as `requirements.txt`; the group succeeds exactly when the executable is set and one of the five cache attempts exits 0, and then returns `requirements.txt` followed by the base name of each cache file; on failure no cache file is staged |
| StagingSpec.ScanStopsAtError | sdks/python/apache_beam/runners/portability/stager.py:352-369 | once an iteration has raised, the rest of the list changes nothing |
| PackageProperties.ScanPassesIff | sdks/python/apache_beam/runners/portability/stager.py:408-437 | the validation loop passes exactly when every package has an accepted name and is either a local file or a fetchable remote path |
| PackageProperties.ScanOnlyDownloads | sdks/python/apache_beam/runners/portability/stager.py:408-437 | the validation loop only downloads: nothing is staged before it finishes |
| PackageProperties.ScanStopsAtFirstRejected | sdks/python/apache_beam/runners/portability/stager.py:408-437 | the first rejected package decides the error: a bad extension raises before its existence is checked and before anything is downloaded for it; a missing non-remote path raises PackageMissing; a failed download raises its error; the effects are the earlier packages' downloads |
| PackageProperties.ScanContents | sdks/python/apache_beam/runners/portability/stager.py:408-444 | a validated list keeps its local files in input order and lists each downloaded name once; the listing order is the first-download order assumed for `os.listdir` (see Left out) |
| PackageProperties.DedupKeepsNames | sdks/python/apache_beam/runners/portability/stager.py:441-444 | the temp-directory listing holds every downloaded name and no name twice |
| PackageProperties.StagedNames | sdks/python/apache_beam/runners/portability/stager.py:441-451 | the names staged are the base names of the local files in input order, then each downloaded file once, in the assumed `os.listdir` order |
| PackageProperties.StagedNamesFromPackages | sdks/python/apache_beam/runners/portability/stager.py:441-451 | every staged name is the base name of one of the given packages |
| PackageProperties.ExtraPackagesOutcome | sdks/python/apache_beam/runners/portability/stager.py:386-468 | `_stage_extra_packages` succeeds exactly when every package is accepted; it returns the local base names in input order, then the downloaded names (in the assumed `os.listdir` order), then `extra_packages.txt`; the listing written just before the last stage holds exactly the earlier names in the same order as they were staged; on an error it has only downloaded |
| PackageProperties.JarPackagesOutcome | sdks/python/apache_beam/runners/portability/stager.py:334-384 | `_stage_jar_packages` succeeds exactly when every jar is accepted; it then returns the local base names in input order and the downloaded names (in the assumed `os.listdir` order), each ending in `.jar`, with no listing file; on an error it has only downloaded |
| Paths.Split | sdks/python/apache_beam/runners/portability/stager.py:363 | `FileSystems.split`: the last component holds no '/' |
| Paths.SplitSuffix | sdks/python/apache_beam/runners/portability/stager.py:363 | the last component is a suffix of the path |
| Paths.SplitRejoins | sdks/python/apache_beam/runners/portability/stager.py:363 | a path holding a '/' is its head, a '/' and its last component |
| Paths.Join | sdks/python/apache_beam/runners/portability/stager.py:364 | `FileSystems.join` of a directory and a relative name ends with that name |
| Paths.SplitOfJoin | sdks/python/apache_beam/runners/portability/stager.py:267-272 | splitting a joined path gives back the name, and the directory when it does not end in '/' |
| Paths.SplitOnRoundTrip | sdks/python/apache_beam/runners/portability/stager.py:217 | the comma-split jar list joined again with commas is the option's value |
| Paths.DecimalRoundTrip | sdks/python/apache_beam/runners/portability/stager.py:582-587 | the `'%d'` of a version number reads back as that number |
| JobProperties.RequirementsStagesItsNames | sdks/python/apache_beam/runners/portability/stager.py:158-183 | the requirements group stages its files under exactly the names it returns, in order |
| JobProperties.SetupStagesItsNames | sdks/python/apache_beam/runners/portability/stager.py:189-201 | the setup group stages its file under exactly the name it returns |
| JobProperties.SetupGroupOutcome | sdks/python/apache_beam/runners/portability/stager.py:189-201 | for an existing file named `setup.py`, the group succeeds exactly when the file names a directory, an executable is set, `setup.py sdist` exits 0 and a tarball is found; it then returns `workflow.tar.gz` and last stages the first tarball found under that name; otherwise it raises IOError from `os.chdir`, ValueError with no executable, CalledProcessError with the sdist's exit status, or RuntimeError naming the `*.tar.gz` pattern |
| JobProperties.ExtraStagesItsNames | sdks/python/apache_beam/runners/portability/stager.py:205-208 | the extra-packages group stages its files under exactly the names it returns |
| JobProperties.JarStagesItsNames | sdks/python/apache_beam/runners/portability/stager.py:213-216 | the jar group stages its files under exactly the names it returns |
| JobProperties.SessionStagesItsNames | sdks/python/apache_beam/runners/portability/stager.py:223-229 | the pickled session is staged under the name returned |
| JobProperties.BeamSdkStagesItsNames | sdks/python/apache_beam/runners/portability/stager.py:550-616 | `_stage_beam_sdk` stages its files under exactly the names it returns |
| JobProperties.SdkStagesItsNames | sdks/python/apache_beam/runners/portability/stager.py:232-285 | every `sdk_location` mode stages its files under exactly the names it returns |
| JobProperties.WorkerJarStagesItsNames | sdks/python/apache_beam/runners/portability/stager.py:287-293 | the worker-jar group stages its file under exactly the name it returns |
| JobProperties.WorkerJarOutcome | sdks/python/apache_beam/runners/portability/stager.py:287-293 | a given `dataflow_worker_jar` is staged, in one stage call, as `dataflow-worker.jar`, the one name returned; without one nothing is staged; the group never raises |
| JobProperties.GroupsStageTheirNames | sdks/python/apache_beam/runners/portability/stager.py:158-293 | the seven groups run in order stage their files under exactly the names they return together, and none cleans up |
| JobProperties.JobResourcesOutcome | sdks/python/apache_beam/runners/portability/stager.py:117-298 | on success the staging location was given, the stage destinations are exactly the returned names joined onto it, in order, and the last two effects remove the temp directory and commit the manifest; the manifest is committed, and the temp directory removed, exactly when no exception was raised |
| JobProperties.JobResourcesEarlyErrors | sdks/python/apache_beam/runners/portability/stager.py:155-197 | no staging location, or a missing requirements file, raises before any effect; a missing setup file, or one not named `setup.py`, raises after only the requirements group's effects |
| JobProperties.SetupFileWithoutDirectory | sdks/python/apache_beam/runners/portability/stager.py:507-514 | a setup file given as a bare `setup.py` passes both checks, but `os.chdir` into its empty directory name raises before the build, so the job raises after only the requirements group's effects |
| StagerModel.Stager.constructor | sdks/python/apache_beam/runners/portability/stager.py:94-99 | a new stager has performed nothing |
| StagerModel.Stager.StageArtifact | sdks/python/apache_beam/runners/portability/stager.py:100-105 | records one stage call |
| StagerModel.Stager.DownloadFile | sdks/python/apache_beam/runners/portability/stager.py:300-328 | returns and records what `Naming.DownloadFile` says |
| StagerModel.Stager.CheckOutput | sdks/python/apache_beam/runners/portability/stager.py:504 | returns and records what `Naming.CheckOutput` says |
| StagerModel.Stager.CleanUpAndCommit | sdks/python/apache_beam/runners/portability/stager.py:295-297 | records the temp-directory removal and the manifest commit |
| StagerModel.Stager.PopulateRequirementsCache | sdks/python/apache_beam/runners/portability/stager.py:481-504 | the retry loop returns and records what `StagingSpec.PopulateRequirementsCache` says |
| StagerModel.Stager.StageFiles | sdks/python/apache_beam/runners/portability/stager.py:378-382 | the staging loop returns the base names and records one stage call per file |
| StagerModel.Stager.ValidatePackages | sdks/python/apache_beam/runners/portability/stager.py:408-437 | the validation loop ends in the state `StagingSpec.ScanPackages` gives |
| StagerModel.Stager.ValidatePackage | sdks/python/apache_beam/runners/portability/stager.py:411-437 | one iteration of the validation loop is one `StagingSpec.ScanStep` |
| StagerModel.Stager.StageExtraPackages | sdks/python/apache_beam/runners/portability/stager.py:386-468 | returns and records what `StagingSpec.ExtraPackages` says |
| StagerModel.Stager.StageJarPackages | sdks/python/apache_beam/runners/portability/stager.py:334-384 | returns and records what `StagingSpec.JarPackages` says |
| StagerModel.Stager.DownloadPypiSdkPackage | sdks/python/apache_beam/runners/portability/stager.py:618-693 | returns and records what `StagingSpec.PypiSdkDownload` says |
| StagerModel.Stager.StageSdkWheel | sdks/python/apache_beam/runners/portability/stager.py:576-600 | returns and records what `StagingSpec.StageSdkWheel` says |
| StagerModel.Stager.StageBeamSdk | sdks/python/apache_beam/runners/portability/stager.py:550-616 | returns and records what `StagingSpec.BeamSdk` says |
| StagerModel.Stager.BuildSetupPackage | sdks/python/apache_beam/runners/portability/stager.py:506-531 | returns and records what `StagingSpec.BuildSetupPackage` says: a setup file without a directory fails at `os.chdir`, then the executable lookup, the sdist and the tarball lookup follow |
| StagerModel.Stager.StageRequirements | sdks/python/apache_beam/runners/portability/stager.py:158-183 | returns and records what `StagingSpec.RequirementsGroup` says |
| StagerModel.Stager.StageSetupFile | sdks/python/apache_beam/runners/portability/stager.py:189-201 | returns and records what `StagingSpec.SetupGroup` says |
| StagerModel.Stager.StageSdk | sdks/python/apache_beam/runners/portability/stager.py:232-285 | returns and records what `StagingSpec.SdkGroup` says |
| StagerModel.Stager.StageJobResources | sdks/python/apache_beam/runners/portability/stager.py:117-298 | returns and records what `StagingSpec.JobResources` says, so `JobProperties.JobResourcesOutcome` holds of its result and log |

## Left out

- `sdks/python/container/license_scripts/pull_licenses_py.py` is not part of this model. It only runs `pip-licenses`, downloads license files and copies them, so there is no staging logic in it.
- Subprocesses, HTTP, copying, `pkg_resources`, `sys.version_info`, `$BEAM_PYTHON`/`sys.executable`, `tempfile` and `glob`/`os.listdir` are not run. Their outcomes and listings are fields of `Env`.
- `mkdtemp` inside `_stage_extra_packages` and `_stage_jar_packages` returns the directory `Env` names.
- A staging temp directory that starts empty is assumed, and a repeated download name overwrites its file.
- PackageProperties.ScanContents: `os.listdir` of the staging temp directory is taken to list the downloaded names in the order first downloaded. Python gives `os.listdir` no order, so the order of the downloaded names in the result is this assumption, not a promise of the code.
- PackageProperties.StagedNames: the order of the downloaded names rests on the same `os.listdir` assumption.
- PackageProperties.ExtraPackagesOutcome: the order of the downloaded names rests on the same assumption. That `extra_packages.txt` lists the names in staging order does not depend on it.
- PackageProperties.JarPackagesOutcome: the order of the downloaded names rests on the same assumption.
- The exponential-backoff sleeps of the retry decorator are left out. Only the attempt count and the retry filter are modelled, with the decorator's first attempt plus `num_retries=4` retries.
- The `populate_requirements_cache` and `build_setup_args` test hooks of `stage_job_resources` are left out. The default cache population and the default `setup.py sdist` command are modelled.
- `os.chdir` into the setup file's directory is modelled only as the error it raises for a setup file without a directory; the working directory itself and its restore in `finally` are left out. An inaccessible directory is not modelled.
- `os.makedirs` of the requirements cache and the folder creation in `_download_file` are left out.
- The retrieval token from `commit_manifest` is left out; the manifest commit is recorded as an effect.
- Logging is left out.
- `stage_artifact` is taken not to fail: its storage backend is not part of this model.
- An exception in `pickler.dump_session` is not modelled.
- `FileSystems.join`/`split` and `os.path.join`/`basename` are modelled as '/'-joining and splitting at the last '/'. URL schemes get no special treatment.
- An options object without an `sdk_location` attribute is modelled as `sdkLocation == None`.
- Unicode, byte strings and Python 2/3 string differences are not modelled: strings are sequences of characters.
- Three behaviours of the code worth noting:
  - A package with a bad extension is rejected only when the validation loop reaches it. Earlier remote packages in the list have been downloaded by then, though nothing has been staged.
  - `stage_job_resources` has no `try`/`finally`, so the temp directory is removed, and the manifest committed, only on success.
  - The "cannot find default Beam SDK tar file" error can never be raised, because `default` is dispatched to PyPI first.
