/** What `_stage_extra_packages` and `_stage_jar_packages` promise, stated
    against reference definitions that do not follow the validation loop:
    which package lists are accepted, which error the first rejected package
    raises, and which names are staged, in which order. */
module PackageProperties {
  import opened Paths
  import opened StagingTypes
  import opened Naming
  import opened StagingSpec

  /** A package the validation loop lets through: an accepted file name, and
      either an existing local file or a remote path that can be fetched. */
  predicate PackageAccepted(env: Env, kind: PackageKind, package: string) {
    AcceptedName(kind, Basename(package)) &&
    (IsFile(env, package) || (IsRemotePath(package) && package in env.fetchable))
  }

  /** The packages that are existing local files, in input order. */
  function LocalFiles(env: Env, packages: seq<string>): seq<string> {
    if packages == [] then []
    else
      var last := packages[|packages| - 1];
      LocalFiles(env, packages[..|packages| - 1]) + (if IsFile(env, last) then [last] else [])
  }

  /** The last path component of each package that is not a local file. */
  function RemoteNames(env: Env, packages: seq<string>): seq<string> {
    if packages == [] then []
    else
      var last := packages[|packages| - 1];
      RemoteNames(env, packages[..|packages| - 1]) + (if IsFile(env, last) then [] else [Split(last).1])
  }

  /** `names` with repeats dropped, each name kept where it first occurs. */
  function Dedup(names: seq<string>): seq<string> {
    if names == [] then []
    else AddListing(Dedup(names[..|names| - 1]), names[|names| - 1])
  }

  /** Dropping repeats keeps every name and leaves no name twice. */
  lemma {:induction false} DedupKeepsNames(names: seq<string>)
    ensures forall x :: x in Dedup(names) <==> x in names
    ensures forall i, j :: 0 <= i < j < |Dedup(names)| ==> Dedup(names)[i] != Dedup(names)[j]
  {
    if names != [] {
      var init := names[..|names| - 1];
      DedupKeepsNames(init);
      assert names == init + [names[|names| - 1]];
    }
  }

  /** Every remote name is the base name of one of the packages. */
  lemma {:induction false} RemoteNamesFromPackages(env: Env, packages: seq<string>)
    ensures forall x :: x in RemoteNames(env, packages) ==>
              exists i :: 0 <= i < |packages| && x == Basename(packages[i])
  {
    if packages != [] {
      var init := packages[..|packages| - 1];
      RemoteNamesFromPackages(env, init);
      forall x | x in RemoteNames(env, packages)
        ensures exists i :: 0 <= i < |packages| && x == Basename(packages[i])
      {
        if x in RemoteNames(env, init) {
          var i :| 0 <= i < |init| && x == Basename(init[i]);
          assert init[i] == packages[i];
        } else {
          assert x == Basename(packages[|packages| - 1]);
        }
      }
    }
  }

  /** Every base name of a local file is the base name of one of the
      packages. */
  lemma {:induction false} LocalNamesFromPackages(env: Env, packages: seq<string>)
    ensures forall x :: x in Basenames(LocalFiles(env, packages)) ==>
              exists i :: 0 <= i < |packages| && x == Basename(packages[i])
  {
    if packages != [] {
      var init, last := packages[..|packages| - 1], packages[|packages| - 1];
      LocalNamesFromPackages(env, init);
      var kept := if IsFile(env, last) then [last] else [];
      BasenamesAppend(LocalFiles(env, init), kept);
      forall x | x in Basenames(LocalFiles(env, packages))
        ensures exists i :: 0 <= i < |packages| && x == Basename(packages[i])
      {
        if x in Basenames(LocalFiles(env, init)) {
          var i :| 0 <= i < |init| && x == Basename(init[i]);
          assert init[i] == packages[i];
        } else {
          assert Basenames(kept) == [Basename(last)];
          assert x == Basename(packages[|packages| - 1]);
        }
      }
    }
  }

  /** Every name a validated package list is staged under is the base name
      of one of the packages. */
  lemma StagedNamesFromPackages(env: Env, packages: seq<string>)
    ensures forall x :: x in Basenames(LocalFiles(env, packages)) + Dedup(RemoteNames(env, packages)) ==>
              exists i :: 0 <= i < |packages| && x == Basename(packages[i])
  {
    LocalNamesFromPackages(env, packages);
    RemoteNamesFromPackages(env, packages);
    DedupKeepsNames(RemoteNames(env, packages));
  }

  /** One iteration passes exactly when the loop had not raised yet and
      the package is accepted. */
  lemma ScanStepPasses(env: Env, kind: PackageKind, stagingTempDir: string, s: Scan, package: string)
    ensures ScanStep(env, kind, stagingTempDir, s, package).error.None? <==>
            s.error.None? && PackageAccepted(env, kind, package)
  {
  }

  /** The validation loop passes exactly when every package is accepted. */
  lemma {:induction false} ScanPassesIff(env: Env, kind: PackageKind, stagingTempDir: string, packages: seq<string>)
    ensures ScanPackages(env, kind, stagingTempDir, packages).error.None? <==>
            forall i :: 0 <= i < |packages| ==> PackageAccepted(env, kind, packages[i])
  {
    if packages != [] {
      var init := packages[..|packages| - 1];
      var last := packages[|packages| - 1];
      ScanPassesIff(env, kind, stagingTempDir, init);
      ScanStepPasses(env, kind, stagingTempDir, ScanPackages(env, kind, stagingTempDir, init), last);
      assert forall i :: 0 <= i < |init| ==> init[i] == packages[i];
    }
  }

  /** All the validation loop does, error or not, is download. */
  lemma {:induction false} ScanOnlyDownloads(env: Env, kind: PackageKind, stagingTempDir: string, packages: seq<string>)
    ensures forall e :: e in ScanPackages(env, kind, stagingTempDir, packages).effects ==> e.Download?
  {
    if packages != [] {
      var init := packages[..|packages| - 1];
      ScanOnlyDownloads(env, kind, stagingTempDir, init);
    }
  }

  /** An iteration that passes keeps the package if it is a local file and
      otherwise lists its downloaded name. */
  lemma ScanStepContents(env: Env, kind: PackageKind, stagingTempDir: string, s: Scan, package: string)
    requires ScanStep(env, kind, stagingTempDir, s, package).error.None?
    ensures var next := ScanStep(env, kind, stagingTempDir, s, package);
            next.local == s.local + (if IsFile(env, package) then [package] else []) &&
            next.downloaded == (if IsFile(env, package) then s.downloaded else AddListing(s.downloaded, Split(package).1))
  {
  }

  /** The remote names of one more package are listed like one more
      download. */
  lemma DedupRemoteNamesStep(env: Env, packages: seq<string>)
    requires packages != []
    ensures Dedup(RemoteNames(env, packages))
         == (if IsFile(env, packages[|packages| - 1]) then Dedup(RemoteNames(env, packages[..|packages| - 1]))
             else AddListing(Dedup(RemoteNames(env, packages[..|packages| - 1])), Split(packages[|packages| - 1]).1))
  {
    var names := RemoteNames(env, packages);
    if IsFile(env, packages[|packages| - 1]) {
      AppendEmpty(RemoteNames(env, packages[..|packages| - 1]));
    } else {
      assert names[..|names| - 1] == RemoteNames(env, packages[..|packages| - 1]);
    }
  }

  /** Once validated, the loop has kept the local files in input order and
      listed each downloaded name once, in the order first downloaded. */
  lemma {:induction false} ScanContents(env: Env, kind: PackageKind, stagingTempDir: string, packages: seq<string>)
    requires ScanPackages(env, kind, stagingTempDir, packages).error.None?
    ensures ScanPackages(env, kind, stagingTempDir, packages).local == LocalFiles(env, packages)
    ensures ScanPackages(env, kind, stagingTempDir, packages).downloaded == Dedup(RemoteNames(env, packages))
  {
    if packages != [] {
      var init := packages[..|packages| - 1];
      var s := ScanPackages(env, kind, stagingTempDir, init);
      ScanStepPasses(env, kind, stagingTempDir, s, packages[|packages| - 1]);
      ScanContents(env, kind, stagingTempDir, init);
      ScanStepContents(env, kind, stagingTempDir, s, packages[|packages| - 1]);
      DedupRemoteNamesStep(env, packages);
    }
  }

  /** The first package the loop rejects decides the error, and no package
      after it is looked at. A name with the wrong extension is refused
      before its existence is checked, and a package that is neither a file
      nor remote before anything is downloaded for it. */
  lemma ScanStopsAtFirstRejected(env: Env, kind: PackageKind, stagingTempDir: string, packages: seq<string>, j: nat)
    requires j < |packages|
    requires forall i :: 0 <= i < j ==> PackageAccepted(env, kind, packages[i])
    requires !PackageAccepted(env, kind, packages[j])
    ensures var s := ScanPackages(env, kind, stagingTempDir, packages);
            var before := ScanPackages(env, kind, stagingTempDir, packages[..j]).effects;
            var p := packages[j];
            (!AcceptedName(kind, Basename(p)) ==>
               s.error == Some(RuntimeError(BadPackageName(kind, p))) && s.effects == before) &&
            (AcceptedName(kind, Basename(p)) && !IsRemotePath(p) ==>
               s.error == Some(RuntimeError(PackageMissing(kind, p))) && s.effects == before) &&
            (AcceptedName(kind, Basename(p)) && IsRemotePath(p) ==>
               s.error == Some(DownloadFile(env, p, Join(stagingTempDir, Split(p).1)).result.error) &&
               s.effects == before + [Download(p, Join(stagingTempDir, Split(p).1))])
  {
    var prefix := packages[..j];
    ScanPassesIff(env, kind, stagingTempDir, prefix);
    assert packages[..j + 1][..j] == prefix;
    ScanStopsAtError(env, kind, stagingTempDir, packages, j + 1);
  }

  /** The base name of a file joined onto a directory is the file's name. */
  lemma {:induction false} BasenamesInDir(dir: string, names: seq<string>)
    requires forall i :: 0 <= i < |names| ==> '/' !in names[i]
    ensures Basenames(InDir(dir, names)) == names
  {
    if names != [] {
      var init := names[..|names| - 1];
      BasenamesInDir(dir, init);
      SplitOfJoin(dir, names[|names| - 1]);
    }
  }

  lemma {:induction false} BasenamesAppend(a: seq<string>, b: seq<string>)
    ensures Basenames(a + b) == Basenames(a) + Basenames(b)
    decreases |b|
  {
    if b == [] {
      assert a + b == a;
      AppendEmpty(Basenames(a));
    } else {
      var init, last := b[..|b| - 1], b[|b| - 1];
      assert (a + b)[..|a + b| - 1] == a + init;
      assert (a + b)[|a + b| - 1] == last;
      BasenamesAppend(a, init);
      AppendAssoc(Basenames(a), Basenames(init), [Basename(last)]);
    }
  }

  lemma RemoteNamesHaveNoSlash(env: Env, packages: seq<string>)
    ensures forall i :: 0 <= i < |Dedup(RemoteNames(env, packages))| ==> '/' !in Dedup(RemoteNames(env, packages))[i]
  {
    var names := Dedup(RemoteNames(env, packages));
    DedupKeepsNames(RemoteNames(env, packages));
    RemoteNamesFromPackages(env, packages);
    forall i | 0 <= i < |names| ensures '/' !in names[i] {
      assert names[i] in RemoteNames(env, packages);
      var k :| 0 <= k < |packages| && names[i] == Basename(packages[k]);
    }
  }

  /** The names a validated package list is staged under: the base names of
      the local files in input order, then each downloaded file once. */
  lemma StagedNames(env: Env, kind: PackageKind, stagingTempDir: string, packages: seq<string>)
    requires ScanPackages(env, kind, stagingTempDir, packages).error.None?
    ensures Basenames(StagedSources(ScanPackages(env, kind, stagingTempDir, packages), stagingTempDir))
         == Basenames(LocalFiles(env, packages)) + Dedup(RemoteNames(env, packages))
  {
    var s := ScanPackages(env, kind, stagingTempDir, packages);
    ScanContents(env, kind, stagingTempDir, packages);
    RemoteNamesHaveNoSlash(env, packages);
    BasenamesAppend(s.local, InDir(stagingTempDir, s.downloaded));
    BasenamesInDir(stagingTempDir, s.downloaded);
  }

  /** `_stage_extra_packages` succeeds exactly when every package is
      accepted. It then returns the base names of the local packages in
      input order, the downloaded files, and `extra_packages.txt` last; the
      manifest it writes just before staging it lists exactly the names
      before that last one. On an error it has only downloaded: nothing is
      staged and no manifest is written. */
  lemma ExtraPackagesOutcome(env: Env, packages: seq<string>, stagingLocation: string, tempDir: string,
                             stagingTempDir: string)
    ensures var r := ExtraPackages(env, packages, stagingLocation, tempDir, stagingTempDir);
            (r.result.Ok? <==> forall i :: 0 <= i < |packages| ==> PackageAccepted(env, ExtraPackage, packages[i])) &&
            (r.result.Ok? ==>
               var names := r.result.value;
               names == Basenames(LocalFiles(env, packages)) + Dedup(RemoteNames(env, packages)) + [ExtraPackagesFile] &&
               |r.effects| >= 2 &&
               r.effects[|r.effects| - 2] == WriteLines(Join(tempDir, ExtraPackagesFile), names[..|names| - 1]) &&
               r.effects[|r.effects| - 1] == Stage(Join(tempDir, ExtraPackagesFile), Join(stagingLocation, ExtraPackagesFile))) &&
            (r.result.Err? ==> forall e :: e in r.effects ==> e.Download?)
  {
    var s := ScanPackages(env, ExtraPackage, stagingTempDir, packages);
    ScanPassesIff(env, ExtraPackage, stagingTempDir, packages);
    ScanOnlyDownloads(env, ExtraPackage, stagingTempDir, packages);
    if s.error.None? {
      StagedNames(env, ExtraPackage, stagingTempDir, packages);
      var names := ExtraPackages(env, packages, stagingLocation, tempDir, stagingTempDir).result.value;
      assert names[..|names| - 1] == Basenames(StagedSources(s, stagingTempDir));
    }
  }

  /** `_stage_jar_packages` succeeds exactly when every package is accepted;
      it then returns one name per staged jar, each ending in `.jar`, and no
      manifest entry. On an error it has only downloaded. */
  lemma JarPackagesOutcome(env: Env, packages: seq<string>, stagingLocation: string, stagingTempDir: string)
    ensures var r := JarPackages(env, packages, stagingLocation, stagingTempDir);
            (r.result.Ok? <==> forall i :: 0 <= i < |packages| ==> PackageAccepted(env, JarPackage, packages[i])) &&
            (r.result.Ok? ==>
               r.result.value == Basenames(LocalFiles(env, packages)) + Dedup(RemoteNames(env, packages)) &&
               forall i :: 0 <= i < |r.result.value| ==> EndsWith(r.result.value[i], ".jar")) &&
            (r.result.Err? ==> forall e :: e in r.effects ==> e.Download?)
  {
    var s := ScanPackages(env, JarPackage, stagingTempDir, packages);
    ScanPassesIff(env, JarPackage, stagingTempDir, packages);
    ScanOnlyDownloads(env, JarPackage, stagingTempDir, packages);
    if s.error.None? {
      StagedNames(env, JarPackage, stagingTempDir, packages);
      var names := JarPackages(env, packages, stagingLocation, stagingTempDir).result.value;
      StagedNamesFromPackages(env, packages);
      forall i | 0 <= i < |names| ensures EndsWith(names[i], ".jar") {
        assert names[i] in names;
        var k :| 0 <= k < |packages| && names[i] == Basename(packages[k]);
        assert PackageAccepted(env, JarPackage, packages[k]);
      }
    }
  }
}
