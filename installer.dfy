/** The inspector and the orchestrator of installer.js: decide whether the wanted driver is
    already in place, and otherwise download, unpack and make it executable. */
module Installer {
  import opened Common
  import opened Failures
  import opened Resolver
  import opened Requests
  import opened Files
  import opened Download

  /** What an archive extractor yields for the driver binary: its bytes and the mode it carries. */
  datatype Unpacked = Unpacked(binary: seq<byte>, mode: nat)

  /** The collaborators the installer calls and the model does not look into. */
  datatype Externals = Externals(
    // process.env
    env: map<string, string>,
    // the body the release endpoint answers with, or the request error
    releaseQuery: RequestOptions -> Result<string, string>,
    // what a download request emits
    fetch: RequestOptions -> Response,
    // extract-zip (chromedriver) or tar (geckodriver) run on the archive bytes; None when it fails
    unpack: (Driver, seq<byte>) -> Option<Unpacked>,
    // `<binary> --version` matched against the driver's version pattern; None when either fails
    probe: (Driver, Node) -> Option<string>)

  /** A result together with the filesystem it leaves. */
  datatype Step<+T> = Step(result: Result<T, Failure>, entries: Entries)

  /** A string-or-undefined in a template literal or a `+`. */
  function JsText(v: Option<string>): string {
    match v
    case Some(s) => s
    case None => "undefined"
  }

  function DriverPath(targetPath: string, driver: Driver): string {
    JoinPath(targetPath, DriverName(driver))
  }

  /** The name of the archive the driver is downloaded as. */
  function ArchiveName(driver: Driver, version: Option<string>): string {
    match driver
    case ChromeDriver => ChromeDriverFileName
    case GeckoDriver => GeckoDriverFileName(JsText(version))
  }

  /** doesDriverAlreadyExist. Ok(true) when the installed binary reports exactly the expected
      version; a binary reporting another version is removed. */
  function Inspection(fs: Entries, driver: Driver, expected: Option<string>, targetPath: string,
                      probe: (Driver, Node) -> Option<string>): Step<bool>
  {
    var binary := DriverPath(targetPath, driver);
    if targetPath !in fs then Step(Ok(false), fs)
    else if binary !in fs then Step(Ok(false), fs)
    else match probe(driver, fs[binary])
      case None => Step(Err(VersionProbeFailed(binary)), fs)
      case Some(installed) =>
        if Some(installed) != expected then Step(Ok(false), RemoveTree(fs, binary))
        else Step(Ok(true), fs)
  }

  /** downloadChromeDriverPackage: a "LATEST_RELEASE_" marker is first exchanged for the release it
      names; the result is the archive path. */
  function ChromePackageDownload(fs: Entries, version: Option<string>, targetPath: string, x: Externals): Step<string>
  {
    var archive := JoinPath(targetPath, ChromeDriverFileName);
    match version
    case None => Step(Err(UndefinedDriverVersion), fs)
    case Some(v) =>
      var concrete :=
        if StartsWith(v, LatestReleasePrefix) then x.releaseQuery(PrepareHttpGetRequest(ChromeVersionQueryUrl(v), x.env))
        else Ok(v);
      match concrete
      case Err(reason) => Step(Err(ReleaseQueryFailed(reason)), fs)
      case Ok(release) =>
        var (done, after) := FileDownload(fs, targetPath, archive, x.fetch(PrepareHttpGetRequest(ChromeDownloadUrl(release), x.env)));
        Step(if done.Ok? then Ok(archive) else Err(done.error), after)
  }

  /** downloadGeckoDriverPackage; the result is the archive path. */
  function GeckoPackageDownload(fs: Entries, version: Option<string>, targetPath: string, x: Externals): Step<string>
  {
    var v := JsText(version);
    var archive := JoinPath(targetPath, GeckoDriverFileName(v));
    var (done, after) := FileDownload(fs, targetPath, archive, x.fetch(PrepareHttpGetRequest(GeckoDownloadUrl(v), x.env)));
    Step(if done.Ok? then Ok(archive) else Err(done.error), after)
  }

  /** The common tail of installChromeDriver and installGeckoDriver: extract the archive into the
      target directory, remove the archive, make the binary executable. */
  function Unpacking(fs: Entries, driver: Driver, archive: string, targetPath: string,
                     unpack: (Driver, seq<byte>) -> Option<Unpacked>): Step<()>
  {
    var binary := DriverPath(targetPath, driver);
    var bytes := if archive in fs && fs[archive].File? then fs[archive].contents else [];
    match unpack(driver, bytes)
    case None => Step(Err(ExtractionFailed(archive)), fs)
    case Some(u) =>
      var extracted := fs[binary := File(u.mode, u.binary)];
      var cleaned := RemoveFile(extracted, archive);
      match Chmod(cleaned, binary, ExecutableMode)
      case None => Step(Err(ChmodFailed(binary)), cleaned)
      case Some(done) => Step(Ok(()), done)
  }

  /** installChromeDriver / installGeckoDriver. */
  function PackageInstallation(fs: Entries, driver: Driver, version: Option<string>, targetPath: string, x: Externals): Step<()>
  {
    var downloaded :=
      if driver == ChromeDriver then ChromePackageDownload(fs, version, targetPath, x)
      else GeckoPackageDownload(fs, version, targetPath, x);
    match downloaded.result
    case Err(e) => Step(Err(e), downloaded.entries)
    case Ok(archive) => Unpacking(downloaded.entries, driver, archive, targetPath, x.unpack)
  }

  /** What installBrowserDriver does once the inspector was not satisfied. */
  function Acquisition(fs: Entries, driver: Driver, version: Option<string>, targetPath: string, x: Externals): Step<bool>
  {
    var installed := PackageInstallation(MakeDirs(fs, targetPath), driver, version, targetPath, x);
    Step(if installed.result.Ok? then Ok(true) else Err(installed.result.error), installed.entries)
  }

  /** installBrowserDriver: false when nothing had to be done, true after an install. */
  function Installation(fs: Entries, driver: Driver, version: Option<string>, targetPath: string, x: Externals): Step<bool>
  {
    var inspected := Inspection(fs, driver, version, targetPath, x.probe);
    match inspected.result
    case Err(e) => Step(Err(e), inspected.entries)
    case Ok(true) => Step(Ok(false), inspected.entries)
    case Ok(false) => Acquisition(inspected.entries, driver, version, targetPath, x)
  }

  /** browserDriverInstaller. */
  function InstallerRun(fs: Entries, browserName: JsValue, browserVersion: JsValue, targetPath: JsValue,
                        platform: string, arch: string, info: MappingInformation, x: Externals): Step<bool>
  {
    match ResolveRequest(browserName, browserVersion, targetPath, platform, arch, info)
    case Err(e) => Step(Err(e), fs)
    case Ok(request) => Installation(fs, request.driver, request.driverVersion, request.targetPath, x)
  }

  // ---------------------------------------------------------------------------------------------
  // Properties of the specification

  /** The inspector removes nothing but the binary (and what lies below its path), and is satisfied
      only by a binary that reports exactly the expected version. */
  lemma InspectionTouchesOnlyTheBinary(fs: Entries, driver: Driver, expected: Option<string>, targetPath: string,
                                        probe: (Driver, Node) -> Option<string>)
    ensures var s := Inspection(fs, driver, expected, targetPath, probe);
            var binary := DriverPath(targetPath, driver);
            && (s.entries == fs || s.entries == RemoveTree(fs, binary))
            && (forall p :: p in fs && !Within(p, binary) ==> p in s.entries && s.entries[p] == fs[p])
            && (s.result == Ok(true) <==>
                  targetPath in fs && binary in fs && probe(driver, fs[binary]).Some? && Some(probe(driver, fs[binary]).value) == expected)
            && (s.result == Ok(true) ==> s.entries == fs)
            && (s.result.Err? ==> s.entries == fs)
  {
  }

  /** The inspector case by case: a missing target directory or binary means "not installed" and
      changes nothing; a failed probe is an error; a binary reporting another version is removed. */
  lemma InspectionCases(fs: Entries, driver: Driver, expected: Option<string>, targetPath: string,
                        probe: (Driver, Node) -> Option<string>)
    ensures var binary := DriverPath(targetPath, driver);
            (targetPath !in fs || binary !in fs) ==>
              Inspection(fs, driver, expected, targetPath, probe) == Step(Ok(false), fs)
    ensures var binary := DriverPath(targetPath, driver);
            targetPath in fs && binary in fs && probe(driver, fs[binary]).None? ==>
              Inspection(fs, driver, expected, targetPath, probe) == Step(Err(VersionProbeFailed(binary)), fs)
    ensures var binary := DriverPath(targetPath, driver);
            targetPath in fs && binary in fs && probe(driver, fs[binary]).Some? && Some(probe(driver, fs[binary]).value) != expected ==>
              Inspection(fs, driver, expected, targetPath, probe) == Step(Ok(false), RemoveTree(fs, binary))
  {
  }

  /** A run whose inspector is satisfied returns false and changes nothing. */
  lemma SatisfiedInstallIsNoOp(fs: Entries, driver: Driver, version: Option<string>, targetPath: string, x: Externals)
    requires targetPath in fs && DriverPath(targetPath, driver) in fs
    requires x.probe(driver, fs[DriverPath(targetPath, driver)]).Some?
    requires Some(x.probe(driver, fs[DriverPath(targetPath, driver)]).value) == version
    ensures Installation(fs, driver, version, targetPath, x) == Step(Ok(false), fs)
  {
  }

  /** A binary reporting another version is removed first; the install then runs on what is left and
      never reports "nothing to do". */
  lemma MismatchedBinaryIsReplaced(fs: Entries, driver: Driver, version: Option<string>, targetPath: string, x: Externals)
    requires targetPath in fs && DriverPath(targetPath, driver) in fs
    requires x.probe(driver, fs[DriverPath(targetPath, driver)]).Some?
    requires Some(x.probe(driver, fs[DriverPath(targetPath, driver)]).value) != version
    ensures DriverPath(targetPath, driver) !in RemoveTree(fs, DriverPath(targetPath, driver))
    ensures Installation(fs, driver, version, targetPath, x)
            == Acquisition(RemoveTree(fs, DriverPath(targetPath, driver)), driver, version, targetPath, x)
    ensures Installation(fs, driver, version, targetPath, x).result != Ok(false)
  {
  }

  /** An expected "LATEST_RELEASE_<major>" marker never equals a version the probe reports (those
      start with a digit), so that install is never reported as already in place: each run either
      reinstalls or, when the probe of an existing binary fails, fails with that error. */
  lemma LatestReleaseIsNeverSatisfied(fs: Entries, driver: Driver, marker: string, targetPath: string, x: Externals)
    requires StartsWith(marker, LatestReleasePrefix)
    requires var binary := DriverPath(targetPath, driver);
             binary in fs && x.probe(driver, fs[binary]).Some? ==>
               x.probe(driver, fs[binary]).value != [] && IsDigit(x.probe(driver, fs[binary]).value[0])
    ensures Installation(fs, driver, Some(marker), targetPath, x).result != Ok(false)
  {
    var binary := DriverPath(targetPath, driver);
    if targetPath in fs && binary in fs && x.probe(driver, fs[binary]).Some? {
      var reported := x.probe(driver, fs[binary]).value;
      assert marker[0] == 'L';
      assert reported != marker;
    }
  }

  lemma JoinedIsBelow(root: string, name: string)
    ensures Within(JoinPath(root, name), root) && JoinPath(root, name) != root
  {
    WithinJoined(JoinPath(root, name), root, name);
  }

  /** Two names in one directory are the same path only when they are the same name. */
  lemma JoinPathInjective(root: string, a: string, b: string)
    requires a != b
    ensures JoinPath(root, a) != JoinPath(root, b)
  {
    assert JoinPath(root, a)[|root| + 1..] == a;
    assert JoinPath(root, b)[|root| + 1..] == b;
  }

  /** The archive and the binary are different paths in the target directory. */
  lemma ArchiveIsNotTheBinary(driver: Driver, version: Option<string>, targetPath: string)
    ensures JoinPath(targetPath, ArchiveName(driver, version)) != DriverPath(targetPath, driver)
  {
    var archiveName := ArchiveName(driver, version);
    if driver == GeckoDriver {
      assert |archiveName| > |GeckoDriverName|;
    }
    JoinPathInjective(targetPath, archiveName, DriverName(driver));
  }

  /** The archive path a successful package download reports. */
  lemma {:induction false} DownloadReportsArchive(fs: Entries, driver: Driver, version: Option<string>, targetPath: string, x: Externals)
    ensures var d := if driver == ChromeDriver then ChromePackageDownload(fs, version, targetPath, x)
                     else GeckoPackageDownload(fs, version, targetPath, x);
            d.result.Ok? ==>
              && d.result.value == JoinPath(targetPath, ArchiveName(driver, version))
              && targetPath in fs && fs[targetPath].Directory?
              && d.entries == fs[d.result.value := d.entries[d.result.value]]
              && d.entries[d.result.value].File?
  {
  }

  /** After a successful install the binary is in place with mode 755, the archive is gone and the
      target directory exists. */
  lemma {:induction false} AcquisitionLeavesExecutable(fs: Entries, driver: Driver, version: Option<string>, targetPath: string, x: Externals)
    requires Acquisition(fs, driver, version, targetPath, x).result.Ok?
    ensures var after := Acquisition(fs, driver, version, targetPath, x).entries;
            var binary := DriverPath(targetPath, driver);
            && binary in after && after[binary].File? && after[binary].mode == ExecutableMode
            && JoinPath(targetPath, ArchiveName(driver, version)) !in after
            && targetPath in after && after[targetPath] == Directory
  {
    var made := MakeDirs(fs, targetPath);
    var d := if driver == ChromeDriver then ChromePackageDownload(made, version, targetPath, x)
             else GeckoPackageDownload(made, version, targetPath, x);
    DownloadReportsArchive(made, driver, version, targetPath, x);
    var archive := JoinPath(targetPath, ArchiveName(driver, version));
    var binary := DriverPath(targetPath, driver);
    ArchiveIsNotTheBinary(driver, version, targetPath);
    JoinedIsBelow(targetPath, ArchiveName(driver, version));
    JoinedIsBelow(targetPath, DriverName(driver));
    assert PackageInstallation(made, driver, version, targetPath, x) == Unpacking(d.entries, driver, archive, targetPath, x.unpack);
    var bytes := d.entries[archive].contents;
    var u := x.unpack(driver, bytes).value;
    var extracted := d.entries[binary := File(u.mode, u.binary)];
    assert extracted[archive].File?;
    var cleaned := RemoveFile(extracted, archive);
    assert binary in cleaned && cleaned[binary].File?;
  }

  /** After a successful install the binary is in place with mode 755, the archive is gone and the
      target directory exists. */
  lemma {:induction false} InstallationLeavesExecutable(fs: Entries, driver: Driver, version: Option<string>, targetPath: string, x: Externals)
    requires Installation(fs, driver, version, targetPath, x).result == Ok(true)
    ensures var after := Installation(fs, driver, version, targetPath, x).entries;
            var binary := DriverPath(targetPath, driver);
            && binary in after && after[binary].File? && after[binary].mode == ExecutableMode
            && JoinPath(targetPath, ArchiveName(driver, version)) !in after
            && targetPath in after && after[targetPath] == Directory
  {
    var inspected := Inspection(fs, driver, version, targetPath, x.probe);
    AcquisitionLeavesExecutable(inspected.entries, driver, version, targetPath, x);
  }

  /** Idempotence: once an install put a binary that reports the requested version in place, the same
      call again returns false and leaves the filesystem as it is. */
  lemma {:induction false} InstallationIsIdempotent(fs: Entries, driver: Driver, version: Option<string>, targetPath: string, x: Externals)
    requires Installation(fs, driver, version, targetPath, x).result == Ok(true)
    requires var after := Installation(fs, driver, version, targetPath, x).entries;
             DriverPath(targetPath, driver) in after &&
             x.probe(driver, after[DriverPath(targetPath, driver)]).Some? &&
             Some(x.probe(driver, after[DriverPath(targetPath, driver)]).value) == version
    ensures var after := Installation(fs, driver, version, targetPath, x).entries;
            Installation(after, driver, version, targetPath, x) == Step(Ok(false), after)
  {
    InstallationLeavesExecutable(fs, driver, version, targetPath, x);
  }

  /** Idempotence of the whole call: the same arguments a second time return false and change nothing. */
  lemma {:induction false} InstallerRunIsIdempotent(fs: Entries, browserName: JsValue, browserVersion: JsValue, targetPath: JsValue,
                                                    platform: string, arch: string, info: MappingInformation, x: Externals)
    requires InstallerRun(fs, browserName, browserVersion, targetPath, platform, arch, info, x).result == Ok(true)
    requires var after := InstallerRun(fs, browserName, browserVersion, targetPath, platform, arch, info, x).entries;
             var request := ResolveRequest(browserName, browserVersion, targetPath, platform, arch, info).value;
             var binary := DriverPath(request.targetPath, request.driver);
             binary in after && x.probe(request.driver, after[binary]).Some? &&
             Some(x.probe(request.driver, after[binary]).value) == request.driverVersion
    ensures var after := InstallerRun(fs, browserName, browserVersion, targetPath, platform, arch, info, x).entries;
            InstallerRun(after, browserName, browserVersion, targetPath, platform, arch, info, x) == Step(Ok(false), after)
  {
    var request := ResolveRequest(browserName, browserVersion, targetPath, platform, arch, info).value;
    InstallationIsIdempotent(fs, request.driver, request.driverVersion, request.targetPath, x);
  }

  /** Unpacking changes at most the binary and the archive. */
  lemma UnpackingTouchesOnlyBinaryAndArchive(fs: Entries, driver: Driver, archive: string, targetPath: string,
                                             unpack: (Driver, seq<byte>) -> Option<Unpacked>, p: string)
    requires p in fs && p != archive && p != DriverPath(targetPath, driver)
    ensures var after := Unpacking(fs, driver, archive, targetPath, unpack).entries;
            p in after && after[p] == fs[p]
  {
  }

  /** Creating the target and installing into it leaves every entry outside the target as it was. */
  lemma {:induction false} AcquisitionStaysInTarget(fs: Entries, driver: Driver, version: Option<string>, targetPath: string, x: Externals, p: string)
    requires p in fs && !Within(p, targetPath)
    ensures var after := Acquisition(fs, driver, version, targetPath, x).entries;
            p in after && after[p] == fs[p]
  {
    JoinedIsBelow(targetPath, DriverName(driver));
    JoinedIsBelow(targetPath, ArchiveName(driver, version));
    var made := MakeDirs(fs, targetPath);
    assert p in made && made[p] == fs[p];
    var d := if driver == ChromeDriver then ChromePackageDownload(made, version, targetPath, x)
             else GeckoPackageDownload(made, version, targetPath, x);
    DownloadTouchesOnlyArchive(made, driver, version, targetPath, x);
    assert p in d.entries && d.entries[p] == fs[p];
    if d.result.Ok? {
      DownloadReportsArchive(made, driver, version, targetPath, x);
      UnpackingTouchesOnlyBinaryAndArchive(d.entries, driver, d.result.value, targetPath, x.unpack, p);
    }
  }

  /** Nothing outside the target directory changes, except the directories created on the way to it. */
  lemma {:induction false} InstallationStaysInTarget(fs: Entries, driver: Driver, version: Option<string>, targetPath: string, x: Externals, p: string)
    requires p in fs && !Within(p, targetPath)
    ensures var after := Installation(fs, driver, version, targetPath, x).entries;
            p in after && after[p] == fs[p]
  {
    var binary := DriverPath(targetPath, driver);
    if Within(p, binary) {
      WithinJoined(p, targetPath, DriverName(driver));
    }
    var inspected := Inspection(fs, driver, version, targetPath, x.probe);
    InspectionTouchesOnlyTheBinary(fs, driver, version, targetPath, x.probe);
    assert p in inspected.entries && inspected.entries[p] == fs[p];
    if inspected.result == Ok(false) {
      AcquisitionStaysInTarget(inspected.entries, driver, version, targetPath, x, p);
    }
  }

  /** A package download changes at most the archive path. */
  lemma {:induction false} DownloadTouchesOnlyArchive(fs: Entries, driver: Driver, version: Option<string>, targetPath: string, x: Externals)
    ensures var d := if driver == ChromeDriver then ChromePackageDownload(fs, version, targetPath, x)
                     else GeckoPackageDownload(fs, version, targetPath, x);
            var archive := JoinPath(targetPath, ArchiveName(driver, version));
            forall p :: p != archive ==> (p in d.entries <==> p in fs) && (p in fs ==> d.entries[p] == fs[p])
  {
  }

  // ---------------------------------------------------------------------------------------------
  // The installer as it runs, changing the filesystem in place

  method DoesDriverAlreadyExist(disk: FileSystem, driver: Driver, expected: Option<string>, targetPath: string,
                                probe: (Driver, Node) -> Option<string>) returns (r: Result<bool, Failure>)
    modifies disk
    ensures Step(r, disk.entries) == Inspection(old(disk.entries), driver, expected, targetPath, probe)
  {
    if !disk.Exists(targetPath) {
      return Ok(false);
    }
    var binary := DriverPath(targetPath, driver);
    if !disk.Exists(binary) {
      return Ok(false);
    }
    var installed := probe(driver, disk.entries[binary]);
    if installed.None? {
      return Err(VersionProbeFailed(binary));
    }
    if Some(installed.value) != expected {
      disk.RemoveRecursively(binary);
      return Ok(false);
    }
    return Ok(true);
  }

  method DownloadChromeDriverPackage(disk: FileSystem, version: Option<string>, targetPath: string, x: Externals)
    returns (r: Result<string, Failure>)
    modifies disk
    ensures Step(r, disk.entries) == ChromePackageDownload(old(disk.entries), version, targetPath, x)
  {
    var archive := JoinPath(targetPath, ChromeDriverFileName);
    if version.None? {
      return Err(UndefinedDriverVersion);
    }
    var release := version.value;
    if StartsWith(release, LatestReleasePrefix) {
      var answer := x.releaseQuery(PrepareHttpGetRequest(ChromeVersionQueryUrl(release), x.env));
      if answer.Err? {
        return Err(ReleaseQueryFailed(answer.error));
      }
      release := answer.value;
    }
    var done, _, _ := DownloadFile(disk, ChromeDownloadUrl(release), x.env, x.fetch, targetPath, archive);
    r := if done.Ok? then Ok(archive) else Err(done.error);
  }

  method DownloadGeckoDriverPackage(disk: FileSystem, version: Option<string>, targetPath: string, x: Externals)
    returns (r: Result<string, Failure>)
    modifies disk
    ensures Step(r, disk.entries) == GeckoPackageDownload(old(disk.entries), version, targetPath, x)
  {
    var v := JsText(version);
    var archive := JoinPath(targetPath, GeckoDriverFileName(v));
    var done, _, _ := DownloadFile(disk, GeckoDownloadUrl(v), x.env, x.fetch, targetPath, archive);
    r := if done.Ok? then Ok(archive) else Err(done.error);
  }

  /** Extract, remove the archive, chmod 755. */
  method ExtractDriver(disk: FileSystem, driver: Driver, archive: string, targetPath: string,
                       unpack: (Driver, seq<byte>) -> Option<Unpacked>) returns (r: Result<(), Failure>)
    modifies disk
    ensures Step(r, disk.entries) == Unpacking(old(disk.entries), driver, archive, targetPath, unpack)
  {
    var binary := DriverPath(targetPath, driver);
    var bytes := if archive in disk.entries && disk.entries[archive].File? then disk.entries[archive].contents else [];
    var unpacked := unpack(driver, bytes);
    if unpacked.None? {
      return Err(ExtractionFailed(archive));
    }
    disk.Put(binary, File(unpacked.value.mode, unpacked.value.binary));
    disk.Remove(archive);
    var ok := disk.ChangeMode(binary, ExecutableMode);
    r := if ok then Ok(()) else Err(ChmodFailed(binary));
  }

  method InstallChromeDriver(disk: FileSystem, version: Option<string>, targetPath: string, x: Externals)
    returns (r: Result<(), Failure>)
    modifies disk
    ensures Step(r, disk.entries) == PackageInstallation(old(disk.entries), ChromeDriver, version, targetPath, x)
  {
    var archive := DownloadChromeDriverPackage(disk, version, targetPath, x);
    if archive.Err? {
      return Err(archive.error);
    }
    r := ExtractDriver(disk, ChromeDriver, archive.value, targetPath, x.unpack);
  }

  method InstallGeckoDriver(disk: FileSystem, version: Option<string>, targetPath: string, x: Externals)
    returns (r: Result<(), Failure>)
    modifies disk
    ensures Step(r, disk.entries) == PackageInstallation(old(disk.entries), GeckoDriver, version, targetPath, x)
  {
    var archive := DownloadGeckoDriverPackage(disk, version, targetPath, x);
    if archive.Err? {
      return Err(archive.error);
    }
    r := ExtractDriver(disk, GeckoDriver, archive.value, targetPath, x.unpack);
  }

  method InstallBrowserDriver(disk: FileSystem, driver: Driver, version: Option<string>, targetPath: string, x: Externals)
    returns (r: Result<bool, Failure>)
    modifies disk
    ensures Step(r, disk.entries) == Installation(old(disk.entries), driver, version, targetPath, x)
  {
    var present := DoesDriverAlreadyExist(disk, driver, version, targetPath, x.probe);
    if present.Err? {
      return Err(present.error);
    }
    if present.value {
      return Ok(false);
    }
    disk.MakeDirectories(targetPath);
    var installed;
    if driver == ChromeDriver {
      installed := InstallChromeDriver(disk, version, targetPath, x);
    } else {
      installed := InstallGeckoDriver(disk, version, targetPath, x);
    }
    r := if installed.Ok? then Ok(true) else Err(installed.error);
  }

  method BrowserDriverInstaller(disk: FileSystem, browserName: JsValue, browserVersion: JsValue, targetPath: JsValue,
                                platform: string, arch: string, info: MappingInformation, x: Externals)
    returns (r: Result<bool, Failure>)
    modifies disk
    ensures Step(r, disk.entries) == InstallerRun(old(disk.entries), browserName, browserVersion, targetPath, platform, arch, info, x)
  {
    var request := ResolveRequest(browserName, browserVersion, targetPath, platform, arch, info);
    if request.Err? {
      return Err(request.error);
    }
    r := InstallBrowserDriver(disk, request.value.driver, request.value.driverVersion, request.value.targetPath, x);
  }
}
