/** Input validation and browser-version to driver-version resolution of browserDriverInstaller. */
module Resolver {
  import opened Common
  import opened Failures

  /** A JavaScript argument: a string, or a value of some other `typeof`. */
  datatype JsValue = JsString(s: string) | JsOther(typeName: string)

  datatype Browser = Chrome | Firefox

  datatype Driver = ChromeDriver | GeckoDriver

  const ChromeDriverName := "chromedriver"
  const GeckoDriverName := "geckodriver"
  const LatestReleasePrefix := "LATEST_RELEASE_"
  const SupportedPlatform := "linux"
  const SupportedArch := "x64"
  /** Chrome majors above this one that the table lacks ask for the latest chromedriver release. */
  const ChromeLatestReleaseFloor := 72
  /** Firefox majors above this one that the table lacks use the entry for Firefox 60. */
  const FirefoxFrozenMajor := 60

  function DriverName(d: Driver): string {
    match d
    case ChromeDriver => ChromeDriverName
    case GeckoDriver => GeckoDriverName
  }

  function DriverFor(b: Browser): Driver {
    match b
    case Chrome => ChromeDriver
    case Firefox => GeckoDriver
  }

  /** One family's part of browserVersion2DriverVersion.json: its keys in `Object.keys` order and
      the major-version to driver-version mapping. */
  datatype VersionTable = VersionTable(keys: seq<string>, versions: map<string, string>)

  /** `keys` lists exactly the keys of the mapping, as `Object.keys` of a parsed object does. */
  ghost predicate WellFormedTable(t: VersionTable) {
    forall k :: k in t.versions <==> k in t.keys
  }

  datatype MappingInformation = MappingInformation(chromeDriverVersions: VersionTable, geckoDriverVersions: VersionTable)

  function TableFor(info: MappingInformation, b: Browser): VersionTable {
    match b
    case Chrome => info.chromeDriverVersions
    case Firefox => info.geckoDriverVersions
  }

  /** `table[key]`: the mapped string, or undefined. */
  function Lookup(table: VersionTable, key: string): Option<string> {
    if key in table.versions then Some(table.versions[key]) else None
  }

  /** What installBrowserDriver is called with. A driver version of `None` is JavaScript's undefined. */
  datatype InstallRequest = InstallRequest(driver: Driver, driverVersion: Option<string>, targetPath: string)

  /** checkIfSupportedPlatform: only Linux on x64 passes; the error names what was found. */
  function CheckIfSupportedPlatform(platform: string, arch: string): (r: Outcome<Failure>)
    ensures r.Pass? <==> platform == SupportedPlatform && arch == SupportedArch
    ensures r.Fail? ==> Contains(Message(r.error), platform) && Contains(Message(r.error), arch)
  {
    if platform != SupportedPlatform || arch != SupportedArch then
      UnsupportedPlatformNamesBoth(platform, arch);
      Fail(UnsupportedPlatform(platform, arch))
    else
      Pass
  }

  /** The browser a name selects, compared after lower-casing. */
  function BrowserOf(name: string): Option<Browser> {
    var lower := ToLowerAscii(name);
    if lower == ChromeBrowserName then Some(Chrome)
    else if lower == FirefoxBrowserName then Some(Firefox)
    else None
  }

  /** The name dispatch ignores letter case, and every other name is refused. */
  lemma BrowserNameIsCaseInsensitive(name: string)
    ensures BrowserOf(name) == Some(Chrome) <==> EqualsIgnoringCase(name, "chrome")
    ensures BrowserOf(name) == Some(Firefox) <==> EqualsIgnoringCase(name, "firefox")
    ensures BrowserOf(name) == None <==> !EqualsIgnoringCase(name, "chrome") && !EqualsIgnoringCase(name, "firefox")
  {
    LowerEqualsIffIgnoringCase(name, "chrome");
    LowerEqualsIffIgnoringCase(name, "firefox");
  }

  /** The longest prefix of `s` made of decimal digits: what `/^(\d+)/` matches, or empty. */
  function LeadingDigits(s: string): (r: string)
    ensures |r| <= |s| && r == s[..|r|]
    ensures AllDigits(r)
    ensures |r| < |s| ==> !IsDigit(s[|r|])
  {
    if s != [] && IsDigit(s[0]) then
      var rest := LeadingDigits(s[1..]);
      assert s == [s[0]] + s[1..];
      [s[0]] + rest
    else
      []
  }

  /** majorBrowserVersion: the maximal non-empty run of digits that starts the string. */
  function MajorBrowserVersion(v: JsValue): (r: Result<string, Failure>)
    ensures v.JsOther? ==> r == Err(InvalidVersionType(v.typeName))
    ensures v.JsString? ==> (r.Ok? <==> v.s != [] && IsDigit(v.s[0]))
    ensures v.JsString? && r.Err? ==> r.error == InvalidVersionFormat(v.s)
    ensures r.Ok? ==> r.value != [] && AllDigits(r.value) && StartsWith(v.s, r.value)
    ensures r.Ok? ==> |r.value| == |v.s| || !IsDigit(v.s[|r.value|])
  {
    match v
    case JsOther(typeName) => Err(InvalidVersionType(typeName))
    case JsString(s) =>
      var digits := LeadingDigits(s);
      if digits == [] then Err(InvalidVersionFormat(s)) else Ok(digits)
  }

  /** The table lookup and its fallbacks; an empty mapped string counts as a miss. */
  function ResolveDriverVersion(browser: Browser, browserName: string, major: string, table: VersionTable): Result<Option<string>, Failure>
    requires AllDigits(major)
  {
    if major in table.versions && table.versions[major] != "" then
      Ok(Some(table.versions[major]))
    else if browser == Chrome && DecimalValue(major) > ChromeLatestReleaseFloor then
      Ok(Some(LatestReleasePrefix + major))
    else if browser == Firefox && DecimalValue(major) > FirefoxFrozenMajor then
      Ok(Lookup(table, "60"))
    else
      Err(UnsupportedBrowserVersion(DriverName(DriverFor(browser)), browserName, major, table.keys))
  }

  /** browserDriverInstaller up to the call of installBrowserDriver. */
  function ResolveRequest(browserName: JsValue, browserVersion: JsValue, targetPath: JsValue,
                          platform: string, arch: string, info: MappingInformation): (r: Result<InstallRequest, Failure>)
    // the argument types are checked first
    ensures !(browserName.JsString? && browserVersion.JsString? && targetPath.JsString?) ==> r == Err(InvalidArguments)
    // then the platform, whatever the name and version
    ensures (browserName.JsString? && browserVersion.JsString? && targetPath.JsString? &&
             (platform != SupportedPlatform || arch != SupportedArch)) ==> r == Err(UnsupportedPlatform(platform, arch))
    // then the name, whatever the version
    ensures (browserName.JsString? && browserVersion.JsString? && targetPath.JsString? &&
             platform == SupportedPlatform && arch == SupportedArch && BrowserOf(browserName.s).None?)
            ==> r == Err(UnsupportedBrowserName(browserName.s))
    ensures r.Ok? ==> targetPath.JsString? && r.value.targetPath == targetPath.s
    ensures r.Ok? ==> browserName.JsString? && BrowserOf(browserName.s).Some? &&
                      r.value.driver == DriverFor(BrowserOf(browserName.s).value)
  {
    if !(browserName.JsString? && browserVersion.JsString? && targetPath.JsString?) then
      Err(InvalidArguments)
    else
      match CheckIfSupportedPlatform(platform, arch)
      case Fail(e) => Err(e)
      case Pass =>
        match BrowserOf(browserName.s)
        case None => Err(UnsupportedBrowserName(browserName.s))
        case Some(browser) =>
          match MajorBrowserVersion(browserVersion)
          case Err(e) => Err(e)
          case Ok(major) =>
            match ResolveDriverVersion(browser, browserName.s, major, TableFor(info, browser))
            case Err(e) => Err(e)
            case Ok(version) => Ok(InstallRequest(DriverFor(browser), version, targetPath.s))
  }

  /** Arguments that pass the type, platform and name checks. */
  ghost predicate AcceptedInputs(browserName: string, platform: string, arch: string, browser: Browser) {
    platform == SupportedPlatform && arch == SupportedArch && BrowserOf(browserName) == Some(browser)
  }

  /** A version that does not start with a digit is refused after the name was accepted. */
  lemma UnparsableVersionIsRefused(browserName: string, browserVersion: string, targetPath: string,
                                   platform: string, arch: string, info: MappingInformation, browser: Browser)
    requires AcceptedInputs(browserName, platform, arch, browser)
    requires browserVersion == [] || !IsDigit(browserVersion[0])
    ensures ResolveRequest(JsString(browserName), JsString(browserVersion), JsString(targetPath), platform, arch, info)
            == Err(InvalidVersionFormat(browserVersion))
  {
  }

  /** A table hit is used verbatim, whatever follows the leading digits. */
  lemma TableHitIsVerbatim(browserName: string, browserVersion: string, targetPath: string,
                           platform: string, arch: string, info: MappingInformation, browser: Browser)
    requires AcceptedInputs(browserName, platform, arch, browser)
    requires var major := LeadingDigits(browserVersion);
             major != [] && major in TableFor(info, browser).versions && TableFor(info, browser).versions[major] != ""
    ensures ResolveRequest(JsString(browserName), JsString(browserVersion), JsString(targetPath), platform, arch, info)
            == Ok(InstallRequest(DriverFor(browser), Some(TableFor(info, browser).versions[LeadingDigits(browserVersion)]), targetPath))
  {
  }

  /** A Chrome major above 72 that the table lacks (or maps to "") asks for the latest release of that major. */
  lemma ChromeMissUsesLatestRelease(browserName: string, browserVersion: string, targetPath: string,
                                    platform: string, arch: string, info: MappingInformation)
    requires AcceptedInputs(browserName, platform, arch, Chrome)
    requires var major := LeadingDigits(browserVersion);
             major != [] && Lookup(info.chromeDriverVersions, major) in {None, Some("")} &&
             DecimalValue(major) > ChromeLatestReleaseFloor
    ensures ResolveRequest(JsString(browserName), JsString(browserVersion), JsString(targetPath), platform, arch, info)
            == Ok(InstallRequest(ChromeDriver, Some(LatestReleasePrefix + LeadingDigits(browserVersion)), targetPath))
  {
  }

  /** A Firefox major above 60 that the table lacks (or maps to "") gets whatever `table["60"]` holds,
      possibly undefined. */
  lemma FirefoxMissUsesSixty(browserName: string, browserVersion: string, targetPath: string,
                             platform: string, arch: string, info: MappingInformation)
    requires AcceptedInputs(browserName, platform, arch, Firefox)
    requires var major := LeadingDigits(browserVersion);
             major != [] && Lookup(info.geckoDriverVersions, major) in {None, Some("")} &&
             DecimalValue(major) > FirefoxFrozenMajor
    ensures ResolveRequest(JsString(browserName), JsString(browserVersion), JsString(targetPath), platform, arch, info)
            == Ok(InstallRequest(GeckoDriver, Lookup(info.geckoDriverVersions, "60"), targetPath))
  {
  }

  /** Any other miss fails, naming the driver, the browser as given, the major version and the table's keys. */
  lemma OtherMissFails(browserName: string, browserVersion: string, targetPath: string,
                       platform: string, arch: string, info: MappingInformation, browser: Browser)
    requires AcceptedInputs(browserName, platform, arch, browser)
    requires var major := LeadingDigits(browserVersion);
             major != [] && Lookup(TableFor(info, browser), major) in {None, Some("")} &&
             DecimalValue(major) <= (if browser == Chrome then ChromeLatestReleaseFloor else FirefoxFrozenMajor)
    ensures ResolveRequest(JsString(browserName), JsString(browserVersion), JsString(targetPath), platform, arch, info)
            == Err(UnsupportedBrowserVersion(DriverName(DriverFor(browser)), browserName, LeadingDigits(browserVersion),
                                             TableFor(info, browser).keys))
  {
  }

  /** The table is keyed by major version only: versions with the same leading digits resolve alike. */
  lemma OnlyTheMajorVersionMatters(browserName: JsValue, v1: string, v2: string, targetPath: JsValue,
                                   platform: string, arch: string, info: MappingInformation)
    requires LeadingDigits(v1) == LeadingDigits(v2) != []
    ensures ResolveRequest(browserName, JsString(v1), targetPath, platform, arch, info)
            == ResolveRequest(browserName, JsString(v2), targetPath, platform, arch, info)
  {
  }

  /** Every Firefox major above 60 that the table lacks resolves exactly as Firefox 60 does, when the
      table has a usable entry for 60. */
  lemma {:induction false} FirefoxNewerResolvesLikeSixty(browserName: string, major: string, table: VersionTable)
    requires AllDigits(major) && DecimalValue(major) > FirefoxFrozenMajor
    requires Lookup(table, major) in {None, Some("")}
    requires Lookup(table, "60").Some? && table.versions["60"] != ""
    ensures ResolveDriverVersion(Firefox, browserName, major, table) == ResolveDriverVersion(Firefox, browserName, "60", table)
  {
  }

  /** The "LATEST_RELEASE_" marker carries the major version it was made from, and that major is above 72. */
  lemma ChromeMarkerCarriesMajor(browserName: string, major: string, table: VersionTable)
    requires AllDigits(major)
    requires Lookup(table, major) in {None, Some("")}
    requires ResolveDriverVersion(Chrome, browserName, major, table).Ok?
    ensures var v := ResolveDriverVersion(Chrome, browserName, major, table).value;
            v.Some? && StartsWith(v.value, LatestReleasePrefix) &&
            v.value[|LatestReleasePrefix|..] == major && DecimalValue(major) > ChromeLatestReleaseFloor
  {
  }

  /** The unsupported-version message names the browser as given, the major version and every key
      of the table. */
  lemma UnsupportedVersionMessageIsComplete(driverName: string, browserName: string, major: string,
                                            table: VersionTable, key: string)
    requires WellFormedTable(table) && key in table.versions
    ensures var m := Message(UnsupportedBrowserVersion(driverName, browserName, major, table.keys));
            Contains(m, browserName) && Contains(m, major) && Contains(m, key)
  {
    var head := "failed to locate a version of the " + driverName + " that matches the installed ";
    var keys := Join(table.keys, ", ");
    var mid := " version (" + major + "), the valid " + browserName + " versions are: ";
    var m := Message(UnsupportedBrowserVersion(driverName, browserName, major, table.keys));
    assert m == head + browserName + mid + keys;
    assert mid == " version (" + major + ("), the valid " + browserName + " versions are: ");
    MessageNamesBrowser(head, browserName, mid, keys);
    MessageNamesMajor(head + browserName, major, "), the valid " + browserName + " versions are: ", keys);
    var i :| 0 <= i < |table.keys| && table.keys[i] == key;
    JoinContainsPart(table.keys, ", ", i);
    ContainsWiden(head + browserName + mid, keys, "", key);
    assert head + browserName + mid + keys + "" == m;
  }

  lemma MessageNamesBrowser(head: string, browserName: string, mid: string, keys: string)
    ensures Contains(head + browserName + mid + keys, browserName)
  {
    ContainsMiddle(head, browserName, mid + keys);
    assert head + browserName + mid + keys == head + browserName + (mid + keys);
  }

  lemma MessageNamesMajor(front: string, major: string, rest: string, keys: string)
    ensures Contains(front + (" version (" + major + rest) + keys, major)
  {
    ContainsMiddle(front + " version (", major, rest + keys);
    assert front + (" version (" + major + rest) + keys == (front + " version (") + major + (rest + keys);
  }
}
