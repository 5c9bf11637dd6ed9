/** The errors browserDriverInstaller throws or rejects with, and the text each carries. */
module Failures {
  import opened Common

  const ChromeBrowserName := "chrome"
  const FirefoxBrowserName := "firefox"
  const ValidBrowserNames := [ChromeBrowserName, FirefoxBrowserName]

  datatype Failure =
    | InvalidArguments
    | UnsupportedPlatform(platform: string, arch: string)
    | UnsupportedBrowserName(browserName: string)
    | InvalidVersionType(typeName: string)
    | InvalidVersionFormat(browserVersion: string)
    | UnsupportedBrowserVersion(driverName: string, browserName: string, major: string, validVersions: seq<string>)
      // running `<driver> --version` failed or its output did not match the version pattern
    | VersionProbeFailed(driverPath: string)
      // `startsWith` called on an undefined driver version
    | UndefinedDriverVersion
    | ReleaseQueryFailed(reason: string)
      // fs.openSync of the archive path failed
    | OpenFailed(path: string)
    | DownloadFailed(reason: string)
    | ExtractionFailed(archivePath: string)
    | ChmodFailed(path: string)

  /** The message of the thrown Error, for the errors whose text the installer writes itself.
      A request error keeps the reason the transport gave; for a failed open, extraction or chmod
      the model keeps only the path the call was given, not the text Node.js or the library throws. */
  function Message(f: Failure): string
  {
    match f
    case InvalidArguments => "the parameters are not valid strings"
    case UnsupportedPlatform(platform, arch) =>
      "Unsupported platform/architecture: " + platform + " " + arch + ". Only Linux x64 systems are supported"
    case UnsupportedBrowserName(name) =>
      "\"" + name + "\" is not a valid browser name, the valid names are: " + Join(ValidBrowserNames, ", ")
    case InvalidVersionType(typeName) =>
      "invalid type for the 'browserVersionString' argument, details: expected a string, found " + typeName
    case InvalidVersionFormat(version) =>
      "unable to extract the browser version from the '" + version + "' string"
    case UnsupportedBrowserVersion(driverName, browserName, major, valid) =>
      "failed to locate a version of the " + driverName + " that matches the installed " + browserName
      + " version (" + major + "), the valid " + browserName + " versions are: " + Join(valid, ", ")
    case VersionProbeFailed(path) => path + " --version"
    case UndefinedDriverVersion => "Cannot read properties of undefined (reading 'startsWith')"
    case ReleaseQueryFailed(reason) => reason
    case OpenFailed(path) => path
    case DownloadFailed(reason) => "Error downloading file: " + reason
    case ExtractionFailed(path) => path
    case ChmodFailed(path) => path
  }

  /** The invalid-name error quotes the name as given and ends with the list of valid names. */
  lemma UnsupportedNameListsValidNames(name: string)
    ensures Contains(Message(UnsupportedBrowserName(name)), name)
    ensures EndsWith(Message(UnsupportedBrowserName(name)), "chrome, firefox")
  {
    var tail := "\" is not a valid browser name, the valid names are: ";
    assert Join(ValidBrowserNames, ", ") == "chrome, firefox";
    ContainsMiddle("\"", name, tail + "chrome, firefox");
    assert Message(UnsupportedBrowserName(name)) == "\"" + name + (tail + "chrome, firefox");
    assert Message(UnsupportedBrowserName(name)) == ("\"" + name + tail) + "chrome, firefox";
  }

  /** The unsupported-platform error names the platform and the architecture found. */
  lemma UnsupportedPlatformNamesBoth(platform: string, arch: string)
    ensures Contains(Message(UnsupportedPlatform(platform, arch)), platform)
    ensures Contains(Message(UnsupportedPlatform(platform, arch)), arch)
  {
    var head := "Unsupported platform/architecture: ";
    var tail := ". Only Linux x64 systems are supported";
    var m := Message(UnsupportedPlatform(platform, arch));
    assert m == head + platform + (" " + arch + tail);
    ContainsMiddle(head, platform, " " + arch + tail);
    assert m == (head + platform + " ") + arch + tail;
    ContainsMiddle(head + platform + " ", arch, tail);
  }
}
