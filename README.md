# browser-driver-installer in Dafny

This project models the core of browser-driver-installer, a Node.js package that installs the
WebDriver binary (chromedriver or geckodriver) matching an installed Chrome or Firefox, and proves
properties of that model.

It covers two source files.

- `installer.js`:
  - input validation and the platform check;
  - the case-insensitive choice of driver;
  - extraction of the major browser version;
  - the lookup in the browser-to-driver version table and its fallbacks;
  - the inspector that decides whether the installed driver already has the wanted version;
  - the orchestrator that downloads, unpacks and makes the driver executable;
  - the download URLs, archive names and request options;
  - the chunk loop that writes a download to disk.
- `runNpmChildProcess.js`:
  - the flags appended to the caller's npm argument array;
  - the handlers of one npm child process (captured output, exit code, spawn error, failure details);
  - the countdown that retries a failed attempt.

Modules:

- `Common`: `Option`/`Result`, JavaScript truthiness, `Array.join`, ASCII lower-casing, digit strings.
- `Failures`: every error the installer raises. Errors the installer writes itself carry their exact
  message text; for `OpenFailed`, `ExtractionFailed` and `ChmodFailed` the model keeps only the path
  the failing call was given (see "## Left out").
- `Resolver`: `browserDriverInstaller` up to the call of `installBrowserDriver`. It is a pure function
  from the arguments, the platform, the architecture and the version table to an install request or an error.
- `Requests`: download URLs, archive names and `prepareHttpGetRequest` over an environment map.
- `Files`: the filesystem as a map from path to entry (a directory, or a file with a mode and bytes).
  It holds the `shelljs`/`fs` operations on that map, and a `FileSystem` class whose methods change
  the map in place.
- `Download`: `downloadFile`. It is a method with a loop over the response's chunks, proved against
  a specification function.
- `Installer`: `doesDriverAlreadyExist`, `installBrowserDriver`, `installChromeDriver`,
  `installGeckoDriver`, the two package downloads and `browserDriverInstaller`. Each is a module-level
  method that takes a `FileSystem` object and changes its entries in place. Its `ensures` gives the
  result and the new filesystem as a specification function of the old one. The lemmas about those functions state idempotence, the inspector's behaviour, the
  state after an install and the frame.
- `NpmRunner`: `runNpmChildProcess`, `retryNpmProcessIfItFails`, `createNpmChildProcess` and the
  failure-details builder. These are methods proved against specification functions. The event
  handlers of a child process are a function over the sequence of events it emits.

The collaborators the code calls are parameters of the model:

- the HTTP transport (a function from request options to a response body or to data chunks);
- `extract-zip`/`tar` (a function from archive bytes to the extracted binary);
- `<driver> --version` with its regex (a function from the binary to a version string);
- `process.env`, `process.platform`, `process.arch` and `detectMocha()`;
- the spawned npm process (the sequence of events it emits);
- `new Error().stack`.

The model follows the code in these points, where a reader might expect otherwise:

- There is no special path for Chrome majors above 114. A Chrome major above 72 that the table
  lacks always becomes the marker `LATEST_RELEASE_<major>`.
- The inspector compares the probed version with the expected one as exact strings. It does not
  compare release prefixes. An expected `LATEST_RELEASE_` marker therefore never matches a probed
  version, and such an install is never reported as already in place: it is redone on every run
  unless the probe of an existing binary fails (`Installer.LatestReleaseIsNeverSatisfied`).
- `MAX_RETRY_COUNT` is 1, so there is exactly one attempt and no retry
  (`NpmRunner.NoRetryWithTheDefaultBudget`).
- A non-zero exit code never rejects the attempt. Under mocha it is logged. Otherwise it is thrown
  from the exit handler and ends the process, even when the attempt had already been rejected; the
  retry then reports `Crashed` and makes no further attempt. Only a spawn error rejects, and so only a spawn error
  can lead to a retry (`NpmRunner.RetryFollowsOnlyASpawnError`).
- A failing `--version` probe is not treated as "not installed". Its error propagates out of the
  installer (`Failures.VersionProbeFailed`).

With a retry budget above 1, a rejection that comes after a retry is not passed on to the caller.
`retryNpmProcessIfItFails` chains the retry with `.then` and no rejection handler. The model keeps
this as the `surfaced` flag of `NpmRunner.RetryOutcome`, which is true only when the first attempt
is the one that failed.

The failure details put the blank line that separates the two streams before the `stderr=` section,
not between the two sections, because the code prefixes `"\n"` to the details built so far.
`NpmRunner.Details` states this layout.

## Model

| member | source | states |
|---|---|---|
| Failures.UnsupportedNameListsValidNames | installer.js:47-51 | the invalid-name error quotes the name as given and ends with the valid names "chrome, firefox" |
| Failures.UnsupportedPlatformNamesBoth | installer.js:86 | the unsupported-platform message contains the platform and the architecture found |
| Resolver.CheckIfSupportedPlatform | installer.js:79-88 | passes exactly on platform `linux` with arch `x64`; otherwise the error message names both values found |
| Resolver.BrowserNameIsCaseInsensitive | installer.js:35-52 | a name selects Chrome iff it equals "chrome" ignoring case, Firefox iff it equals "firefox" ignoring case, and nothing otherwise |
| Resolver.LeadingDigits | installer.js:262-267 | the result is a prefix of the input, all digits, and maximal: the next character, if any, is not a digit |
| Resolver.MajorBrowserVersion | installer.js:253-268 | a non-string fails naming its type; a string succeeds iff it starts with a digit, with the maximal leading run of digits; otherwise it fails naming the string |
| Resolver.ResolveRequest | installer.js:21-77 | check order: non-string arguments fail first, then an unsupported platform (whatever the name), then an invalid name (before any version parsing); success carries the driver of the chosen browser and the target path |
| Resolver.UnparsableVersionIsRefused | installer.js:54 | with a valid name and platform, a version not starting with a digit (including "") fails with the version-format error |
| Resolver.TableHitIsVerbatim | installer.js:54-56 | `ResolveDriverVersion`: a non-empty table entry for the major version is the driver version, unchanged |
| Resolver.ChromeMissUsesLatestRelease | installer.js:56-62 | `ResolveDriverVersion`: a Chrome major above 72 that the table lacks or maps to "" resolves to "LATEST_RELEASE_" followed by the major |
| Resolver.FirefoxMissUsesSixty | installer.js:63-67 | `ResolveDriverVersion`: a Firefox major above 60 that the table lacks or maps to "" resolves to the table's entry for "60", undefined when it has none |
| Resolver.OtherMissFails | installer.js:68-73 | `ResolveDriverVersion`: any other miss fails with the driver name, the browser name as given, the major version and the table's keys |
| Resolver.OnlyTheMajorVersionMatters | installer.js:54-55 | two versions with the same leading digits resolve identically |
| Resolver.FirefoxNewerResolvesLikeSixty | installer.js:63-67 | every unmapped Firefox major above 60 resolves exactly like Firefox 60 when the table has an entry for 60 |
| Resolver.ChromeMarkerCarriesMajor | installer.js:58-62 | a Chrome miss that resolves gives a marker that starts with "LATEST_RELEASE_" and ends with the major, and that major is above 72 |
| Resolver.UnsupportedVersionMessageIsComplete | installer.js:70-72 | the unsupported-version message contains the browser name, the major version and every key of the table |
| Requests.ChromeDownloadUrlRoundTrip | installer.js:127-145 | the version can be read back from the chromedriver download URL, and the URL ends with "/chromedriver_linux64.zip" |
| Requests.ChromeUrlVersionInverse | installer.js:145 | every URL from which a version can be read is the download URL of that version |
| Requests.GeckoDownloadUrlRoundTrip | installer.js:187-190 | the version can be read back from the geckodriver download URL, where it appears in both the release directory and the file name |
| Requests.GeckoDownloadUrlEndsWithFileName | installer.js:188-190 | the geckodriver URL ends with "/" followed by the archive's file name |
| Requests.GeckoUrlVersionInverse | installer.js:190 | every URL from which a version can be read is the geckodriver download URL of that version |
| Requests.PrepareHttpGetRequest | installer.js:270-290 | a GET of the URL; the proxy is npm_config_proxy if truthy, else npm_config_http_proxy if truthy, else absent; the user agent is npm_config_user_agent when truthy |
| Files.RemoveTree | installer.js:114 | `rm -rf`: exactly the path and everything below it are gone, and every other entry is unchanged |
| Files.RemoveFile | installer.js:236 | `shell.rm`: a file is removed; a directory or a missing path leaves the map exactly as it was; no other path changes |
| Files.MakeDirs | installer.js:215 | `mkdir -p`: nothing present changes; new entries are directories on the way to the path; unless the path exists or a file is in the way, the path and all its ancestors exist afterwards; an existing path or a file in the way leaves the map exactly as it was |
| Files.Chmod | installer.js:239 | fails exactly on a missing path; on a file it sets the mode and keeps the contents; on a directory it changes nothing |
| Files.FileSystem.RemoveRecursively | installer.js:114 | the new entries are `RemoveTree` of the old ones |
| Files.FileSystem.Remove | installer.js:236 | the new entries are `RemoveFile` of the old ones |
| Files.FileSystem.MakeDirectories | installer.js:215 | the new entries are `MakeDirs` of the old ones |
| Files.FileSystem.OpenForWrite | installer.js:159 | the open succeeds exactly when the directory exists and the path is not a directory; the file is then empty and keeps its mode |
| Files.FileSystem.Append | installer.js:168 | the data is added at the end of the file and its mode is kept |
| Files.FileSystem.Put | installer.js:233-235 | the extractor places the given entry at the path |
| Files.FileSystem.ChangeMode | installer.js:239 | succeeds exactly when the path exists; the new entries are `Chmod` of the old ones |
| Download.ConcatLength | installer.js:166-169 | the written file's length is the total length of the chunks |
| Download.ProgressBounds | installer.js:157-175 | after any number of chunks, `count` is the bytes received, `notifiedCount <= count`, and `count - notifiedCount <= 800000` |
| Download.WriteChunks | installer.js:166-175 | the loop over the chunks leaves the opened file holding their in-order concatenation with its mode kept, and the counters equal `ProgressAfter` of the chunks |
| Download.DownloadFile | installer.js:150-183 | the file holds the in-order concatenation of the chunks, also after a transport error; the error becomes "Error downloading file: …"; the result and new filesystem are `FileDownload`'s and the counters equal `ProgressAfter` of the chunks |
| Installer.InspectionCases | installer.js:94-116 | a missing target directory or binary gives false with nothing changed; a failed probe gives `VersionProbeFailed` with nothing changed; a binary reporting another version gives false with that binary's path removed |
| Installer.InspectionTouchesOnlyTheBinary | installer.js:90-123 | the inspector is satisfied iff the target and binary exist and the probe reports exactly the expected version; it then changes nothing; otherwise it removes at most the binary's path |
| Installer.SatisfiedInstallIsNoOp | installer.js:207-212 | an install whose binary reports the expected version returns false and leaves the filesystem unchanged |
| Installer.MismatchedBinaryIsReplaced | installer.js:108-116 | a binary reporting another version is removed, the install runs on what is left, and the result is never "nothing to do" |
| Installer.LatestReleaseIsNeverSatisfied | installer.js:108-116 | an expected "LATEST_RELEASE_" marker never equals a probed version, so `Installation` never reports the driver as already in place: it reinstalls, or fails when the probe of an existing binary fails |
| Installer.ArchiveIsNotTheBinary | installer.js:236-239 | the archive path and the binary path differ |
| Installer.DownloadReportsArchive | installer.js:125-148 | a successful package download reports `<target>/<archive name>`, the target was a directory, and only the archive entry changed, now a file |
| Installer.DownloadTouchesOnlyArchive | installer.js:125-193 | a package download changes no path except the archive's |
| Installer.UnpackingTouchesOnlyBinaryAndArchive | installer.js:231-250 | extraction, archive removal and chmod change no path except the binary and the archive |
| Installer.AcquisitionLeavesExecutable | installer.js:214-250 | after a successful install, the binary is a file with mode 755, the archive is gone and the target is a directory |
| Installer.InstallationLeavesExecutable | installer.js:207-251 | the same holds for `installBrowserDriver` whenever it returns true |
| Installer.AcquisitionStaysInTarget | installer.js:214-250 | creating the target and installing into it leave every entry outside the target unchanged |
| Installer.InstallationIsIdempotent | installer.js:207-227 | once an install put a binary reporting the requested version in place, the same call returns false and changes nothing |
| Installer.InstallerRunIsIdempotent | installer.js:21-77 | a second `browserDriverInstaller` call with the same arguments returns false and changes nothing |
| Installer.InstallationStaysInTarget | installer.js:207-251 | every entry outside the target directory is unchanged by an install, whatever its outcome |
| Installer.DoesDriverAlreadyExist | installer.js:90-123 | the in-place inspector returns and leaves what `Inspection` gives for the old filesystem |
| Installer.DownloadChromeDriverPackage | installer.js:125-148 | undefined version fails; a marker is exchanged for the release endpoint's body before the download; the result and the new filesystem are `ChromePackageDownload`'s |
| Installer.DownloadGeckoDriverPackage | installer.js:185-193 | the result and new filesystem are `GeckoPackageDownload`'s |
| Installer.ExtractDriver | installer.js:231-250 | extract, remove the archive, chmod 755, each failure surfacing as its error; the result and new filesystem are `Unpacking`'s |
| Installer.InstallChromeDriver | installer.js:229-240 | the result and new filesystem are `PackageInstallation`'s for chromedriver |
| Installer.InstallGeckoDriver | installer.js:242-251 | the result and new filesystem are `PackageInstallation`'s for geckodriver |
| Installer.InstallBrowserDriver | installer.js:207-227 | the result and new filesystem are `Installation`'s: false when satisfied, true after mkdir and install |
| Installer.BrowserDriverInstaller | installer.js:21-77 | the result and new filesystem are `InstallerRun`'s: `ResolveRequest`, then `Installation` of the resolved request |
| NpmRunner.ThrownIsFinal | runNpmChildProcess.js:103-106 | once the exit handler has thrown, no later event changes anything |
| NpmRunner.SettlementIsFinal | runNpmChildProcess.js:70-113 | once an attempt settled, later events do not change how |
| NpmRunner.ResolvesOnlyOnExitZero | runNpmChildProcess.js:70-75 | an attempt resolves only if npm exited with code 0 |
| NpmRunner.RejectsOnlyOnSpawnError | runNpmChildProcess.js:110-113 | an attempt rejects only on a spawn error, with that error's reason; a non-zero exit never rejects |
| NpmRunner.FirstSettlingEventDecides | runNpmChildProcess.js:70-113 | the first settling event decides the attempt: exit 0 resolves, a spawn error rejects with its reason |
| NpmRunner.CapturedOutput | runNpmChildProcess.js:53-68 | the captured stderr and stdout are the in-order concatenations of their chunks |
| NpmRunner.NonZeroExitIsReported | runNpmChildProcess.js:76-107 | a non-zero exit reports the command line, the code and the captured output; it is logged under mocha and thrown otherwise, and it does not settle the attempt |
| NpmRunner.DetailsEmptyWithoutOutput | runNpmChildProcess.js:78-94 | the details are empty exactly when both streams are empty |
| NpmRunner.DetailsShowStderr | runNpmChildProcess.js:79-82 | non-empty stderr appears in the details under "stderr=" |
| NpmRunner.DetailsShowStdout | runNpmChildProcess.js:83-90 | non-empty stdout appears in the details under "stdout=", at their end |
| NpmRunner.RetryCountdown | runNpmChildProcess.js:21-47 | at most the budget of attempts; every attempt before the last was rejected without a throw; the run crashes iff the last attempt's exit handler threw (runNpmChildProcess.js:105), with that message; otherwise success iff the last attempt resolved; failure only after the whole budget, with the last reason then "\nfailed at " and the stack; the caller sees it only when it came from the first attempt |
| NpmRunner.RetryFollowsOnlyASpawnError | runNpmChildProcess.js:30-35 | an attempt is retried only if its process reported a spawn error |
| NpmRunner.NoRetryWithTheDefaultBudget | runNpmChildProcess.js:7-18 | with MAX_RETRY_COUNT there is exactly one attempt, and its failure reaches the caller |
| NpmRunner.FailureDetails | runNpmChildProcess.js:78-94 | the details built by successive reassignment equal the declarative layout |
| NpmRunner.CreateNpmChildProcess | runNpmChildProcess.js:49-113 | the handler loop over the emitted events yields the attempt `AttemptAfter` gives |
| NpmRunner.RetryNpmProcessIfItFails | runNpmChildProcess.js:21-47 | the countdown loop yields the outcome `RetryFrom` gives, including `Crashed` when an attempt's exit handler threw |
| NpmRunner.ArgList.Push | runNpmChildProcess.js:13 | the new items are the old ones followed by the pushed ones |
| NpmRunner.RunNpmChildProcess | runNpmChildProcess.js:11-19 | the caller's array keeps its items, gains the three fixed flags in order, then "--cache=<path>" only when the cache path is truthy; the run uses MAX_RETRY_COUNT |

## Left out

- index.js is not part of this model. It only parses command-line arguments and calls the installer.
- Real I/O is not modelled. HTTP, zip and tar extraction, `execSync` and the process environment are parameters. Extraction yields only the driver binary; other archive entries are not modelled.
- The version regexes of the `--version` probe (installer.js:15-17) are inside the probe parameter.
- Console logging is not modelled, including the `Received …K` progress text and the `Math.floor(count / 1024)` it prints. Only the counters are modelled.
- `path.resolve` normalisation is not modelled. The target path is taken as already absolute and normalised, and joining is `dir + "/" + name`.
- The contents of browserVersion2DriverVersion.json are not modelled. The table is an input, with its keys in `Object.keys` order.
- `toLowerCase` is modelled for ASCII letters only. The result is exact for the comparison with "chrome" and "firefox".
- The umask is not modelled. A file created by `fs.openSync` gets mode 0o644.
- Asynchrony is not modelled. Each awaited step runs to completion before the next, as the code awaits them.
- The 600000 ms spawn timeout is not modelled. A process it ends appears as an exit without a code (printed "null").
- The process-wide `unhandledRejection` handler (runNpmChildProcess.js:115-121) is not modelled. A rejection after a retry is only marked as not surfaced.
- NpmRunner.RetryNpmProcessIfItFails: requires a budget of at least 1. With a smaller budget the countdown in the code never reaches zero and retries until an attempt does not reject; the only caller passes 1.
- Resolver.CheckIfSupportedPlatform: the platform and architecture are parameters instead of `process.platform` and `process.arch`.
- Failures.Message: for `OpenFailed`, `ExtractionFailed` and `ChmodFailed` the message is only the path the failing call was given. The code passes on the text that `fs.openSync`, `extract-zip`/`tar` and `fs.chmodSync` throw (installer.js:159, 234, 239, 246 and 250), which comes from Node.js and those libraries and is not modelled.
- Installer.Unpacking: a successful extraction always writes the driver binary. An archive that extracts but holds no `chromedriver`/`geckodriver` entry is not modelled, so the chmod failure it causes in the code (installer.js:239 and 250) is reached in the model only when the archive path is the binary path, which no package download produces.
- Installer.DoesDriverAlreadyExist: a probe that throws is modelled as an error result. Its message is reduced to the command that failed.
