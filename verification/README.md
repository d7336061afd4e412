# DeviceInfo decision layer, in Dafny

DeviceInfo is a single-page diagnostics script (`script.js`). It reads browser
and platform properties, queries an IP-geolocation service, and probes the
attached cameras. It then renders the results into four panels and a camera
output region. Almost all of the script is DOM writes and browser API calls.
This project models the deterministic rules woven through that plumbing, as
pure functions over plain input values:

- **Browser identification.** `getBrowserName` is a first-match-wins chain of
  case-sensitive substring tests. `getBrowserVersion` runs a name-specific
  `Prefix(\d+\.\d+)` regular expression and reads capture group 1
  (module `UserAgent`).
- **Device type.** `getDeviceType` runs two case-insensitive token
  alternations: tablet tokens first, then mobile tokens, and anything else is
  Desktop (module `UserAgent`).
- **Battery tier.** `createBatteryElement` maps the integer battery level to
  `battery-low`, `battery-medium` or `battery-high`. The same level drives
  the bar width and the caption (module `Battery`).
- **Panel rows.** The device panel has 10 fixed rows, one battery row and the
  camera control, in that order. The network panel has 5 rows and the
  location panel 6. These panels use the JavaScript `value || 'N/A'`
  fallback and show a single error row on failure. Every render clears its
  container and refills it (module `Panels`, with JavaScript values and
  truthiness in `JsValues`).
- **Camera report.** `getCameraResolutions` filters the enumerated devices to
  video inputs. It then probes them one after another, and each device
  contributes a titled block of capability lines or an error line
  (module `Camera`).

Browser APIs become inputs:

- The user-agent string is a `string`.
- The `navigator`/`screen` properties form a `DeviceSnapshot`.
- The battery query is a `BatteryProbe`: unsupported, rejected or resolved.
- The geolocation response is a `GeoFetch`: failed, or a `GeoRecord` of
  JavaScript values.
- The media-device calls become an `Enumeration` plus a list of `Access`
  outcomes, one per video input in order: denied, opened but unreadable, or
  granted with capabilities. The list is arbitrary, so an outcome may depend
  on what earlier iterations did. The loop's `getUserMedia` calls and track
  stops are recorded as one ordered trace of `Request` and `Release` events.

A JavaScript number shown in a panel row or a camera line is carried by its
`String(x)` rendering. That is all the page does with those values, and it
keeps truthiness exact: `String(0)` and `String(-0)` are both `"0"`. The
battery level arrives already rounded to an integer percentage, and the heap
sizes arrive already formatted.

Two modelling choices about regular expressions:

- **The `i` flag is ASCII lower-casing.** This is exact for these
  all-ASCII tokens. Without the `u` flag, JavaScript's case canonicalisation
  never maps a non-ASCII character onto an ASCII one.
- **`\s` is the full JavaScript WhiteSpace and LineTerminator set.**

For the version pattern, a match at an index means: the prefix, then a
maximal non-empty digit run, a dot, and a non-empty digit run. A greedy
`\d+` cannot give back digits and still meet the dot, so this is exact. The
match used is the one at the leftmost index, as `String.prototype.match`
picks it.

Two behaviours of the code are kept as written:

- The camera stream is released only when its capabilities were read. If
  reading them throws after the stream opened, the catch branch runs and the
  tracks are never stopped, so that stream is still open while the next
  device is asked for one.
- A browser whose version pattern is absent makes `getBrowserVersion`
  throw. The code does not fall back to "Unknown". This happens for common
  agents: Chrome and Firefox on iOS are named Safari but carry no
  `Version/` tag.

## Model

| member | source | states |
|---|---|---|
| `UserAgent.BrowserName` | script.js:207-222 | Any agent containing "Chrome" is Chrome, whatever else it contains; any other reported name has its own token in the agent |
| `UserAgent.BrowserNamePrecedence` | script.js:207-222 | The reported browser is identified by the agent, and no browser earlier in the order Chrome, Safari, Firefox, Internet Explorer ("MSIE" or "Trident"), Edge, Opera is; the result is Unknown exactly when none of the tokens occurs |
| `UserAgent.BrowserNameIsFirstMatch` | script.js:207-222 | The if/else chain equals a first-match scan of the precedence table, so the result is always one of the seven fixed names |
| `UserAgent.DigitRun` | script.js:232 | A greedy `\d+`: the run consists of digits and is followed by a non-digit or the end of the string |
| `UserAgent.NumberAt` | script.js:232 | `\d+\.\d+` matched at an index: the capture has the shape digits.digits, occurs at that index and is not followed by a further digit |
| `UserAgent.NumberAtComplete` | script.js:232 | Conversely, whenever digits, a dot and digits occur at an index, `\d+\.\d+` matches there, and its capture reaches at least to the end of those digits |
| `UserAgent.CaptureAt` | script.js:241 | The IE alternation ("MSIE " or "rv:") tried at one index matches exactly when one of its alternatives followed by digits.digits does, and the capture has the version shape |
| `UserAgent.CaptureAtFirstAlternative` | script.js:241 | When alternative `k` is the first that matches at an index, the alternation's capture is the number after alternative `k` |
| `UserAgent.LeftmostMatch` | script.js:232-247 | The index found is one where the pattern matches, and it matches at no earlier index; no index is found only when it matches nowhere |
| `UserAgent.MatchVersion` | script.js:232-247 | `match(...)` is null exactly when the pattern matches at no index; otherwise the capture has the digits.digits shape and is the capture at the leftmost index where the pattern matches |
| `UserAgent.BrowserVersion` | script.js:225-252 | The version is "Unknown" exactly when the name is Unknown; otherwise it is the capture at the leftmost index where the browser's prefix pattern matches |
| `UserAgent.VersionUndefinedExample` | script.js:232 | A Chrome-named agent without `Chrome/x.y` (here the bare agent "Chrome") reads a null match, so it lies outside the version precondition; the real agents excluded this way are in `ChromeOnIosHasNoVersion` and `FirefoxOnIosHasNoVersion` |
| `UserAgent.SafariWithoutVersionTag` | script.js:207-236 | An agent that contains "Safari" but neither the letter `m` nor `V` is named Safari and has no defined version |
| `UserAgent.ChromeOnIosHasNoVersion` | script.js:209-235 | The Chrome-on-iOS agent (`CriOS/120.0.6099.119`) is named Safari, and its version lookup reads a null match |
| `UserAgent.FirefoxOnIosHasNoVersion` | script.js:209-235 | The Firefox-on-iOS agent (`FxiOS/121.0`) is named Safari, and its version lookup reads a null match |
| `UserAgent.GetDeviceType` | script.js:196-205 | Tablet exactly when a tablet token occurs case-insensitively; Mobile exactly when no tablet token does but a mobile token (or `windows\sce`) does; Desktop otherwise |
| `UserAgent.DeviceTypeIgnoresCase` | script.js:198-201 | Changing the ASCII letter case of the agent, including lower-casing it first, never changes the device type |
| `UserAgent.OperaAgentIsMobile` | script.js:201 | An agent that contains "opera" in any letter case, and no tablet token, is Mobile |
| `UserAgent.OperaBrowserIsNotDesktop` | script.js:196-222 | An agent the browser test calls Opera is never classified Desktop |
| `JsValues.Or` | script.js:143 | The JavaScript `or` of `v` and a fallback yields `v` when it is truthy and the fallback otherwise; the result is truthy exactly when at least one operand is |
| `JsValues.OrNA` | script.js:143-147 | A truthy field is kept; every falsy field, `0`, `NaN` and `""` included, becomes "N/A"; the result is never falsy |
| `JsValues.ZeroAndEmptyBecomeNA` | script.js:173-178 | The number 0, NaN and the empty string all render as "N/A", while a non-zero number is kept |
| `Battery.TierOf` | script.js:95-97 | Low exactly when the level is at most 20, medium exactly when it is in (20, 50], high exactly when it is above 50 |
| `Battery.TierMonotonic` | script.js:95-97 | A higher level never gets a lower tier |
| `Battery.BatteryElement` | script.js:94-106 | The bar width and the "%" caption both show the given level, the class name is battery-low/medium/high according to the tier bounds, and the status text is kept |
| `Panels.AppendEachAppends` | script.js:58-66 | Appending the rows one by one in `forEach` order appends the whole list after the existing items |
| `Panels.Fill` | script.js:57-66 | After clearing and appending, the container holds exactly the rows, whatever it held before |
| `Panels.DeviceMemoryText` | script.js:69-74 | "Not available" exactly when `navigator.deviceMemory` is missing; otherwise the value followed by " GB" |
| `Panels.MemoryUsageText` | script.js:76-85 | "Not available" exactly when `performance.memory` is missing |
| `Panels.BatteryCellOf` | script.js:33-49 | The three battery outcomes are mutually exclusive: a resolved query gives the battery element for its level and charge state, a rejected one "Not available", a missing `getBattery` "Not supported" |
| `Panels.DeviceRows` | script.js:19-55 | 12 rows with the fixed label order; exactly one "Battery Status" row, at index 10, holding the battery outcome; the camera control last; the ten rows before it hold plain values |
| `Panels.DeviceRowValues` | script.js:19-30 | Each fixed row's value: the platform and pixel ratio as read, the agent's device type, the device-memory and memory-usage texts, both sizes as `w × h`, the colour depth in bits, Yes/No for touch, and the core count through `|| 'N/A'` |
| `Panels.BatteryOnlyDecidesItsRow` | script.js:32-55 | The battery query changes nothing but the battery row, and that row differs exactly when the battery values differ |
| `Panels.FalsyConcurrencyShowsNA` | script.js:28 | A missing or zero `hardwareConcurrency` shows "N/A" |
| `Panels.ShowDevice` | script.js:57-66 | After `getDeviceInfo` the panel holds exactly the device rows, independent of its previous contents |
| `Panels.NetworkRows` | script.js:142-148 | Five rows labelled IP Address, ISP, ASN, Timezone, UTC Offset, each showing its field when truthy and "N/A" otherwise |
| `Panels.LocationRows` | script.js:172-179 | Six rows labelled Country, Region, City, Postal Code, Latitude, Longitude, each showing its field when truthy and "N/A" otherwise |
| `Panels.ShowNetwork` | script.js:138-162 | On failure the panel holds exactly one error row reading "Failed to load network information"; on success exactly the five field rows, whatever it held before |
| `Panels.ShowLocation` | script.js:168-193 | On failure the panel holds exactly one error row reading "Failed to load location information"; on success exactly the six field rows, whatever it held before |
| `Panels.FieldRowsNeverFalsy` | script.js:143-178 | No network or location row ever shows a falsy value, and a successful network render contains no "Error" row |
| `Panels.RefreshIsIdempotent` | script.js:7-12 | Refreshing re-renders without duplicating rows: rendering twice gives what rendering once into any container gives |
| `Camera.VideoInputs` | script.js:277 | Every kept device is a `videoinput` from the enumeration, and every `videoinput` of the enumeration is kept |
| `Camera.VideoInputsAppend` | script.js:277 | The filter keeps enumeration order: it distributes over concatenation |
| `Camera.CapabilityLinesShape` | script.js:297-308 | Max and Min lines appear exactly when both width and height are present, and first, with the maxima and minima; a frame-rate line exactly when frameRate is present; a facing line exactly when facingMode is present; lines in source order; never the error line |
| `Camera.Title` | script.js:287 | The block title is the device label, or "Unnamed Camera" when the label is empty |
| `Camera.CameraBlocks` | script.js:284-316 | One block per video input, in order; block `i` has device `i`'s title and the lines of outcome `i` |
| `Camera.SweepHtml` | script.js:284-318 | The loop's accumulated HTML is the previous text followed by every device's block, in enumeration order |
| `Camera.SweepTrace` | script.js:286-316 | The loop's media calls are the earlier calls followed by each device's own calls, in enumeration order |
| `Camera.TraceRequests` | script.js:286-292 | A stream is requested from every video input, in order |
| `Camera.TraceReleases` | script.js:294-310 | Tracks are stopped for exactly the devices whose capabilities were read, in order |
| `Camera.TraceReleasesInTurn` | script.js:288-310 | Every track stop directly follows the request for the same device: a readable device's stream is stopped before the next device is asked for one |
| `Camera.UnreadableStreamStaysOpen` | script.js:288-314 | An unreadable first device is never released: the second device is requested while the first stream is open, and only the second is released |
| `Camera.CameraCalls` | script.js:271-322 | A completed report requested a stream from every video input, stopped exactly the readable ones, and stopped each right after its own request |
| `Camera.CameraResolutions` | script.js:271-322 | A failed enumeration shows "Error accessing camera information" and makes no media call; no video input shows exactly "No camera devices found" and makes no media call; otherwise the output is every video input's block in order, and the calls are every device's request and, when readable, release, in order |
| `Camera.DeviceFailureIsIsolated` | script.js:286-316 | Whatever one device's outcome, the devices before and after it are reported from their own outcomes exactly as without it |
| `Camera.FailedBlockHtml` | script.js:287-315 | A refused or unreadable device renders its title, the permission-denied line and the trailing `<br>` |
| `Camera.GrantedThenFailed` | script.js:284-318 | First camera readable, second refused or unreadable: the output is the first block then the second camera's error block; the calls are request and release of the first, then the request of the second |
| `Camera.ReleasedWereRequested` | script.js:290-310 | Only devices a stream was requested from are released; when every device is readable, all are released |

## Left out

- DOM output: rows are (label, value) records, and the battery element is a
  record rather than HTML. The camera report is kept as its HTML string,
  because the source builds it by string concatenation.
- Network and browser APIs: `fetch`, JSON parsing, `getBattery`,
  `enumerateDevices`, `getUserMedia`, `getCapabilities` and track stopping
  are foreign asynchronous calls. Their results are tagged input values.
  Failure of the fetch, of the JSON parse, or a JSON `null` body (whose field
  read throws) are all `FetchFailed`.
- Floating-point numerics: `getMemoryUsage` divides by 1048576 with
  `toFixed(2)`, the battery level is `Math.round(level * 100)`, and
  `devicePixelRatio` is a float. The formatted texts and the integer level
  are inputs.
- `getBrowserInfo` is not part of this model. This is the browser panel's
  eight rows: Browser Name, Browser Version and User Agent (whose values the
  model does cover), then the language, cookies, do-not-track, online and
  Java flags.
- The camera region's loading spinner (script.js:273) is an intermediate
  state. Only the final contents are modelled.
- `showToast` timing, the `DOMContentLoaded` and click wiring, and the
  concurrent firing of the four probes. These are event-loop behaviour,
  apart from the consequence of the version throw noted under
  UserAgent.BrowserVersion below.
- Camera.DeviceFailureIsIsolated: the report is isolated per device given
  the outcomes, but the outcomes themselves are inputs. A stream left open by
  an unreadable device (script.js:310 is skipped) may make a later
  `getUserMedia` fail; the model admits such an outcome list but does not
  predict it, because that depends on the browser and the hardware.
- UserAgent.BrowserVersion: the source throws when the browser is
  identified but its version pattern is absent. This is a precondition
  (`VersionDefined`), not a modelled exception. The precondition excludes
  common real agents: Chrome and Firefox on iOS (see
  `ChromeOnIosHasNoVersion` and `FirefoxOnIosHasNoVersion`). The throw is
  not confined to the browser panel. `getBrowserInfo` runs synchronously in
  the `DOMContentLoaded` listener (script.js:3), so the throw ends that
  listener before `getNetworkInfo` and `getLocationInfo` (script.js:4-5) and
  before the Refresh button's handler is registered (script.js:7). For such
  an agent the network and location panels are never filled and keep the
  page's initial markup, and the Refresh button does nothing. The model does
  not cover this.
