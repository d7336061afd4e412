/**
 The label/value rows of the device, network and location panels
 (script.js `getDeviceInfo`, `getNetworkInfo`, `getLocationInfo`) and the
 way each panel's container is refilled.
 */
module Panels {
  import opened Wrappers
  import opened Text
  import opened JsValues
  import opened UserAgent
  import opened Battery

  /** What a row displays: a JavaScript value, the battery element, or the
      fixed "Check Camera Resolutions" button with its empty output region. */
  datatype Cell = Value(v: JsValue) | BatteryCell(view: BatteryView) | CameraControl

  /** One `info-item`: its label (`name`) and its value. */
  datatype Row = Row(name: string, cell: Cell)

  function Plain(s: string): Cell
  {
    Value(Str(s))
  }

  function Labels(rows: seq<Row>): (ls: seq<string>)
    ensures |ls| == |rows|
    ensures forall i :: 0 <= i < |rows| ==> ls[i] == rows[i].name
  {
    seq(|rows|, i requires 0 <= i < |rows| => rows[i].name)
  }

  // ---------------------------------------------------------------------------
  // Containers: `innerHTML = ''` followed by one `appendChild` per row
  // ---------------------------------------------------------------------------

  /** The info items currently inside a panel's container, in order. */
  type Container = seq<Row>

  /** `rows.forEach(item => container.appendChild(...))`. */
  function AppendEach(c: Container, rows: seq<Row>): Container
    decreases |rows|
  {
    if |rows| == 0 then c else AppendEach(c + [rows[0]], rows[1..])
  }

  /** Appending one by one appends the whole list, in order. */
  lemma {:induction false} AppendEachAppends(c: Container, rows: seq<Row>)
    ensures AppendEach(c, rows) == c + rows
    decreases |rows|
  {
    if |rows| > 0 {
      AppendEachAppends(c + [rows[0]], rows[1..]);
      assert c + [rows[0]] + rows[1..] == c + rows;
    }
  }

  /** Clears the container, then appends every row: what was there before is
      gone, so rendering the same rows again never duplicates them. */
  function Fill(c: Container, rows: seq<Row>): (r: Container)
    ensures r == rows
  {
    AppendEachAppends([], rows);
    AppendEach([], rows)
  }

  /** The single row a failed network or location probe leaves behind. */
  function ErrorRow(message: string): Row
  {
    Row("Error", Plain(message))
  }

  // ---------------------------------------------------------------------------
  // Device panel
  // ---------------------------------------------------------------------------

  /** `performance.memory` in MB, already formatted with `toFixed(2)`. */
  datatype HeapUsage = HeapUsage(usedMB: string, totalMB: string, limitMB: string)

  /** The platform properties `getDeviceInfo` reads synchronously. `None`
      stands for a property missing from `navigator` or `performance`. */
  datatype DeviceSnapshot = DeviceSnapshot(
    platform: JsValue,
    userAgent: string,
    deviceMemory: Option<JsValue>,
    screenWidth: JsValue,
    screenHeight: JsValue,
    innerWidth: JsValue,
    innerHeight: JsValue,
    colorDepth: JsValue,
    pixelRatio: JsValue,
    touchSupport: bool,
    hardwareConcurrency: JsValue,
    heap: Option<HeapUsage>)

  /** `getDeviceMemory()`: "<n> GB" when `navigator.deviceMemory` exists. */
  function DeviceMemoryText(m: Option<JsValue>): (s: string)
    ensures m.None? <==> s == "Not available"
    ensures m.Some? ==> s == Show(m.value) + " GB"
  {
    match m
    case Some(v) =>
      var s := Show(v) + " GB";
      assert s[|s| - 1] == 'B';
      s
    case None => "Not available"
  }

  /** `getMemoryUsage()`: used / total (limit) when `performance.memory` exists. */
  function MemoryUsageText(h: Option<HeapUsage>): (s: string)
    ensures h.None? <==> s == "Not available"
  {
    match h
    case Some(u) => u.usedMB + " MB / " + u.totalMB + " MB (Limit: " + u.limitMB + " MB)"
    case None => "Not available"
  }

  /** `${a} × ${b}`. */
  function Dimensions(a: JsValue, b: JsValue): string
  {
    Show(a) + " × " + Show(b)
  }

  const DeviceLabels: seq<string> := [
    "Platform", "Device Type", "Device Memory (RAM)", "Screen Resolution", "Viewport Size",
    "Color Depth", "Pixel Ratio", "Touch Support", "Hardware Concurrency", "Memory Usage",
    "Battery Status", "Camera Resolution Options"]

  /** The battery value: the element when the query resolved, "Not available"
      when it rejected, "Not supported" when `getBattery` does not exist. The
      three outcomes give three different values. */
  function BatteryCellOf(p: BatteryProbe): (c: Cell)
    ensures p.Resolved? <==> c.BatteryCell?
    ensures p.Resolved? ==> c.view == BatteryElement(p.level, ChargeLabel(p.charging))
    ensures p.Rejected? <==> c == Plain("Not available")
    ensures p.Unsupported? <==> c == Plain("Not supported")
  {
    match p
    case Resolved(level, charging) => BatteryCell(BatteryElement(level, ChargeLabel(charging)))
    case Rejected => Plain("Not available")
    case Unsupported => Plain("Not supported")
  }

  /** The ten rows built before any asynchronous work. */
  function FixedDeviceRows(d: DeviceSnapshot): seq<Row>
  {
    [ Row("Platform", Value(d.platform)),
      Row("Device Type", Plain(GetDeviceType(d.userAgent).Label())),
      Row("Device Memory (RAM)", Plain(DeviceMemoryText(d.deviceMemory))),
      Row("Screen Resolution", Plain(Dimensions(d.screenWidth, d.screenHeight))),
      Row("Viewport Size", Plain(Dimensions(d.innerWidth, d.innerHeight))),
      Row("Color Depth", Plain(Show(d.colorDepth) + " bits")),
      Row("Pixel Ratio", Value(d.pixelRatio)),
      Row("Touch Support", Plain(if d.touchSupport then "Yes" else "No")),
      Row("Hardware Concurrency", Value(OrNA(d.hardwareConcurrency))),
      Row("Memory Usage", Plain(MemoryUsageText(d.heap))) ]
  }

  /** The device panel's rows: the ten fixed rows in their fixed order, then
      exactly one battery row, then the camera control last. */
  function DeviceRows(d: DeviceSnapshot, battery: BatteryProbe): (rows: seq<Row>)
    ensures |rows| == 12 && Labels(rows) == DeviceLabels
    ensures forall i :: 0 <= i < |rows| ==> (rows[i].name == "Battery Status" <==> i == 10)
    ensures rows[10].cell == BatteryCellOf(battery)
    ensures rows[11].cell == CameraControl
    ensures forall i :: 0 <= i < 10 ==> rows[i].cell.Value?
  {
    var withBattery := FixedDeviceRows(d) + [Row("Battery Status", BatteryCellOf(battery))];
    withBattery + [Row("Camera Resolution Options", CameraControl)]
  }

  /** What each fixed row shows: the platform and pixel ratio as read, the
      device type of the agent, the memory texts of their helpers, the two
      sizes as `w × h`, the colour depth in bits, whether touch events exist,
      and the core count through the `|| 'N/A'` fallback. */
  lemma DeviceRowValues(d: DeviceSnapshot, b: BatteryProbe)
    ensures var rows := DeviceRows(d, b);
      && rows[0].cell == Value(d.platform)
      && rows[1].cell == Plain(GetDeviceType(d.userAgent).Label())
      && rows[2].cell == Plain(DeviceMemoryText(d.deviceMemory))
      && rows[3].cell == Plain(Dimensions(d.screenWidth, d.screenHeight))
      && rows[4].cell == Plain(Dimensions(d.innerWidth, d.innerHeight))
      && rows[5].cell == Plain(Show(d.colorDepth) + " bits")
      && rows[6].cell == Value(d.pixelRatio)
      && rows[7].cell == Plain(if d.touchSupport then "Yes" else "No")
      && rows[8].cell == Value(OrNA(d.hardwareConcurrency))
      && rows[9].cell == Plain(MemoryUsageText(d.heap))
  {
    var rows := DeviceRows(d, b);
    assert rows[..10] == FixedDeviceRows(d);
  }

  /** The battery query only decides the battery row; the other eleven rows
      are the same whatever it returns. */
  lemma BatteryOnlyDecidesItsRow(d: DeviceSnapshot, b: BatteryProbe, b': BatteryProbe)
    ensures forall i :: 0 <= i < 12 && i != 10 ==> DeviceRows(d, b)[i] == DeviceRows(d, b')[i]
    ensures DeviceRows(d, b)[10] == DeviceRows(d, b')[10] <==> BatteryCellOf(b) == BatteryCellOf(b')
  {
    var r := DeviceRows(d, b);
    var r' := DeviceRows(d, b');
    assert r[..10] == FixedDeviceRows(d) == r'[..10];
    forall i | 0 <= i < 12 && i != 10
      ensures r[i] == r'[i]
    {
      if i < 10 {
        assert r[i] == r[..10][i] && r'[i] == r'[..10][i];
      }
    }
  }

  /** A machine reporting no cores, or no `hardwareConcurrency` at all, shows "N/A". */
  lemma FalsyConcurrencyShowsNA(d: DeviceSnapshot, b: BatteryProbe)
    requires !Truthy(d.hardwareConcurrency)
    ensures DeviceRows(d, b)[8].cell == Plain("N/A")
  {
  }

  /** The device panel after `getDeviceInfo` has run, whatever it held before. */
  function ShowDevice(c: Container, d: DeviceSnapshot, battery: BatteryProbe): (r: Container)
    ensures r == DeviceRows(d, battery)
  {
    Fill(c, DeviceRows(d, battery))
  }

  // ---------------------------------------------------------------------------
  // Network and location panels
  // ---------------------------------------------------------------------------

  /** The fields of the geolocation JSON response the two panels read; a
      missing field is `Undefined`. */
  datatype GeoRecord = GeoRecord(
    ip: JsValue, org: JsValue, asn: JsValue, timezone: JsValue, utcOffset: JsValue,
    countryName: JsValue, region: JsValue, city: JsValue, postal: JsValue,
    latitude: JsValue, longitude: JsValue)

  /** What `fetch` + `response.json()` produced: a record, or a thrown error
      (network failure, a body that is not JSON, or a JSON `null`, whose
      field read throws). */
  datatype GeoFetch = FetchFailed | Fetched(data: GeoRecord)

  const NetworkLabels: seq<string> := ["IP Address", "ISP", "ASN", "Timezone", "UTC Offset"]
  const LocationLabels: seq<string> := ["Country", "Region", "City", "Postal Code", "Latitude", "Longitude"]

  /** The record fields behind each network row, in label order. */
  function NetworkFields(g: GeoRecord): seq<JsValue>
  {
    [g.ip, g.org, g.asn, g.timezone, g.utcOffset]
  }

  /** The record fields behind each location row, in label order. */
  function LocationFields(g: GeoRecord): seq<JsValue>
  {
    [g.countryName, g.region, g.city, g.postal, g.latitude, g.longitude]
  }

  /** Row `i` shows label `labels[i]` and field `fields[i]` or "N/A". */
  ghost predicate ShowsFields(rows: seq<Row>, labels: seq<string>, fields: seq<JsValue>)
  {
    && |rows| == |labels| == |fields|
    && forall i :: 0 <= i < |rows| ==>
         rows[i].name == labels[i]
         && rows[i].cell.Value?
         && (Truthy(fields[i]) ==> rows[i].cell.v == fields[i])
         && (!Truthy(fields[i]) ==> rows[i].cell.v == NotApplicable)
  }

  function NetworkRows(g: GeoRecord): (rows: seq<Row>)
    ensures ShowsFields(rows, NetworkLabels, NetworkFields(g))
  {
    [ Row("IP Address", Value(OrNA(g.ip))),
      Row("ISP", Value(OrNA(g.org))),
      Row("ASN", Value(OrNA(g.asn))),
      Row("Timezone", Value(OrNA(g.timezone))),
      Row("UTC Offset", Value(OrNA(g.utcOffset))) ]
  }

  function LocationRows(g: GeoRecord): (rows: seq<Row>)
    ensures ShowsFields(rows, LocationLabels, LocationFields(g))
  {
    [ Row("Country", Value(OrNA(g.countryName))),
      Row("Region", Value(OrNA(g.region))),
      Row("City", Value(OrNA(g.city))),
      Row("Postal Code", Value(OrNA(g.postal))),
      Row("Latitude", Value(OrNA(g.latitude))),
      Row("Longitude", Value(OrNA(g.longitude))) ]
  }

  const NetworkError: string := "Failed to load network information"
  const LocationError: string := "Failed to load location information"

  /** The network panel after `getNetworkInfo` has run, whatever it held
      before: five field rows on success, exactly one error row on failure. */
  function ShowNetwork(c: Container, f: GeoFetch): (r: Container)
    ensures f.FetchFailed? ==> r == [ErrorRow(NetworkError)]
    ensures f.Fetched? ==> ShowsFields(r, NetworkLabels, NetworkFields(f.data))
  {
    match f
    case Fetched(g) => Fill(c, NetworkRows(g))
    case FetchFailed => [ErrorRow(NetworkError)]
  }

  /** The location panel after `getLocationInfo` has run, whatever it held
      before: six field rows on success, exactly one error row on failure. */
  function ShowLocation(c: Container, f: GeoFetch): (r: Container)
    ensures f.FetchFailed? ==> r == [ErrorRow(LocationError)]
    ensures f.Fetched? ==> ShowsFields(r, LocationLabels, LocationFields(f.data))
  {
    match f
    case Fetched(g) => Fill(c, LocationRows(g))
    case FetchFailed => [ErrorRow(LocationError)]
  }

  /** No field row is ever blank or falsy, and no successful render contains
      an error row. */
  lemma FieldRowsNeverFalsy(g: GeoRecord)
    ensures forall i :: 0 <= i < 5 ==> Truthy(NetworkRows(g)[i].cell.v)
    ensures forall i :: 0 <= i < 6 ==> Truthy(LocationRows(g)[i].cell.v)
    ensures forall i :: 0 <= i < 5 ==> NetworkRows(g)[i].name != "Error"
  {
  }

  /** Refreshing a panel replaces its rows: rendering twice with the same
      inputs leaves exactly what rendering once leaves, and the outcome does
      not depend on what the container held before. */
  lemma RefreshIsIdempotent(c: Container, c': Container, d: DeviceSnapshot, b: BatteryProbe, f: GeoFetch)
    ensures ShowDevice(ShowDevice(c, d, b), d, b) == ShowDevice(c', d, b)
    ensures ShowNetwork(ShowNetwork(c, f), f) == ShowNetwork(c', f)
    ensures ShowLocation(ShowLocation(c, f), f) == ShowLocation(c', f)
  {
  }
}
