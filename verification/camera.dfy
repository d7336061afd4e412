/**
 The camera report (script.js `getCameraResolutions`): the video inputs are
 probed one after another, each contributing a block of lines and a short
 run of media calls. The media-device APIs are replaced by their outcomes:
 the enumeration result, and the list of what opening a stream on each video
 input yielded. That list is an arbitrary input, so an outcome may depend on
 anything earlier iterations did, such as a stream they left open.
 */
module Camera {
  import opened Wrappers
  import opened Text
  import opened JsValues

  /** A `MediaDeviceInfo` from `enumerateDevices()`; `name` is its `label`. */
  datatype MediaDevice = MediaDevice(deviceId: string, kind: string, name: string)

  /** A `{min, max}` capability range. */
  datatype Range = Range(min: JsValue, max: JsValue)

  /** The capabilities of a video track; `None` is an absent member. */
  datatype Capabilities = Capabilities(
    width: Option<Range>,
    height: Option<Range>,
    frameRate: Option<Range>,
    facingMode: Option<seq<string>>)

  /** What asking one device for a stream led to, as the platform decided it. */
  datatype Access =
    | Denied                      // `getUserMedia` rejected: no stream exists
    | ReadFailed                  // the stream opened but reading its capabilities threw
    | Granted(caps: Capabilities) // capabilities read, then every track stopped

  /** The result of `enumerateDevices()`. */
  datatype Enumeration = EnumerationFailed | Enumerated(devices: seq<MediaDevice>)

  /** `devices.filter(device => device.kind === 'videoinput')`. */
  function VideoInputs(ds: seq<MediaDevice>): (vs: seq<MediaDevice>)
    ensures |vs| <= |ds|
    ensures forall i :: 0 <= i < |vs| ==> vs[i].kind == "videoinput" && vs[i] in ds
    ensures forall d :: d in ds && d.kind == "videoinput" ==> d in vs
  {
    if |ds| == 0 then []
    else if ds[0].kind == "videoinput" then [ds[0]] + VideoInputs(ds[1..])
    else VideoInputs(ds[1..])
  }

  /** Filtering keeps the enumeration order: it distributes over concatenation. */
  lemma {:induction false} VideoInputsAppend(a: seq<MediaDevice>, b: seq<MediaDevice>)
    ensures VideoInputs(a + b) == VideoInputs(a) + VideoInputs(b)
    decreases |a|
  {
    if |a| == 0 {
      assert a + b == b;
    } else {
      assert (a + b)[1..] == a[1..] + b;
      VideoInputsAppend(a[1..], b);
    }
  }

  // ---------------------------------------------------------------------------
  // One device's block
  // ---------------------------------------------------------------------------

  /** One `<br>`-terminated line of a device block. */
  datatype Line =
    | MaxLine(width: JsValue, height: JsValue)
    | MinLine(width: JsValue, height: JsValue)
    | FrameRateLine(fps: JsValue)
    | FacingLine(modes: seq<string>)
    | AccessError
  {
    /** The order in which script.js appends the capability lines. */
    function Order(): nat
    {
      match this
      case MaxLine(_, _) => 0
      case MinLine(_, _) => 1
      case FrameRateLine(_) => 2
      case FacingLine(_) => 3
      case AccessError => 4
    }

    function Html(): string
    {
      match this
      case MaxLine(w, h) => "Max: " + Show(w) + " × " + Show(h) + "<br>"
      case MinLine(w, h) => "Min: " + Show(w) + " × " + Show(h) + "<br>"
      case FrameRateLine(fps) => "Frame Rate: " + Show(fps) + " fps<br>"
      case FacingLine(modes) => "Facing: " + Join(modes, ",") + "<br>"
      case AccessError => "Permission denied or error accessing camera<br>"
    }
  }

  predicate HasSize(c: Capabilities)
  {
    c.width.Some? && c.height.Some?
  }

  /** The lines a readable device contributes, appended as script.js does. */
  function CapabilityLines(c: Capabilities): seq<Line>
  {
    var size := if HasSize(c) then
        [MaxLine(c.width.value.max, c.height.value.max), MinLine(c.width.value.min, c.height.value.min)]
      else [];
    var rate := if c.frameRate.Some? then [FrameRateLine(c.frameRate.value.max)] else [];
    var facing := if c.facingMode.Some? then [FacingLine(c.facingMode.value)] else [];
    size + rate + facing
  }

  /** Max and Min lines appear only when both width and height are present,
      frame rate and facing mode only when present, in that order, and never
      the error line. */
  lemma CapabilityLinesShape(c: Capabilities)
    ensures var ls := CapabilityLines(c);
      && (HasSize(c) <==> exists i :: 0 <= i < |ls| && ls[i].MaxLine?)
      && (HasSize(c) <==> exists i :: 0 <= i < |ls| && ls[i].MinLine?)
      && (c.frameRate.Some? <==> exists i :: 0 <= i < |ls| && ls[i].FrameRateLine?)
      && (c.facingMode.Some? <==> exists i :: 0 <= i < |ls| && ls[i].FacingLine?)
      && (forall i :: 0 <= i < |ls| ==> !ls[i].AccessError?)
      && (forall i, j :: 0 <= i < j < |ls| ==> ls[i].Order() < ls[j].Order())
      && (HasSize(c) ==>
            ls[0] == MaxLine(c.width.value.max, c.height.value.max)
            && ls[1] == MinLine(c.width.value.min, c.height.value.min))
      && (c.frameRate.Some? ==> FrameRateLine(c.frameRate.value.max) in ls)
      && (c.facingMode.Some? ==> FacingLine(c.facingMode.value) in ls)
  {
    var size := if HasSize(c) then
        [MaxLine(c.width.value.max, c.height.value.max), MinLine(c.width.value.min, c.height.value.min)]
      else [];
    var rate := if c.frameRate.Some? then [FrameRateLine(c.frameRate.value.max)] else [];
    var facing := if c.facingMode.Some? then [FacingLine(c.facingMode.value)] else [];
    var ls := size + rate + facing;
    assert ls == CapabilityLines(c);
    assert forall i :: 0 <= i < |ls| ==> ls[i] in size || ls[i] in rate || ls[i] in facing;
    assert HasSize(c) ==> ls[0].MaxLine? && ls[1].MinLine?;
    assert c.frameRate.Some? ==> ls[|size|].FrameRateLine?;
    assert c.facingMode.Some? ==> ls[|size| + |rate|].FacingLine?;
  }

  /** The lines under a device's title: its capabilities, or the single error
      line when the stream could not be opened or read. */
  function AccessLines(a: Access): seq<Line>
  {
    match a
    case Granted(caps) => CapabilityLines(caps)
    case _ => [AccessError]
  }

  /** A device's block: a bold title, its lines, and a blank line. */
  datatype Block = Block(title: string, lines: seq<Line>)

  /** `device.label || 'Unnamed Camera'`. */
  function Title(d: MediaDevice): (t: string)
    ensures d.name != "" ==> t == d.name
    ensures d.name == "" ==> t == "Unnamed Camera"
  {
    if d.name != "" then d.name else "Unnamed Camera"
  }

  function DeviceBlock(d: MediaDevice, a: Access): Block
  {
    Block(Title(d), AccessLines(a))
  }

  /** The lines' HTML, one after another. */
  function LinesHtml(ls: seq<Line>): string
  {
    if |ls| == 0 then "" else ls[0].Html() + LinesHtml(ls[1..])
  }

  function BlockHtml(b: Block): string
  {
    "<strong>" + b.title + "</strong><br>" + LinesHtml(b.lines) + "<br>"
  }

  // ---------------------------------------------------------------------------
  // The report
  // ---------------------------------------------------------------------------

  /** The report as a list: block `i` belongs to video input `i` and depends
      on that device's outcome `os[i]` only. */
  function CameraBlocks(vs: seq<MediaDevice>, os: seq<Access>): (bs: seq<Block>)
    requires |os| == |vs|
    ensures |bs| == |vs|
    ensures forall i :: 0 <= i < |vs| ==> bs[i].title == Title(vs[i]) && bs[i].lines == AccessLines(os[i])
  {
    seq(|vs|, i requires 0 <= i < |vs| => DeviceBlock(vs[i], os[i]))
  }

  function ReportHtml(bs: seq<Block>): string
  {
    Concat(seq(|bs|, i requires 0 <= i < |bs| => BlockHtml(bs[i])))
  }

  /** The ids of the given devices, in order. */
  function Ids(vs: seq<MediaDevice>): seq<string>
  {
    if |vs| == 0 then [] else [vs[0].deviceId] + Ids(vs[1..])
  }

  /** The ids of the devices whose capabilities were read, in order. */
  function GrantedIds(vs: seq<MediaDevice>, os: seq<Access>): seq<string>
    requires |os| == |vs|
  {
    if |vs| == 0 then []
    else (if os[0].Granted? then [vs[0].deviceId] else []) + GrantedIds(vs[1..], os[1..])
  }

  // ---------------------------------------------------------------------------
  // The media calls, in the order the loop makes them
  // ---------------------------------------------------------------------------

  /** `getUserMedia` for a device, or stopping the tracks of its stream. */
  datatype Event = Request(id: string) | Release(id: string)

  /** What one iteration does to the media devices: it asks for a stream, and
      stops the stream's tracks only once the capabilities have been read. */
  function DeviceEvents(d: MediaDevice, a: Access): seq<Event>
  {
    if a.Granted? then [Request(d.deviceId), Release(d.deviceId)] else [Request(d.deviceId)]
  }

  /** The media calls of the devices, one device after another. */
  function Trace(vs: seq<MediaDevice>, os: seq<Access>): seq<Event>
    requires |os| == |vs|
  {
    if |vs| == 0 then [] else DeviceEvents(vs[0], os[0]) + Trace(vs[1..], os[1..])
  }

  /** The devices asked for a stream, in order. */
  function Requests(t: seq<Event>): seq<string>
  {
    if |t| == 0 then [] else (if t[0].Request? then [t[0].id] else []) + Requests(t[1..])
  }

  /** The devices whose tracks were stopped, in order. */
  function Releases(t: seq<Event>): seq<string>
  {
    if |t| == 0 then [] else (if t[0].Release? then [t[0].id] else []) + Releases(t[1..])
  }

  /** Every release comes immediately after the request for the same device.
      A readable device's stream is therefore stopped before the next device
      is asked for one; an unreadable device's stream is never stopped and
      stays open while later devices are asked. */
  predicate ReleaseFollowsItsRequest(t: seq<Event>)
  {
    forall p :: 0 <= p < |t| && t[p].Release? ==> 0 < p && t[p - 1] == Request(t[p].id)
  }

  lemma {:induction false} RequestsAppend(a: seq<Event>, b: seq<Event>)
    ensures Requests(a + b) == Requests(a) + Requests(b)
    decreases |a|
  {
    if |a| == 0 {
      assert a + b == b;
    } else {
      var h: seq<string> := if a[0].Request? then [a[0].id] else [];
      assert (a + b)[0] == a[0];
      assert (a + b)[1..] == a[1..] + b;
      RequestsAppend(a[1..], b);
      calc {
        Requests(a + b);
        h + Requests(a[1..] + b);
        h + (Requests(a[1..]) + Requests(b));
        (h + Requests(a[1..])) + Requests(b);
      }
    }
  }

  lemma {:induction false} ReleasesAppend(a: seq<Event>, b: seq<Event>)
    ensures Releases(a + b) == Releases(a) + Releases(b)
    decreases |a|
  {
    if |a| == 0 {
      assert a + b == b;
    } else {
      var h: seq<string> := if a[0].Release? then [a[0].id] else [];
      assert (a + b)[0] == a[0];
      assert (a + b)[1..] == a[1..] + b;
      ReleasesAppend(a[1..], b);
      calc {
        Releases(a + b);
        h + Releases(a[1..] + b);
        h + (Releases(a[1..]) + Releases(b));
        (h + Releases(a[1..])) + Releases(b);
      }
    }
  }

  /** A stream is requested from every video input, in order. */
  lemma {:induction false} TraceRequests(vs: seq<MediaDevice>, os: seq<Access>)
    requires |os| == |vs|
    ensures Requests(Trace(vs, os)) == Ids(vs)
    decreases |vs|
  {
    if |vs| > 0 {
      var e := DeviceEvents(vs[0], os[0]);
      RequestsAppend(e, Trace(vs[1..], os[1..]));
      TraceRequests(vs[1..], os[1..]);
      assert Requests(e) == [vs[0].deviceId] by {
        assert e[1..] == [] || e[1..][1..] == [];
      }
    }
  }

  /** Tracks are stopped for exactly the devices whose capabilities were read, in order. */
  lemma {:induction false} TraceReleases(vs: seq<MediaDevice>, os: seq<Access>)
    requires |os| == |vs|
    ensures Releases(Trace(vs, os)) == GrantedIds(vs, os)
    decreases |vs|
  {
    if |vs| > 0 {
      var e := DeviceEvents(vs[0], os[0]);
      ReleasesAppend(e, Trace(vs[1..], os[1..]));
      TraceReleases(vs[1..], os[1..]);
      assert Releases(e) == (if os[0].Granted? then [vs[0].deviceId] else []) by {
        assert e[1..] == [] || e[1..][1..] == [];
      }
    }
  }

  /** Each release directly follows the request it closes. */
  lemma {:induction false} TraceReleasesInTurn(vs: seq<MediaDevice>, os: seq<Access>)
    requires |os| == |vs|
    ensures ReleaseFollowsItsRequest(Trace(vs, os))
    decreases |vs|
  {
    if |vs| > 0 {
      var e := DeviceEvents(vs[0], os[0]);
      var rest := Trace(vs[1..], os[1..]);
      TraceReleasesInTurn(vs[1..], os[1..]);
      var t := e + rest;
      forall p | 0 <= p < |t| && t[p].Release?
        ensures 0 < p && t[p - 1] == Request(t[p].id)
      {
        if p >= |e| {
          assert t[p] == rest[p - |e|];
          assert t[p - 1] == rest[p - 1 - |e|];
        }
      }
    }
  }

  // ---------------------------------------------------------------------------
  // The loop
  // ---------------------------------------------------------------------------

  /** What the loop has produced so far: the accumulated HTML and the media
      calls made. */
  datatype Scan = Scan(html: string, trace: seq<Event>)

  /** One iteration of the `for (const device of videoDevices)` loop. */
  function Step(st: Scan, d: MediaDevice, a: Access): Scan
  {
    Scan(st.html + BlockHtml(DeviceBlock(d, a)), st.trace + DeviceEvents(d, a))
  }

  /** The whole loop, devices in enumeration order, device `i` meeting outcome `os[i]`. */
  function Sweep(st: Scan, vs: seq<MediaDevice>, os: seq<Access>): Scan
    requires |os| == |vs|
    decreases |vs|
  {
    if |vs| == 0 then st else Sweep(Step(st, vs[0], os[0]), vs[1..], os[1..])
  }

  /** The report's first block followed by the rest. */
  lemma ReportHtmlCons(bs: seq<Block>)
    requires |bs| > 0
    ensures ReportHtml(bs) == BlockHtml(bs[0]) + ReportHtml(bs[1..])
  {
    var hs := seq(|bs|, i requires 0 <= i < |bs| => BlockHtml(bs[i]));
    var tail := bs[1..];
    assert hs[1..] == seq(|tail|, i requires 0 <= i < |tail| => BlockHtml(tail[i]));
  }

  lemma AppendAssoc<T>(a: seq<T>, b: seq<T>, c: seq<T>)
    ensures a + b + c == a + (b + c)
  {
  }

  /** The report of several devices is the first device's block followed by
      the report of the others. */
  lemma ReportOfCons(vs: seq<MediaDevice>, os: seq<Access>)
    requires |os| == |vs| > 0
    ensures ReportHtml(CameraBlocks(vs, os))
         == BlockHtml(DeviceBlock(vs[0], os[0])) + ReportHtml(CameraBlocks(vs[1..], os[1..]))
  {
    var bs := CameraBlocks(vs, os);
    assert bs[1..] == CameraBlocks(vs[1..], os[1..]);
    assert bs[0] == DeviceBlock(vs[0], os[0]);
    ReportHtmlCons(bs);
  }

  /** The loop appends every device's block, in enumeration order, to what
      was there before. */
  lemma {:induction false} SweepHtml(st: Scan, vs: seq<MediaDevice>, os: seq<Access>)
    requires |os| == |vs|
    ensures Sweep(st, vs, os).html == st.html + ReportHtml(CameraBlocks(vs, os))
    decreases |vs|
  {
    if |vs| == 0 {
      assert ReportHtml(CameraBlocks(vs, os)) == "";
    } else {
      var st' := Step(st, vs[0], os[0]);
      assert Sweep(st, vs, os) == Sweep(st', vs[1..], os[1..]);
      var head := BlockHtml(DeviceBlock(vs[0], os[0]));
      var rest := ReportHtml(CameraBlocks(vs[1..], os[1..]));
      assert st'.html == st.html + head;
      SweepHtml(st', vs[1..], os[1..]);
      ReportOfCons(vs, os);
      AppendAssoc(st.html, head, rest);
    }
  }

  /** The loop makes every device's media calls, in enumeration order, after
      the ones made before. */
  lemma {:induction false} SweepTrace(st: Scan, vs: seq<MediaDevice>, os: seq<Access>)
    requires |os| == |vs|
    ensures Sweep(st, vs, os).trace == st.trace + Trace(vs, os)
    decreases |vs|
  {
    if |vs| > 0 {
      var st' := Step(st, vs[0], os[0]);
      assert Sweep(st, vs, os) == Sweep(st', vs[1..], os[1..]);
      var e := DeviceEvents(vs[0], os[0]);
      assert st'.trace == st.trace + e;
      SweepTrace(st', vs[1..], os[1..]);
      AppendAssoc(st.trace, e, Trace(vs[1..], os[1..]));
    }
  }

  const NoCameras: string := "No camera devices found"
  const EnumerationError: string := "Error accessing camera information"

  /** The final state of the camera output region, and the media calls made. */
  datatype CameraResult = CameraResult(html: string, trace: seq<Event>)

  /** `getCameraResolutions()` after every promise has settled: a top-level
      error text when enumeration fails; "No camera devices found" and no
      device touched when there is no video input; otherwise every video
      input's block, in enumeration order. `os` holds the outcome each video
      input met, in the same order. */
  function CameraResolutions(e: Enumeration, os: seq<Access>): (r: CameraResult)
    requires e.Enumerated? ==> |os| == |VideoInputs(e.devices)|
    ensures e.EnumerationFailed? ==> r == CameraResult(EnumerationError, [])
    ensures e.Enumerated? && VideoInputs(e.devices) == [] ==> r == CameraResult(NoCameras, [])
    ensures e.Enumerated? && VideoInputs(e.devices) != [] ==>
      var vs := VideoInputs(e.devices);
      r == CameraResult(ReportHtml(CameraBlocks(vs, os)), Trace(vs, os))
  {
    match e
    case EnumerationFailed => CameraResult(EnumerationError, [])
    case Enumerated(devices) =>
      var vs := VideoInputs(devices);
      if |vs| == 0 then CameraResult(NoCameras, [])
      else
        var st := Sweep(Scan("", []), vs, os);
        SweepHtml(Scan("", []), vs, os);
        SweepTrace(Scan("", []), vs, os);
        CameraResult(st.html, st.trace)
  }

  /** The media calls of a completed report: a stream requested from every
      video input, the tracks stopped for exactly the readable ones, each
      stop right after its own request. */
  lemma CameraCalls(e: Enumeration, os: seq<Access>)
    requires e.Enumerated? && |os| == |VideoInputs(e.devices)|
    ensures var t := CameraResolutions(e, os).trace;
      && Requests(t) == Ids(VideoInputs(e.devices))
      && Releases(t) == GrantedIds(VideoInputs(e.devices), os)
      && ReleaseFollowsItsRequest(t)
  {
    var vs := VideoInputs(e.devices);
    if vs != [] {
      TraceRequests(vs, os);
      TraceReleases(vs, os);
      TraceReleasesInTurn(vs, os);
    }
  }

  /** Blocks of concatenated device lists are concatenated blocks. */
  lemma CameraBlocksAppend(a: seq<MediaDevice>, oa: seq<Access>, b: seq<MediaDevice>, ob: seq<Access>)
    requires |oa| == |a| && |ob| == |b|
    ensures CameraBlocks(a + b, oa + ob) == CameraBlocks(a, oa) + CameraBlocks(b, ob)
  {
  }

  lemma ReportHtmlAppend(a: seq<Block>, b: seq<Block>)
    ensures ReportHtml(a + b) == ReportHtml(a) + ReportHtml(b)
  {
    var ha := seq(|a|, i requires 0 <= i < |a| => BlockHtml(a[i]));
    var hb := seq(|b|, i requires 0 <= i < |b| => BlockHtml(b[i]));
    var ab := a + b;
    assert seq(|ab|, i requires 0 <= i < |ab| => BlockHtml(ab[i])) == ha + hb;
    ConcatAppend(ha, hb);
  }

  /** One device's outcome, failure included, enters the report only through
      its own block: the devices before and after it are reported from their
      own outcomes exactly as they would be without it. */
  lemma DeviceFailureIsIsolated(before: seq<MediaDevice>, ob: seq<Access>, d: MediaDevice, a: Access,
                                after: seq<MediaDevice>, oa: seq<Access>)
    requires |ob| == |before| && |oa| == |after|
    ensures ReportHtml(CameraBlocks(before + [d] + after, ob + [a] + oa))
         == ReportHtml(CameraBlocks(before, ob))
          + BlockHtml(DeviceBlock(d, a))
          + ReportHtml(CameraBlocks(after, oa))
  {
    CameraBlocksAppend(before + [d], ob + [a], after, oa);
    CameraBlocksAppend(before, ob, [d], [a]);
    ReportHtmlAppend(CameraBlocks(before, ob) + CameraBlocks([d], [a]), CameraBlocks(after, oa));
    ReportHtmlAppend(CameraBlocks(before, ob), CameraBlocks([d], [a]));
    ReportHtmlCons(CameraBlocks([d], [a]));
    assert CameraBlocks([d], [a])[1..] == [];
  }

  /** A device that could not be opened or read shows its title and the error line. */
  lemma FailedBlockHtml(d: MediaDevice, a: Access)
    requires !a.Granted?
    ensures BlockHtml(DeviceBlock(d, a))
         == "<strong>" + Title(d) + "</strong><br>" + "Permission denied or error accessing camera<br>" + "<br>"
  {
    assert LinesHtml([AccessError]) == "Permission denied or error accessing camera<br>" + LinesHtml([]);
  }

  lemma ReportOfOne(d: MediaDevice, a: Access)
    ensures ReportHtml(CameraBlocks([d], [a])) == BlockHtml(DeviceBlock(d, a))
  {
    ReportOfCons([d], [a]);
    assert [d][1..] == [] && [a][1..] == [];
    assert ReportHtml(CameraBlocks([], [])) == "";
  }

  lemma ReportOfTwo(d1: MediaDevice, a1: Access, d2: MediaDevice, a2: Access)
    requires !a2.Granted?
    ensures ReportHtml(CameraBlocks([d1, d2], [a1, a2]))
         == BlockHtml(DeviceBlock(d1, a1))
          + ("<strong>" + Title(d2) + "</strong><br>" + "Permission denied or error accessing camera<br>" + "<br>")
  {
    assert [d1, d2] == [d1] + [d2] + [] && [a1, a2] == [a1] + [a2] + [];
    DeviceFailureIsIsolated([d1], [a1], d2, a2, [], []);
    ReportOfOne(d1, a1);
    assert ReportHtml(CameraBlocks([], [])) == "";
    FailedBlockHtml(d2, a2);
    var x := BlockHtml(DeviceBlock(d1, a1));
    var y := BlockHtml(DeviceBlock(d2, a2));
    assert x + y + "" == x + y;
  }

  lemma TraceOfTwo(d1: MediaDevice, a1: Access, d2: MediaDevice, a2: Access)
    requires a1.Granted? && !a2.Granted?
    ensures Trace([d1, d2], [a1, a2]) == [Request(d1.deviceId), Release(d1.deviceId), Request(d2.deviceId)]
  {
    assert [d1, d2][1..] == [d2] && [a1, a2][1..] == [a2];
    assert Trace([d2], [a2]) == [Request(d2.deviceId)] + Trace([], []);
  }

  /** Two cameras, the first readable and the second refused or unreadable:
      the first block, then the second camera's title and the error line.
      The first camera's stream is stopped before the second is asked for
      one, and the second is never stopped. */
  lemma GrantedThenFailed(ds: seq<MediaDevice>, d1: MediaDevice, a1: Access, d2: MediaDevice, a2: Access)
    requires VideoInputs(ds) == [d1, d2]
    requires a1.Granted? && !a2.Granted?
    ensures CameraResolutions(Enumerated(ds), [a1, a2])
         == CameraResult(
              BlockHtml(DeviceBlock(d1, a1))
                + ("<strong>" + Title(d2) + "</strong><br>" + "Permission denied or error accessing camera<br>" + "<br>"),
              [Request(d1.deviceId), Release(d1.deviceId), Request(d2.deviceId)])
  {
    assert VideoInputs(ds) != [];
    ReportOfTwo(d1, a1, d2, a2);
    TraceOfTwo(d1, a1, d2, a2);
  }

  /** An unreadable device's stream is never stopped: the next device is asked
      for a stream while the first one is still open, and only the second is
      released. */
  lemma UnreadableStreamStaysOpen(d1: MediaDevice, a1: Access, d2: MediaDevice, a2: Access)
    requires a1 == ReadFailed && a2.Granted?
    ensures Trace([d1, d2], [a1, a2]) == [Request(d1.deviceId), Request(d2.deviceId), Release(d2.deviceId)]
    ensures ReleaseFollowsItsRequest(Trace([d1, d2], [a1, a2]))
  {
    assert [d1, d2][1..] == [d2] && [a1, a2][1..] == [a2];
    assert Trace([d2], [a2]) == [Request(d2.deviceId), Release(d2.deviceId)] + Trace([], []);
    TraceReleasesInTurn([d1, d2], [a1, a2]);
  }

  /** Only devices a stream was requested from are ever released, and when
      every device is readable, all of them are. */
  lemma {:induction false} ReleasedWereRequested(vs: seq<MediaDevice>, os: seq<Access>)
    requires |os| == |vs|
    ensures |GrantedIds(vs, os)| <= |vs|
    ensures forall x :: x in GrantedIds(vs, os) ==> x in Ids(vs)
    ensures (forall i :: 0 <= i < |os| ==> os[i].Granted?) ==> GrantedIds(vs, os) == Ids(vs)
    decreases |vs|
  {
    if |vs| > 0 {
      ReleasedWereRequested(vs[1..], os[1..]);
      assert Ids(vs) == [vs[0].deviceId] + Ids(vs[1..]);
      if forall i :: 0 <= i < |os| ==> os[i].Granted? {
        assert forall i :: 0 <= i < |os[1..]| ==> os[1..][i] == os[i + 1];
      }
    }
  }
}
