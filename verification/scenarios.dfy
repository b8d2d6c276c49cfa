/**
 * Runs of a capture session as the view drives it: prepare, start, frames,
 * decode events and stops, on a camera with one colour source.
 */
module Scenarios {
  import opened Wrappers
  import opened Negotiation
  import opened Capture

  /** One colour source offering a single 800 by 600 format. */
  function FixtureGroups(): seq<SourceGroup>
  {
    [SourceGroup("camera", [SourceInfo("color", VideoRecord, Color)])]
  }

  function FixtureSources(): map<string, FrameSource>
  {
    map["color" := FrameSource("color", [MediaFrameFormat(VideoFormat(800, 600))])]
  }

  /** A claimed session with its frame reader installed. */
  method PreparedSession() returns (c: WinrtCapture, resolution: Result<(nat, nat), CaptureError>)
    ensures fresh(c) && c.Valid()
    ensures resolution == Ok((800, 600))
    ensures c.cameraClaimed && c.mediaFrameReader.Some? && c.uiUpdate == None && c.delivered == []
  {
    c := new WinrtCapture();
    LastColorVideoIsLastMatch(FixtureGroups()[0].sourceInfos, 0);
    var formats := FixtureSources()["color"].supportedFormats;
    SupportedFrameFormatIsFirst(formats, 0);
    resolution := c.PrepareWebcam(true, true, FixtureGroups(), FixtureSources());
  }

  /**
   * Preparing reports 800 by 600; one frame arrival whose RGBA8 bitmap
   * holds `pixels` hands the sink exactly those bytes; one decode event ends
   * the scan with its label and leaves no frame reader behind.
   */
  method EndToEnd(payload: string, pixels: seq<bv8>)
    returns (resolution: Result<(nat, nat), CaptureError>, frame: RelayOutcome,
             scan: Result<string, CaptureError>, readerLeft: bool)
    requires |pixels| == 4 * 800 * 600
    ensures resolution == Ok((800, 600))
    ensures frame.Delivered? && |frame.buffer| == 4 * 800 * 600 && frame.buffer == pixels
    ensures scan == Ok(payload)
    ensures !readerLeft
  {
    var c;
    c, resolution := PreparedSession();
    var ev, started := c.Start(Sink("view"));
    var bitmap := SoftwareBitmap(800, 600, pixels);
    frame := c.FrameReceived(Some(MediaFrameReference(Some(VideoMediaFrame(Some(bitmap))))), b => b);
    c.OnDataReceived(Some(payload));
    scan := c.FinishScan(ev);
    readerLeft := c.mediaFrameReader.Some?;
  }

  /** A second stop finds no frame reader and raises. */
  method StopTwice() returns (first: Result<(), CaptureError>, second: Result<(), CaptureError>)
    ensures first == Ok(())
    ensures second == Err(NoFrameReader)
  {
    var c, _ := PreparedSession();
    first := c.Stop();
    second := c.Stop();
  }

  /** Two decode events in one scan: the second label is the one kept. */
  method LaterDecodeOverwrites(earlier: string, later: string)
    returns (stored: Option<string>, isSet: bool, scan: Result<string, CaptureError>)
    ensures stored == Some(later) && isSet
    ensures scan == Ok(later)
  {
    var c, _ := PreparedSession();
    var ev, started := c.Start(Sink("view"));
    c.OnDataReceived(Some(earlier));
    c.OnDataReceived(Some(later));
    stored, isSet := c.result, ev.isSet;
    scan := c.FinishScan(ev);
  }

  /**
   * Stopping while a scan waits does not set the event, so the waiting scan
   * stays pending. Stopping also disables the scanner, so in practice no
   * decode event follows; the decode event below is hypothetical and shows
   * that, were the scan woken, its own stop would find no frame reader and raise.
   */
  method StopDuringScan(payload: string)
    returns (stopped: Result<(), CaptureError>, pending: bool, scan: Result<string, CaptureError>)
    ensures stopped == Ok(())
    ensures pending
    ensures scan == Err(NoFrameReader)
  {
    var c, _ := PreparedSession();
    var ev, started := c.Start(Sink("view"));
    stopped := c.Stop();
    pending := !ev.isSet;
    c.OnDataReceived(Some(payload));
    scan := c.FinishScan(ev);
  }

  /** A frame arriving before any sink is registered reaches no sink. */
  method FrameBeforeStart(frame: Option<MediaFrameReference>, convert: SoftwareBitmap -> SoftwareBitmap)
    returns (o: RelayOutcome, calls: nat)
    ensures o == NoCallback && calls == 0
  {
    var c, _ := PreparedSession();
    o := c.FrameReceived(frame, convert);
    calls := |c.delivered|;
  }

  /**
   * Starting a second time while the first scan waits installs a new event:
   * a decode event then sets only the new one, and the first scan's event
   * stays unset, so the first scan is never woken.
   */
  method SecondStartOrphansFirst(payload: string)
    returns (firstSet: bool, secondSet: bool, scan: Result<string, CaptureError>)
    ensures !firstSet && secondSet
    ensures scan == Ok(payload)
  {
    var c, _ := PreparedSession();
    var first, started1 := c.Start(Sink("view"));
    var second, started2 := c.Start(Sink("view"));
    c.OnDataReceived(Some(payload));
    firstSet, secondSet := first.isSet, second.isSet;
    scan := c.FinishScan(second);
  }
}
