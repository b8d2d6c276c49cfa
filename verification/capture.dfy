/**
 * The capture session: a barcode scanner's camera, its frame reader, the
 * sink that receives preview frames and the one-shot event that wakes the
 * caller waiting for a scan. Platform calls are inputs: whether a scanner
 * is present or claimed, the source groups and frame sources, the latest
 * frame the reader offers, the pixel conversion and the decoded label.
 */
module Capture {
  import opened Wrappers
  import opened Negotiation

  /** A bitmap as the platform hands it over: its dimensions and its bytes. */
  datatype SoftwareBitmap = SoftwareBitmap(pixelWidth: nat, pixelHeight: nat, pixels: seq<bv8>)

  /** The video part of a frame, which may carry no CPU bitmap. */
  datatype VideoMediaFrame = VideoMediaFrame(softwareBitmap: Option<SoftwareBitmap>)

  /** A frame taken from the reader, which may carry no video part. */
  datatype MediaFrameReference = MediaFrameReference(videoMediaFrame: Option<VideoMediaFrame>)

  /** The callback a view registers to receive preview buffers. */
  datatype Sink = Sink(name: string)

  /** The frame reader created for the colour source, with its format and whether it delivers frames. */
  datatype FrameReader = FrameReader(sourceId: string, format: MediaFrameFormat, running: bool)

  /** The exceptions the session's operations let escape. */
  datatype CaptureError =
    | NoScanner          // no barcode scanner: claiming on None raises
    | ClaimFailed        // the claim yielded no camera: registering the callback on None raises
    | NoSourceGroup      // no source group: unpacking None raises
    | NoColorSource      // the first group has no colour source: reading its id raises
    | UnknownFrameSource // the capture device has no frame source for that id
    | NoSupportedFormat  // no format is narrow enough: using the missing format raises
    | NoFrameReader      // no frame reader: starting or stopping it raises
    | NoCamera           // no claimed camera: disabling it raises

  /** What one frame arrival comes to. */
  datatype RelayOutcome =
    | NoCallback               // no sink registered: logged, nothing delivered
    | NoFrame                  // the reader had no frame ready
    | NoVideoFrame             // the frame has no video part: the error is logged
    | NoBitmap                 // the video frame has no bitmap: the conversion raises
    | Delivered(buffer: seq<bv8>)

  /** The number of bytes an RGBA8 image of the given dimensions takes. */
  function Rgba8Length(width: nat, height: nat): nat
  {
    4 * height * width
  }

  /**
   * The byte array copied out of a bitmap into a buffer sized for RGBA8:
   * the bitmap's own bytes, as many as the buffer holds.
   */
  function CopyToByteArray(bitmap: SoftwareBitmap): (bytes: seq<bv8>)
    ensures |bitmap.pixels| == Rgba8Length(bitmap.pixelWidth, bitmap.pixelHeight) ==> bytes == bitmap.pixels
    ensures forall i :: 0 <= i < |bytes| && i < |bitmap.pixels| ==> bytes[i] == bitmap.pixels[i]
  {
    seq(Rgba8Length(bitmap.pixelWidth, bitmap.pixelHeight),
        i requires 0 <= i => if i < |bitmap.pixels| then bitmap.pixels[i] else 0)
  }

  /** A frame arrival the sink receives a buffer for. */
  predicate Acquirable(latest: Option<MediaFrameReference>)
  {
    latest.Some? && latest.value.videoMediaFrame.Some? && latest.value.videoMediaFrame.value.softwareBitmap.Some?
  }

  /**
   * What a frame arrival hands to the sink, given the registered sink, the
   * latest frame the reader offers and the platform's RGBA8 conversion.
   * A buffer is delivered exactly when a sink is registered and the frame
   * carries a bitmap, and it is a whole image of the converted bitmap.
   */
  function Relay(callback: Option<Sink>, latest: Option<MediaFrameReference>,
                 convert: SoftwareBitmap -> SoftwareBitmap): (o: RelayOutcome)
    ensures o.Delivered? <==> callback.Some? && Acquirable(latest)
    ensures o.Delivered? ==>
              var b := convert(latest.value.videoMediaFrame.value.softwareBitmap.value);
              |o.buffer| == Rgba8Length(b.pixelWidth, b.pixelHeight)
              && (forall i :: 0 <= i < |o.buffer| && i < |b.pixels| ==> o.buffer[i] == b.pixels[i])
              && (|b.pixels| == Rgba8Length(b.pixelWidth, b.pixelHeight) ==> o.buffer == b.pixels)
    ensures callback.None? ==> o == NoCallback
    ensures callback.Some? && latest.None? ==> o == NoFrame
  {
    if callback.None? then NoCallback
    else if latest.None? then NoFrame
    else if latest.value.videoMediaFrame.None? then NoVideoFrame
    else if latest.value.videoMediaFrame.value.softwareBitmap.None? then NoBitmap
    else Delivered(CopyToByteArray(convert(latest.value.videoMediaFrame.value.softwareBitmap.value)))
  }

  /** The buffers a run of frame arrivals hands to the sink, in order. */
  function RelayAll(callback: Option<Sink>, arrivals: seq<Option<MediaFrameReference>>,
                    convert: SoftwareBitmap -> SoftwareBitmap): seq<seq<bv8>>
  {
    if arrivals == [] then []
    else
      var o := Relay(callback, arrivals[0], convert);
      (if o.Delivered? then [o.buffer] else []) + RelayAll(callback, arrivals[1..], convert)
  }

  /** The number of arrivals that carry a bitmap. */
  function CountAcquirable(arrivals: seq<Option<MediaFrameReference>>): nat
  {
    if arrivals == [] then 0
    else (if Acquirable(arrivals[0]) then 1 else 0) + CountAcquirable(arrivals[1..])
  }

  /**
   * Over any run of arrivals with a sink registered, the sink receives one
   * buffer per arrival that carries a bitmap and none for the others, so at
   * most one per arrival; with no sink it receives nothing.
   */
  lemma {:induction false} RelayAllCount(callback: Option<Sink>, arrivals: seq<Option<MediaFrameReference>>,
                                         convert: SoftwareBitmap -> SoftwareBitmap)
    ensures callback.Some? ==> |RelayAll(callback, arrivals, convert)| == CountAcquirable(arrivals)
    ensures callback.None? ==> RelayAll(callback, arrivals, convert) == []
    ensures |RelayAll(callback, arrivals, convert)| <= |arrivals|
  {
    if arrivals != [] {
      RelayAllCount(callback, arrivals[1..], convert);
    }
  }

  /**
   * What preparing the preview settles on: the id of the colour source of
   * the first source group and that source's first format no wider than
   * the preview limit, or the first missing piece.
   */
  function PreviewSelection(sourceGroups: seq<SourceGroup>, frameSources: map<string, FrameSource>)
    : (r: Result<(string, MediaFrameFormat), CaptureError>)
    ensures sourceGroups == [] <==> r == Err(NoSourceGroup)
    ensures r == Err(NoColorSource) <==> sourceGroups != [] && LastColorVideo(sourceGroups[0].sourceInfos).None?
    ensures r.Ok? ==> sourceGroups != [] && LastColorVideo(sourceGroups[0].sourceInfos).Some?
                      && LastColorVideo(sourceGroups[0].sourceInfos).value.id == r.value.0
                      && r.value.0 in frameSources
                      && SupportedFrameFormat(frameSources[r.value.0].supportedFormats) == Some(r.value.1)
    ensures r == Err(UnknownFrameSource) <==>
              sourceGroups != [] && LastColorVideo(sourceGroups[0].sourceInfos).Some?
              && LastColorVideo(sourceGroups[0].sourceInfos).value.id !in frameSources
    ensures r == Err(NoSupportedFormat) <==>
              sourceGroups != [] && LastColorVideo(sourceGroups[0].sourceInfos).Some?
              && LastColorVideo(sourceGroups[0].sourceInfos).value.id in frameSources
              && SupportedFrameFormat(frameSources[LastColorVideo(sourceGroups[0].sourceInfos).value.id].supportedFormats).None?
    ensures r.Ok? <==>
              sourceGroups != [] && LastColorVideo(sourceGroups[0].sourceInfos).Some?
              && LastColorVideo(sourceGroups[0].sourceInfos).value.id in frameSources
              && SupportedFrameFormat(frameSources[LastColorVideo(sourceGroups[0].sourceInfos).value.id].supportedFormats).Some?
    ensures r.Ok? ==> r.value.1.videoFormat.width <= MaxPreviewWidth
  {
    if sourceGroups == [] then Err(NoSourceGroup)
    else
      var colorSource := LastColorVideo(sourceGroups[0].sourceInfos);
      if colorSource.None? then Err(NoColorSource)
      else if colorSource.value.id !in frameSources then Err(UnknownFrameSource)
      else
        var format := SupportedFrameFormat(frameSources[colorSource.value.id].supportedFormats);
        if format.None? then Err(NoSupportedFormat)
        else Ok((colorSource.value.id, format.value))
  }

  /** The resolution preparing reports for a selection: the chosen format's width and height. */
  function PreviewResolution(selection: Result<(string, MediaFrameFormat), CaptureError>): Result<(nat, nat), CaptureError>
  {
    if selection.Err? then Err(selection.error)
    else Ok((selection.value.1.videoFormat.width, selection.value.1.videoFormat.height))
  }

  /**
   * The resolution preparing reports is the size of the first narrow format
   * of the first group's colour source, so its width is within the preview
   * limit; it is reported exactly when that format exists, and otherwise the
   * failure is the selection's.
   */
  lemma PreparedResolution(sourceGroups: seq<SourceGroup>, frameSources: map<string, FrameSource>)
    ensures var r := PreviewResolution(PreviewSelection(sourceGroups, frameSources));
            (r.Ok? <==> PreviewSelection(sourceGroups, frameSources).Ok?)
            && (r.Err? ==> r.error == PreviewSelection(sourceGroups, frameSources).error)
    ensures var r := PreviewResolution(PreviewSelection(sourceGroups, frameSources));
            r.Ok? ==>
              sourceGroups != [] && LastColorVideo(sourceGroups[0].sourceInfos).Some?
              && LastColorVideo(sourceGroups[0].sourceInfos).value.id in frameSources
              && var format := SupportedFrameFormat(frameSources[LastColorVideo(sourceGroups[0].sourceInfos).value.id].supportedFormats);
                 format.Some?
                 && r.value == (format.value.videoFormat.width, format.value.videoFormat.height)
                 && r.value.0 <= MaxPreviewWidth
  {
  }

  /** The asynchronous one-shot event the scan waits on. */
  class Event {
    var isSet: bool

    /** A fresh event is not set. */
    constructor ()
      ensures !isSet
    {
      isSet := false;
    }

    /** Setting the event; it stays set. */
    method Set()
      modifies this
      ensures isSet
    {
      isSet := true;
    }
  }

  /**
   * The capture session object. Its fields are the claimed camera, whether
   * the camera decodes, the frame reader, the registered sink, the scan
   * event and the last decoded label; `delivered` records every call made
   * to a sink, in order.
   */
  class WinrtCapture {
    var cameraClaimed: bool
    var decodingEnabled: bool
    var mediaFrameReader: Option<FrameReader>
    var uiUpdate: Option<Sink>
    var scanned: Event?
    var result: Option<string>
    var delivered: seq<(Sink, seq<bv8>)>
    /** Every scan event this object has installed, the current one included. */
    ghost var issued: set<Event>

    /** The current event is one of those issued, and whenever an issued event is set, a label has been stored. */
    ghost predicate Valid()
      reads this, issued
    {
      (scanned != null ==> scanned in issued)
      && forall e :: e in issued && e.isSet ==> result.Some?
    }

    /** A new session: nothing claimed, no reader, no sink, no event, no label. */
    constructor ()
      ensures Valid()
      ensures !cameraClaimed && !decodingEnabled && mediaFrameReader == None && uiUpdate == None
      ensures scanned == null && result == None && delivered == []
    {
      cameraClaimed := false;
      decodingEnabled := false;
      mediaFrameReader := None;
      uiUpdate := None;
      scanned := null;
      result := None;
      delivered := [];
      issued := {};
    }

    /**
     * Claims the default barcode scanner and enables decoding, then prepares
     * the preview. No scanner raises before anything changes; a refused claim
     * leaves no camera and raises; after a successful claim the camera stays
     * claimed whatever the preview does.
     */
    method PrepareWebcam(scannerFound: bool, claimGranted: bool, sourceGroups: seq<SourceGroup>,
                         frameSources: map<string, FrameSource>) returns (r: Result<(nat, nat), CaptureError>)
      requires Valid()
      modifies this
      ensures Valid()
      ensures !scannerFound ==>
                r == Err(NoScanner) && cameraClaimed == old(cameraClaimed)
                && decodingEnabled == old(decodingEnabled) && mediaFrameReader == old(mediaFrameReader)
      ensures scannerFound && !claimGranted ==>
                r == Err(ClaimFailed) && !cameraClaimed
                && decodingEnabled == old(decodingEnabled) && mediaFrameReader == old(mediaFrameReader)
      ensures scannerFound && claimGranted ==>
                cameraClaimed && decodingEnabled
                && r == PreviewResolution(PreviewSelection(sourceGroups, frameSources))
      ensures r.Ok? ==> mediaFrameReader == Some(FrameReader(PreviewSelection(sourceGroups, frameSources).value.0,
                                                             PreviewSelection(sourceGroups, frameSources).value.1, false))
      ensures r.Ok? ==> scannerFound && claimGranted && mediaFrameReader.Some?
                        && r.value == (mediaFrameReader.value.format.videoFormat.width,
                                       mediaFrameReader.value.format.videoFormat.height)
                        && r.value.0 <= MaxPreviewWidth
      ensures r.Err? ==> mediaFrameReader == old(mediaFrameReader)
      ensures uiUpdate == old(uiUpdate) && scanned == old(scanned) && result == old(result) && issued == old(issued)
      ensures delivered == old(delivered)
    {
      if !scannerFound {
        return Err(NoScanner);
      }
      if !claimGranted {
        cameraClaimed := false;
        return Err(ClaimFailed);
      }
      cameraClaimed := true;
      decodingEnabled := true;
      r := PreparePreview(sourceGroups, frameSources);
    }

    /**
     * Opens the colour source of the first source group with its first
     * format no wider than the preview limit, installs a frame reader for
     * it and returns the format's resolution. Each missing piece raises
     * before a reader is installed.
     */
    method PreparePreview(sourceGroups: seq<SourceGroup>, frameSources: map<string, FrameSource>)
      returns (r: Result<(nat, nat), CaptureError>)
      requires Valid()
      modifies this
      ensures Valid()
      ensures r == PreviewResolution(PreviewSelection(sourceGroups, frameSources))
      ensures r.Ok? ==> mediaFrameReader == Some(FrameReader(PreviewSelection(sourceGroups, frameSources).value.0,
                                                             PreviewSelection(sourceGroups, frameSources).value.1, false))
      ensures r.Ok? ==> r.value.0 <= MaxPreviewWidth && mediaFrameReader.Some?
                        && r.value == (mediaFrameReader.value.format.videoFormat.width,
                                       mediaFrameReader.value.format.videoFormat.height)
      ensures r.Err? ==> mediaFrameReader == old(mediaFrameReader)
      ensures cameraClaimed == old(cameraClaimed) && decodingEnabled == old(decodingEnabled)
      ensures uiUpdate == old(uiUpdate) && scanned == old(scanned) && result == old(result) && issued == old(issued)
      ensures delivered == old(delivered)
    {
      var found := FindColorSource(sourceGroups);
      if found.None? {
        return Err(NoSourceGroup);
      }
      var colorSource := found.value.1;
      if colorSource.None? {
        return Err(NoColorSource);
      }
      var id := colorSource.value.id;
      if id !in frameSources {
        return Err(UnknownFrameSource);
      }
      var colorFrameFormat := SupportedFrameFormat(frameSources[id].supportedFormats);
      if colorFrameFormat.None? {
        return Err(NoSupportedFormat);
      }
      mediaFrameReader := Some(FrameReader(id, colorFrameFormat.value, false));
      r := Ok((colorFrameFormat.value.videoFormat.width, colorFrameFormat.value.videoFormat.height));
    }

    /**
     * The part of a scan before it waits: installs a fresh unset event and
     * the sink, then starts the frame reader, which raises when there is none.
     */
    method Start(sink: Sink) returns (ev: Event, r: Result<(), CaptureError>)
      requires Valid()
      modifies this
      ensures Valid()
      ensures fresh(ev) && !ev.isSet && scanned == ev && issued == old(issued) + {ev} && uiUpdate == Some(sink)
      ensures old(mediaFrameReader).None? ==> r == Err(NoFrameReader) && mediaFrameReader == None
      ensures old(mediaFrameReader).Some? ==> r == Ok(()) && mediaFrameReader == Some(old(mediaFrameReader).value.(running := true))
      ensures cameraClaimed == old(cameraClaimed) && decodingEnabled == old(decodingEnabled)
      ensures result == old(result) && delivered == old(delivered)
    {
      ev := new Event();
      scanned := ev;
      issued := issued + {ev};
      uiUpdate := Some(sink);
      if mediaFrameReader.None? {
        r := Err(NoFrameReader);
        return;
      }
      mediaFrameReader := Some(mediaFrameReader.value.(running := true));
      r := Ok(());
    }

    /**
     * The part of a scan after the event it waits on, the one `Start`
     * installed for it, is set: stops the session and returns the label
     * stored last, or the exception stopping raises.
     */
    method FinishScan(ev: Event) returns (r: Result<string, CaptureError>)
      requires Valid() && ev in issued && ev.isSet
      modifies this
      ensures Valid()
      ensures old(mediaFrameReader).None? ==>
                r == Err(NoFrameReader) && mediaFrameReader == None && decodingEnabled == old(decodingEnabled)
      ensures old(mediaFrameReader).Some? && !cameraClaimed ==>
                r == Err(NoCamera) && mediaFrameReader == Some(old(mediaFrameReader).value.(running := false))
                && decodingEnabled == old(decodingEnabled)
      ensures old(mediaFrameReader).Some? && cameraClaimed ==>
                result.Some? && r == Ok(result.value) && mediaFrameReader == None && !decodingEnabled
      ensures result == old(result) && scanned == old(scanned) && uiUpdate == old(uiUpdate)
      ensures issued == old(issued)
      ensures cameraClaimed == old(cameraClaimed) && delivered == old(delivered)
    {
      var stopped := Stop();
      if stopped.Err? {
        return Err(stopped.error);
      }
      r := Ok(result.value);
    }

    /**
     * The decode event: stores the decoded label, replacing any earlier one,
     * and sets the scan event. A label that fails to decode changes nothing;
     * before any scan has started there is no event, and setting it raises
     * after the label is stored.
     */
    method OnDataReceived(decoded: Option<string>)
      requires Valid()
      modifies this, scanned
      ensures Valid()
      ensures scanned == old(scanned)
      ensures decoded.None? ==> result == old(result) && (scanned != null ==> scanned.isSet == old(scanned.isSet))
      ensures decoded.Some? ==> result == decoded && (scanned != null ==> scanned.isSet)
      ensures uiUpdate == old(uiUpdate) && mediaFrameReader == old(mediaFrameReader) && issued == old(issued)
      ensures cameraClaimed == old(cameraClaimed) && decodingEnabled == old(decodingEnabled)
      ensures delivered == old(delivered)
    {
      if decoded.None? {
        return;
      }
      result := decoded;
      if scanned != null {
        scanned.Set();
      }
    }

    /**
     * A frame arrival: with a sink registered and a frame carrying a bitmap,
     * hands the sink one buffer holding the whole converted image; otherwise
     * hands it nothing.
     */
    method FrameReceived(latest: Option<MediaFrameReference>, convert: SoftwareBitmap -> SoftwareBitmap)
      returns (o: RelayOutcome)
      requires Valid()
      modifies this
      ensures Valid()
      ensures uiUpdate == old(uiUpdate)
      ensures o == Relay(uiUpdate, latest, convert)
      ensures delivered == old(delivered) + (if o.Delivered? then [(uiUpdate.value, o.buffer)] else [])
      ensures scanned == old(scanned) && result == old(result) && issued == old(issued)
      ensures mediaFrameReader == old(mediaFrameReader)
      ensures cameraClaimed == old(cameraClaimed) && decodingEnabled == old(decodingEnabled)
    {
      if uiUpdate.None? {
        return NoCallback;
      }
      if latest.None? {
        return NoFrame;
      }
      var videoFrame := latest.value.videoMediaFrame;
      if videoFrame.None? {
        return NoVideoFrame;
      }
      var bitmap := videoFrame.value.softwareBitmap;
      if bitmap.None? {
        return NoBitmap;
      }
      var converted := convert(bitmap.value);
      var buffer := CopyToByteArray(converted);
      delivered := delivered + [(uiUpdate.value, buffer)];
      o := Delivered(buffer);
    }

    /**
     * Stops the frame reader, disables the camera and drops the reader. With
     * no reader it raises at once; with no camera it raises after stopping
     * the reader, which stays installed. Stopping twice raises the second time.
     */
    method Stop() returns (r: Result<(), CaptureError>)
      requires Valid()
      modifies this
      ensures Valid()
      ensures old(mediaFrameReader).None? ==> r == Err(NoFrameReader) && mediaFrameReader == None
                                              && decodingEnabled == old(decodingEnabled)
      ensures old(mediaFrameReader).Some? && !cameraClaimed ==>
                r == Err(NoCamera) && mediaFrameReader == Some(old(mediaFrameReader).value.(running := false))
                && decodingEnabled == old(decodingEnabled)
      ensures old(mediaFrameReader).Some? && cameraClaimed ==> r == Ok(()) && mediaFrameReader == None && !decodingEnabled
      ensures r.Ok? <==> old(mediaFrameReader).Some? && cameraClaimed
      ensures cameraClaimed == old(cameraClaimed) && uiUpdate == old(uiUpdate) && scanned == old(scanned) && issued == old(issued)
      ensures result == old(result) && delivered == old(delivered)
    {
      if mediaFrameReader.None? {
        return Err(NoFrameReader);
      }
      mediaFrameReader := Some(mediaFrameReader.value.(running := false));
      if !cameraClaimed {
        return Err(NoCamera);
      }
      decodingEnabled := false;
      mediaFrameReader := None;
      r := Ok(());
    }
  }
}
