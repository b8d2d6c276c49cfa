# winrtqrabber capture core in Dafny

This project models the capture core of winrtqrabber. winrtqrabber is a webcam barcode/QR scanner for Windows, built on the WinRT media capture and point-of-service APIs. The model covers three things:

- how the colour video source and a preview format are negotiated;
- how each arriving frame is turned into an RGBA8 byte buffer for the view's sink;
- how the `WinrtCapture` object coordinates a scan: a fresh event per scan, a decode callback that stores the label and sets the event, and a stop that drops the frame reader.

The model follows the code as written, not an idealised design:

- only the first source group is searched;
- a later decode event overwrites the stored label;
- stopping twice raises the second time;
- stopping during a scan does not wake the scan that is waiting.

Files:

- `wrappers.dfy`: `Option` (Python's `None`) and `Result` (a value or the exception raised).
- `negotiation.dfy` (module `Negotiation`): `find_color_source` is a method with the source's two loops and its early `return`. `get_supported_frame_format` is a recursive first-match function. `LastColorVideo` specifies the inner loop, and lemmas characterise it.
- `capture.dfy` (module `Capture`): the `Event` class (asyncio's event, reduced to its flag) and the `WinrtCapture` class. Its fields are `cameraClaimed` (`_camera` is set), `decodingEnabled`, `mediaFrameReader`, `uiUpdate`, `scanned`, `result`, and `delivered`, a record of every sink call. Beside them are the specification functions `PreviewSelection`, `Relay` and `RelayAll`.
- `scenarios.dfy` (module `Scenarios`): runs of a session as the view drives it, on a camera with one colour source offering 800×600.

The asynchronous `start` is split at its `await self._scanned.wait()`. `Start` is the part before the wait, and it returns the event it installs. `FinishScan` is the continuation for that event, and it runs only once that event is set. A ghost set `issued` records every event the object has installed.

Platform calls are inputs to the model:

- whether a barcode scanner exists and whether the claim is granted;
- the source groups and the frame sources of the initialised capture device;
- the frame `try_acquire_latest_frame` yields;
- the RGBA8 conversion, as a function parameter;
- the decoded label, where `None` stands for a decode that raised.

The intended behaviour of the system differs from the code in several places. There, the model follows the code:

- The intended behaviour searches every group and returns the first one with a colour source. The code returns from inside the loop over groups.
- The intended behaviour ignores decode events once the gate is set. The code overwrites `_result` on every event.
- The intended behaviour makes `stop` idempotent. The code dereferences the missing frame reader and raises.
- The intended behaviour rejects a second start. The code installs a new event and starts the reader again; the first scan, waiting on the replaced event, is never woken.
- The intended behaviour says a stop releases a pending scan. The code leaves that scan waiting.

## Model

| member | source | states |
|---|---|---|
| Negotiation.FindColorSource | winrtqrabber/winrtcapture.py:50-65 | no groups gives no pair; otherwise the pair is the first group and the last colour video-record info of that group, so later groups never matter |
| Negotiation.LastColorVideoNone | winrtqrabber/winrtcapture.py:53-64 | the chosen colour source is absent exactly when no info of the group is a colour video-record stream |
| Negotiation.LastColorVideoIsLastMatch | winrtqrabber/winrtcapture.py:56-64 | a qualifying info with no qualifying info after it is the one chosen (last match wins) |
| Negotiation.NonMatchingInfoIgnored | winrtqrabber/winrtcapture.py:60-64 | inserting a non-qualifying info anywhere in the group never changes the choice |
| Negotiation.LastMatchWinsExample | winrtqrabber/winrtcapture.py:56-64 | of two colour video-record entries A, B the result is B |
| Negotiation.SupportedFrameFormat | winrtqrabber/winrtcapture.py:68-73 | no format is returned exactly when every format is wider than 800; a returned format is one of the list and at most 800 wide |
| Negotiation.SupportedFrameFormatIsFirst | winrtqrabber/winrtcapture.py:71-73 | the returned format is the first in list order at most 800 wide: every earlier format is wider |
| Negotiation.FirstNarrowFormatExample | winrtqrabber/winrtcapture.py:71-73 | of widths 1920, 640, 1280 the 640 format is chosen |
| Negotiation.NotNecessarilyNarrowest | winrtqrabber/winrtcapture.py:71-73 | of widths 1920, 640, 320 the 640 format is chosen, not the narrowest |
| Capture.PreviewSelection | winrtqrabber/winrtcapture.py:154-167 | each failure (no group, no colour source in the first group, unknown frame source, no narrow format) holds exactly when its cause does; it succeeds exactly when all four pieces exist, and then gives the colour source's id and its supported format, at most 800 wide |
| Capture.PreparedResolution | winrtqrabber/winrtcapture.py:166-177 | a resolution is reported exactly when the selection succeeds, and then it is the width and height of the first narrow format of the first group's colour source, with width at most 800; otherwise the failure is the selection's |
| Capture.CopyToByteArray | winrtqrabber/winrtcapture.py:204-208 | the buffer holds the bitmap's bytes, and is exactly those bytes when the bitmap holds 4·w·h of them |
| Capture.Relay | winrtqrabber/winrtcapture.py:184-210 | a buffer goes to the sink exactly when a sink is registered and the latest frame carries a bitmap; it is 4 × height × width of the converted bitmap long and holds that bitmap's bytes, exactly them when the bitmap has 4·w·h bytes; no sink, or no frame, delivers nothing |
| Capture.RelayAllCount | winrtqrabber/winrtcapture.py:179-210 | over any run of arrivals the sink receives one buffer per arrival with a bitmap, at most one per arrival, and none without a sink |
| Capture.Event.Set | winrtqrabber/winrtcapture.py:147 | the event is set afterwards |
| Capture.WinrtCapture.constructor | winrtqrabber/winrtcapture.py:83-91 | a new object has no camera, reader, sink, event or label |
| Capture.WinrtCapture.PrepareWebcam | winrtqrabber/winrtcapture.py:102-131 | no scanner raises with nothing changed; a refused claim raises with no camera; otherwise the camera is claimed and decoding enabled, and the result is the preview's; on success the installed reader is the selected source and format, stopped |
| Capture.WinrtCapture.PreparePreview | winrtqrabber/winrtcapture.py:152-177 | returns the selected format's (width, height), with width at most 800, and installs a stopped reader for that source and format; every failure leaves the reader as it was |
| Capture.WinrtCapture.Start | winrtqrabber/winrtcapture.py:92-97 | installs a fresh unset event, which it returns and adds to those issued, and the sink, then starts the reader, or raises when there is no reader |
| Capture.WinrtCapture.FinishScan | winrtqrabber/winrtcapture.py:98-100 | once the scan's own event is set, stops the session: on success returns the label stored last, leaves no reader and decoding disabled; with no reader raises with nothing changed; with no camera raises with the reader stopped but still installed |
| Capture.WinrtCapture.OnDataReceived | winrtqrabber/winrtcapture.py:140-150 | a decoded label overwrites the stored one and sets the event, which stays set; a failed decode changes nothing |
| Capture.WinrtCapture.FrameReceived | winrtqrabber/winrtcapture.py:179-213 | the outcome is `Relay` of the registered sink and the frame; the sink log grows by exactly that buffer, or not at all; no other field changes |
| Capture.WinrtCapture.Stop | winrtqrabber/winrtcapture.py:215-219 | with no reader raises; with no camera raises after stopping the reader; otherwise disables decoding and leaves no reader |
| Scenarios.EndToEnd | winrtqrabber/winrtcapture.py:92-100 | with one colour source offering 800×600: prepare gives (800, 600), one frame whose bitmap holds 4·800·600 bytes delivers exactly those bytes, one decode ends the scan with its label and no reader is left |
| Scenarios.StopTwice | winrtqrabber/winrtcapture.py:215-219 | the first stop succeeds and the second raises for want of a reader |
| Scenarios.LaterDecodeOverwrites | winrtqrabber/winrtcapture.py:145-147 | after two decode events the second label is stored, the event is set and the scan returns the second label |
| Scenarios.StopDuringScan | winrtqrabber/winrtcapture.py:92-100 | a stop while a scan waits leaves the event unset; were a decode event to wake the scan anyway, its own stop would raise |
| Scenarios.SecondStartOrphansFirst | winrtqrabber/winrtcapture.py:92-98 | a second start replaces the first scan's event; a decode event sets only the new one, so the first scan is never woken |
| Scenarios.FrameBeforeStart | winrtqrabber/winrtcapture.py:184-186 | a frame arriving before a sink is registered reaches no sink |

## Left out

- WinRT platform calls are not modelled. Some outcomes are inputs to the model: the source groups, the frame sources, whether a scanner exists and whether the claim is granted, the latest frame, the conversion, and the decoded label.
- These calls are assumed to succeed, although each can raise and the exception would escape `prepare_webcam`, `start` or `stop`: `enable_async` (line 126), `initialize_async` (line 163), `set_format_async` given a format (line 167), `create_frame_reader_async` (line 169), the reader's `start_async` (line 114) and `stop_async` (line 217), and the camera's `disable_async` (line 218).
- The software trigger (line 136) is not modelled; its failures are logged and ignored.
- `set_format_async` with no format is taken to raise. Either way the code raises by line 175, so no resolution is ever returned without a format.
- `SoftwareBitmap.convert` raising, and `try_acquire_latest_frame` or the sink raising, are not modelled. The conversion is a total function parameter. A sink that raises has still received its buffer.
- Capture.CopyToByteArray: the contents of the copied buffer come from a platform call. The model fixes its length, 4·h·w, and takes its bytes to be the bitmap's, zero past them. In practice an RGBA8 bitmap holds exactly 4·h·w bytes.
- `asyncio.Event.wait` and the hardware callback threads are not modelled. Each callback is one sequential step on the fields; interleavings are not modelled.
- The `_media_capture`, `_barcode_scanner` and settings objects are not modelled. The device id and the sharing, memory and streaming settings are passed through to the platform unchanged.
- Logging, and the logging half of the log-and-continue `except` paths, are not modelled. Those paths appear as outcomes that change nothing.
- The scan-data log line at line 148 is not modelled, and neither is `get_barcode_scanner`'s logging.
- `winrtqrabber/controller.py` is not part of this model. It forwards to `WinrtCapture` and stores what it returns.
- `winrtqrabber/view.py` (painting) and `demo.py` (application start-up) are not part of this model.
