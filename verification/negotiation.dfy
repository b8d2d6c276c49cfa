/**
 * Format negotiation: choosing the colour video source of a camera and a
 * preview format for it. The platform's source groups, source infos and
 * frame formats are plain records here; enumerating them is the platform's
 * business and the model receives them as inputs.
 */
module Negotiation {
  import opened Wrappers

  /** The kinds of stream a capture device offers. */
  datatype MediaStreamType = VideoPreview | VideoRecord | Audio | Photo | Metadata

  /** What a frame source delivers. */
  datatype SourceKind = Custom | Color | Infrared | Depth | AudioKind | Image | MetadataKind

  /** One source of a source group. */
  datatype SourceInfo = SourceInfo(id: string, mediaStreamType: MediaStreamType, sourceKind: SourceKind)

  /** A group of related sources of one device (colour, depth, infrared of one camera). */
  datatype SourceGroup = SourceGroup(displayName: string, sourceInfos: seq<SourceInfo>)

  /** Pixel dimensions of a video format. */
  datatype VideoFormat = VideoFormat(width: nat, height: nat)

  /** A format a frame source supports. */
  datatype MediaFrameFormat = MediaFrameFormat(videoFormat: VideoFormat)

  /** A frame source of an initialised capture device, keyed by its source info's id. */
  datatype FrameSource = FrameSource(id: string, supportedFormats: seq<MediaFrameFormat>)

  /** The widest preview format the negotiation accepts, in pixels. */
  const MaxPreviewWidth: nat := 800

  /** A source info qualifies as the colour source when it records video in colour. */
  predicate IsColorVideo(info: SourceInfo)
  {
    info.mediaStreamType == VideoRecord && info.sourceKind == Color
  }

  /**
   * The colour source a scan over `infos` settles on: each qualifying info
   * replaces the one before, so the last qualifying info is chosen.
   */
  function LastColorVideo(infos: seq<SourceInfo>): Option<SourceInfo>
  {
    if infos == [] then None
    else if IsColorVideo(infos[|infos| - 1]) then Some(infos[|infos| - 1])
    else LastColorVideo(infos[..|infos| - 1])
  }

  /** No colour source is chosen exactly when no info qualifies. */
  lemma {:induction false} LastColorVideoNone(infos: seq<SourceInfo>)
    ensures LastColorVideo(infos) == None <==> forall i :: 0 <= i < |infos| ==> !IsColorVideo(infos[i])
  {
    if infos != [] {
      var init := infos[..|infos| - 1];
      LastColorVideoNone(init);
      assert forall i :: 0 <= i < |init| ==> init[i] == infos[i];
    }
  }

  /** The chosen info is the qualifying one that no later qualifying info follows. */
  lemma {:induction false} LastColorVideoIsLastMatch(infos: seq<SourceInfo>, k: nat)
    requires k < |infos| && IsColorVideo(infos[k])
    requires forall j :: k < j < |infos| ==> !IsColorVideo(infos[j])
    ensures LastColorVideo(infos) == Some(infos[k])
  {
    if k < |infos| - 1 {
      var init := infos[..|infos| - 1];
      assert forall j :: k < j < |init| ==> init[j] == infos[j];
      LastColorVideoIsLastMatch(init, k);
    }
  }

  /** An info that does not qualify, wherever it stands, never changes the choice. */
  lemma {:induction false} NonMatchingInfoIgnored(before: seq<SourceInfo>, info: SourceInfo, after: seq<SourceInfo>)
    requires !IsColorVideo(info)
    ensures LastColorVideo(before + [info] + after) == LastColorVideo(before + after)
  {
    if after == [] {
      assert (before + [info] + after)[..|before|] == before;
      assert before + after == before;
    } else {
      var init := after[..|after| - 1];
      NonMatchingInfoIgnored(before, info, init);
      assert (before + [info] + after)[..|before + [info] + after| - 1] == before + [info] + init;
      assert (before + after)[..|before + after| - 1] == before + init;
    }
  }

  /** Two colour video-record entries: the later one is chosen. */
  lemma LastMatchWinsExample(a: SourceInfo, b: SourceInfo)
    requires IsColorVideo(a) && IsColorVideo(b)
    ensures LastColorVideo([a, b]) == Some(b)
  {
  }

  /**
   * Looks for the colour source among the source groups. The search runs
   * over the infos of a group and then returns from inside the loop over the
   * groups, so only the first group is ever looked at: no group yields no
   * pair at all, and a first group without a colour info yields the group
   * paired with no source.
   */
  method FindColorSource(sourceGroups: seq<SourceGroup>) returns (r: Option<(SourceGroup, Option<SourceInfo>)>)
    ensures sourceGroups == [] ==> r == None
    ensures sourceGroups != [] ==> r == Some((sourceGroups[0], LastColorVideo(sourceGroups[0].sourceInfos)))
  {
    var colorSource: Option<SourceInfo> := None;
    for g := 0 to |sourceGroups|
      invariant g == 0 && colorSource == None
    {
      var group := sourceGroups[g];
      for i := 0 to |group.sourceInfos|
        invariant colorSource == LastColorVideo(group.sourceInfos[..i])
      {
        var info := group.sourceInfos[i];
        if info.mediaStreamType == VideoRecord && info.sourceKind == Color {
          colorSource := Some(info);
        }
        assert group.sourceInfos[..i + 1][..i] == group.sourceInfos[..i];
      }
      assert group.sourceInfos[..|group.sourceInfos|] == group.sourceInfos;
      return Some((group, colorSource));
    }
    return None;
  }

  /**
   * The first supported format no wider than the preview limit, in list
   * order, or none when every format is wider.
   */
  function SupportedFrameFormat(formats: seq<MediaFrameFormat>): (r: Option<MediaFrameFormat>)
    ensures r.None? <==> forall i :: 0 <= i < |formats| ==> formats[i].videoFormat.width > MaxPreviewWidth
    ensures r.Some? ==> r.value in formats && r.value.videoFormat.width <= MaxPreviewWidth
  {
    if formats == [] then None
    else if formats[0].videoFormat.width <= MaxPreviewWidth then Some(formats[0])
    else SupportedFrameFormat(formats[1..])
  }

  /** The chosen format is the first narrow one: every format before it is too wide. */
  lemma {:induction false} SupportedFrameFormatIsFirst(formats: seq<MediaFrameFormat>, k: nat)
    requires k < |formats| && formats[k].videoFormat.width <= MaxPreviewWidth
    requires forall j :: 0 <= j < k ==> formats[j].videoFormat.width > MaxPreviewWidth
    ensures SupportedFrameFormat(formats) == Some(formats[k])
  {
    if k > 0 {
      SupportedFrameFormatIsFirst(formats[1..], k - 1);
    }
  }

  /** Formats 1920, 640 and 1280 wide: the 640-wide one is chosen. */
  lemma FirstNarrowFormatExample(h: nat)
    ensures SupportedFrameFormat([MediaFrameFormat(VideoFormat(1920, h)), MediaFrameFormat(VideoFormat(640, h)),
                                  MediaFrameFormat(VideoFormat(1280, h))]) == Some(MediaFrameFormat(VideoFormat(640, h)))
  {
  }

  /** The choice is not the narrowest: of 1920, 640 and 320 wide, 640 is chosen. */
  lemma NotNecessarilyNarrowest(h: nat)
    ensures SupportedFrameFormat([MediaFrameFormat(VideoFormat(1920, h)), MediaFrameFormat(VideoFormat(640, h)),
                                  MediaFrameFormat(VideoFormat(320, h))]) == Some(MediaFrameFormat(VideoFormat(640, h)))
  {
  }
}
