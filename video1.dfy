/**
 * The `Video1` stepper: one of five pipeline variants chosen by its
 * `VideoType`, the choice of decoder front end for a URI, the classification
 * of new decoder pads into audio and video, and the stepper's lifecycle.
 */
module Video1 {
  import opened Wrappers
  import opened Strings
  import opened VideoLifecycle

  /** The kind of video (and where it comes from) a `Video1` plays. */
  datatype VideoType =
    | None
    | RtpStream(port: int)
    | RtpRawStream(port: int)
    | Decodebin(uri: string, v3Enabled: bool)
    | H264File(uri: string)
    | VP8File(uri: string)
    | VP9File(uri: string)

  /** The pipeline builders of `Video1`, each with the arguments it is called with. */
  datatype Builder =
    | InitRtpStream(port: int)
    | InitRtpRawStream(port: int)
    | InitDecodebin(uri: string, v3Enabled: bool)
    | InitH264(uri: string)
    | InitVp8(uri: string)

  /**
   * The builder `initialize` dispatches to: every variant has one except
   * `None` and `VP9File`, and each builder gets the variant's own port or URI.
   */
  function BuilderFor(vt: VideoType): (r: Option<Builder>)
    ensures r.None? <==> vt.None? || vt.VP9File?
    ensures vt.RtpStream? ==> r == Some(InitRtpStream(vt.port))
    ensures vt.RtpRawStream? ==> r == Some(InitRtpRawStream(vt.port))
    ensures vt.Decodebin? ==> r == Some(InitDecodebin(vt.uri, vt.v3Enabled))
    ensures vt.H264File? ==> r == Some(InitH264(vt.uri))
    ensures vt.VP8File? ==> r == Some(InitVp8(vt.uri))
  {
    match vt
    case RtpStream(port) => Some(InitRtpStream(port))
    case RtpRawStream(port) => Some(InitRtpRawStream(port))
    case Decodebin(uri, v3) => Some(InitDecodebin(uri, v3))
    case H264File(uri) => Some(InitH264(uri))
    case VP8File(uri) => Some(InitVp8(uri))
    case _ => Option.None
  }

  /**
   * `initialize` once the variant is known: a variant without a builder fails
   * without touching the state; otherwise the builder's outcome decides.
   */
  function InitializeVideo(vt: VideoType, s: Lifecycle, outcome: BuildOutcome): (r: (bool, Lifecycle))
    ensures r.0 <==> BuilderFor(vt).Some? && outcome.Built?
    ensures r.1.streamRunning <==> s.streamRunning || r.0
    ensures r.0 ==> r.1.pipeline == Some(outcome.pipeline) && r.1.bus == Some(outcome.bus)
    ensures !r.0 ==> r.1 == s
    ensures r.1.first == s.first && r.1.requests == s.requests
    ensures Valid(s) ==> Valid(r.1)
  {
    if BuilderFor(vt).None? then (false, s) else Initialize(s, outcome)
  }

  // ---------------------------------------------------------------------
  // init_decodebin: the decoder front end
  // ---------------------------------------------------------------------

  /** The first elements of a decodebin pipeline. */
  datatype DecodeFront =
    | UriDecodeBin(element: string, uri: string)
    | FileSrcDecodeBin(location: string, decoder: string)

  /** URIs the URI decoder handles itself: `file:` and `https://`. */
  predicate IsUri(uri: string)
  {
    StartsWith(uri, "file:") || StartsWith(uri, "https://")
  }

  /**
   * A `file:` or `https://` URI goes to `uridecodebin3` (with v3) or
   * `uridecodebin`, which gets the URI; anything else is read as a path by
   * `filesrc` linked to `decodebin3` (with v3) or `decodebin`.
   */
  function ChooseDecodeFront(uri: string, v3Enabled: bool): (r: DecodeFront)
    ensures r.UriDecodeBin? <==> IsUri(uri)
    ensures r.UriDecodeBin? ==> r.uri == uri && r.element in {"uridecodebin3", "uridecodebin"} && (r.element == "uridecodebin3" <==> v3Enabled)
    ensures r.FileSrcDecodeBin? ==> r.location == uri && r.decoder in {"decodebin3", "decodebin"} && (r.decoder == "decodebin3" <==> v3Enabled)
  {
    if IsUri(uri) then
      UriDecodeBin(if v3Enabled then "uridecodebin3" else "uridecodebin", uri)
    else
      FileSrcDecodeBin(uri, if v3Enabled then "decodebin3" else "decodebin")
  }

  /** Only `https://` counts as a URI on the network: an `http://` URI is handed to `filesrc` as a file path. */
  lemma HttpIsReadAsPath(rest: string)
    ensures ChooseDecodeFront("http://" + rest, true) == FileSrcDecodeBin("http://" + rest, "decodebin3")
  {
    var u := "http://" + rest;
    assert u[..5] != "file:" by { assert u[0] == 'h'; }
    assert |u| >= 8 ==> u[..8] != "https://" by {
      if |u| >= 8 { assert u[4] == ':'; assert "https://"[4] == 's'; }
    }
  }

  // ---------------------------------------------------------------------
  // Pads added by a demuxer or decoder
  // ---------------------------------------------------------------------

  /** The elements whose new pads get a sink: decodebin (decodebin variant), qtdemux (H.264), matroskademux (VP8). */
  datatype PadSource = DecodebinPads | QtDemuxPads | MatroskaPads

  /** The element whose pads a builder handles, if it handles any. */
  function PadSourceOf(b: Builder): (r: Option<PadSource>)
    ensures r.None? <==> b.InitRtpStream? || b.InitRtpRawStream?
  {
    match b
    case InitDecodebin(_, _) => Some(DecodebinPads)
    case InitH264(_) => Some(QtDemuxPads)
    case InitVp8(_) => Some(MatroskaPads)
    case _ => Option.None
  }

  /**
   * The elements each builder links when it runs, before any pad is added:
   * the RTP builders a complete chain from `udpsrc` to the appsink, the
   * others a source followed by the element whose pads are handled later.
   */
  function StaticChain(b: Builder): (r: seq<string>)
    ensures |r| >= 1
    ensures r[|r| - 1] == "appsink" <==> PadSourceOf(b).None?
    ensures r[0] == "udpsrc" <==> PadSourceOf(b).None?
    ensures r[0] == "filesrc" <==> b.InitH264? || b.InitVp8? || (b.InitDecodebin? && !IsUri(b.uri))
    ensures PadSourceOf(b).Some? ==> |r| == (if r[0] == "filesrc" then 2 else 1)
    ensures b.InitH264? ==> r[|r| - 1] == "qtdemux"
    ensures b.InitVp8? ==> r[|r| - 1] == "matroskademux"
    ensures b.InitDecodebin? ==>
      r[|r| - 1] == (if IsUri(b.uri) then "uridecodebin" else "decodebin") + (if b.v3Enabled then "3" else "")
  {
    match b
    case InitRtpStream(_) => ["udpsrc", "rtph264depay", "h264parse", "avdec_h264", "videoconvert", "videoscale", "appsink"]
    case InitRtpRawStream(_) => ["udpsrc", "rtpvrawdepay", "videorate", "appsink"]
    case InitDecodebin(uri, v3) =>
      (match ChooseDecodeFront(uri, v3)
       case UriDecodeBin(element, _) => [element]
       case FileSrcDecodeBin(_, decoder) => ["filesrc", decoder])
    case InitH264(_) => ["filesrc", "qtdemux"]
    case InitVp8(_) => ["filesrc", "matroskademux"]
  }

  /** Media type of a pad, from the name of the first structure of its caps: (audio, video). */
  function MediaType(caps: Option<seq<string>>): (r: Option<(bool, bool)>)
    ensures r.None? <==> caps.None? || caps.value == []
    ensures r.Some? ==> r.value == (StartsWith(caps.value[0], "audio/"), StartsWith(caps.value[0], "video/"))
    ensures r.Some? ==> !(r.value.0 && r.value.1)
  {
    match caps
    case None => Option.None
    case Some(structures) =>
      if structures == [] then Option.None
      else Some((StartsWith(structures[0], "audio/"), StartsWith(structures[0], "video/")))
  }

  /** The chain linked to an audio pad. */
  function AudioSinkChain(src: PadSource): (r: seq<string>)
    ensures |r| >= 4 && r[0] == "queue" && r[|r| - 1] == "appsink"
    ensures "audioconvert" in r && "audioresample" in r
  {
    match src
    case DecodebinPads => ["queue", "audioconvert", "audioresample", "appsink"]
    case QtDemuxPads => ["queue", "faad", "audioconvert", "audioresample", "appsink"]
    case MatroskaPads => ["queue", "vorbisdec", "audioconvert", "audioresample", "appsink"]
  }

  /** The chain linked to a video pad. */
  function VideoSinkChain(src: PadSource): (r: seq<string>)
    ensures |r| >= 4 && r[0] == "queue" && r[|r| - 1] == "appsink"
    ensures "videoconvert" in r && "videoscale" in r
  {
    match src
    case DecodebinPads => ["queue", "videoconvert", "videoscale", "appsink"]
    case QtDemuxPads => ["queue", "h264parse", "openh264dec", "videoconvert", "videoscale", "appsink"]
    case MatroskaPads => ["queue", "vp8dec", "videoconvert", "videoscale", "appsink"]
  }

  /** What the `pad-added` handler does with a new pad. */
  datatype PadAction =
    | PipelineGone                      // the pipeline no longer exists: nothing
    | NoMediaType                       // no caps: a negotiation warning, nothing linked
    | LinkAudio(elements: seq<string>)  // an audio chain inserted and linked to the pad
    | LinkVideo(elements: seq<string>)  // a video chain inserted and linked to the pad
    | NoSink                            // neither audio nor video: nothing inserted

  /**
   * The `pad-added` handler: nothing if the pipeline is gone; a warning if
   * the pad has no media type; otherwise the audio chain for an `audio/`
   * pad, checked first, else the video chain for a `video/` pad, else
   * nothing.
   */
  function OnPadAdded(src: PadSource, pipelineAlive: bool, caps: Option<seq<string>>): (r: PadAction)
    ensures !pipelineAlive <==> r.PipelineGone?
    ensures pipelineAlive ==> (r.NoMediaType? <==> MediaType(caps).None?)
    ensures r.LinkAudio? <==> pipelineAlive && MediaType(caps).Some? && MediaType(caps).value.0
    ensures r.LinkVideo? <==> pipelineAlive && MediaType(caps).Some? && !MediaType(caps).value.0 && MediaType(caps).value.1
    ensures r.LinkAudio? ==> r.elements == AudioSinkChain(src)
    ensures r.LinkVideo? ==> r.elements == VideoSinkChain(src)
  {
    if !pipelineAlive then PipelineGone
    else match MediaType(caps)
      case None => NoMediaType
      case Some((isAudio, isVideo)) =>
        if isAudio then LinkAudio(AudioSinkChain(src))
        else if isVideo then LinkVideo(VideoSinkChain(src))
        else NoSink
  }

  // ---------------------------------------------------------------------
  // The stepper
  // ---------------------------------------------------------------------

  class Video1 {
    const videoType: VideoType
    var id: string
    var first: bool
    var streamRunning: bool
    var pipeline: Option<ObjectRef>
    var bus: Option<ObjectRef>
    /** The `set_state` calls made so far, in order. */
    var requests: seq<Request>

    /** The lifecycle fields as a value. */
    function Snapshot(): Lifecycle
      reads this
    {
      Lifecycle(first, streamRunning, pipeline, bus, requests)
    }

    ghost predicate Valid()
      reads this
    {
      VideoLifecycle.Valid(Snapshot())
    }

    /** `Video1::new`: the given variant, every other field at its default. */
    constructor (videoType: VideoType)
      ensures this.videoType == videoType && id == "Video1"
      ensures Snapshot() == Initial && Valid()
    {
      this.videoType := videoType;
      id := "Video1";
      first := true;
      streamRunning := false;
      pipeline := Option.None;
      bus := Option.None;
      requests := [];
    }

    /**
     * `initialize`: records the stepper id and runs the variant's builder,
     * whose outcome is `outcome`; true iff a builder exists and succeeded.
     */
    method Initialize(stepperId: string, outcome: BuildOutcome) returns (ok: bool)
      modifies this
      ensures id == stepperId
      ensures (ok, Snapshot()) == InitializeVideo(videoType, old(Snapshot()), outcome)
      ensures old(Valid()) ==> Valid()
    {
      id := stepperId;
      var builder := BuilderFor(videoType);
      if builder.None? {
        return false;
      }
      match outcome {
        case BuildFailed =>
          ok := false;
        case Built(p, b) =>
          bus := Some(b);
          pipeline := Some(p);
          streamRunning := true;
          ok := true;
      }
    }

    /** `step` (drawing left out), with `queue` the messages pending on the bus; returns what stays there. */
    method Step(queue: seq<Message>) returns (remaining: seq<Message>)
      modifies this
      ensures id == old(id)
      ensures (Snapshot(), remaining) == VideoLifecycle.Step(old(Snapshot()), queue)
      ensures old(Valid()) ==> Valid()
    {
      remaining := queue;
      if pipeline.Some? {
        if first {
          requests := requests + [Request(pipeline.value, Playing)];
          first := false;
        }
        if streamRunning {
          remaining := CheckBus(queue);
        }
      }
    }

    /** `check_bus`: takes at most one wanted message from the bus and reacts to it. */
    method CheckBus(queue: seq<Message>) returns (remaining: seq<Message>)
      modifies this
      ensures id == old(id)
      ensures (Snapshot(), remaining) == VideoLifecycle.CheckBus(old(Snapshot()), queue)
      ensures old(Valid()) ==> Valid()
    {
      remaining := queue;
      if bus.Some? {
        var popped := PopFiltered(queue);
        remaining := popped.1;
        if popped.0.Some? {
          var msg := popped.0.value;
          match msg.kind {
            case Eos | Error =>
              if msg.src.Some? && pipeline.Some? && msg.src.value == pipeline.value {
                requests := requests + [Request(pipeline.value, Null)];
                streamRunning := false;
                bus := Option.None;
                pipeline := Option.None;
              }
            case _ =>
          }
        }
      }
    }

    /** `shutdown`: `pausedOk` says whether the request for `Paused` succeeded. */
    method Shutdown(pausedOk: bool)
      modifies this
      ensures id == old(id)
      ensures Snapshot() == VideoLifecycle.Shutdown(old(Snapshot()), pausedOk)
      ensures old(Valid()) ==> Valid()
    {
      if pipeline.Some? {
        requests := requests + [Request(pipeline.value, Paused)];
        if pausedOk {
          requests := requests + [Request(pipeline.value, Null)];
        }
      }
      bus := Option.None;
      pipeline := Option.None;
    }
  }
}
