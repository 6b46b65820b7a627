/**
 * The `Video2` stepper: a `playbin3` (or `playbin`) element playing one URI,
 * with an audio sink bin and a video sink bin, and the same lifecycle as
 * `Video1`.
 */
module Video2 {
  import opened Wrappers
  import opened VideoLifecycle

  /** A bin of elements linked in order, exposing the first one's sink pad. */
  datatype SinkBin = SinkBin(name: string, elements: seq<string>)

  /** A gain in dB set on one band of the equalizer. */
  datatype BandGain = BandGain(band: string, gain: int)

  /** What `init_playbin` builds and sets on the playbin. */
  datatype PlaybinSetup = PlaybinSetup(
    element: string,
    uri: string,
    audioSink: SinkBin,
    equalizer: seq<BandGain>,
    videoSink: Option<SinkBin>,   // the `video-sink` property, when set
    videoCallback: bool,          // the video appsink feeds the texture
    windowHandle: bool)           // the texture's surface is handed to the playbin as overlay

  /** The overlay branch of `init_playbin` is switched off with a literal `false`. */
  const UseOverlay := false

  /** `playbin3` when the v3 elements are enabled, `playbin` otherwise. */
  function PlaybinElement(v3Enabled: bool): (r: string)
    ensures r in {"playbin3", "playbin"}
    ensures r == "playbin3" <==> v3Enabled
  {
    if v3Enabled then "playbin3" else "playbin"
  }

  /**
   * `init_playbin` when every element builds: the playbin gets the stepper's
   * URI, an audio bin that cuts the middle and high bands by 24 dB, and,
   * since the overlay branch is disabled, a video bin whose appsink paints
   * the texture; no window handle is handed over.
   */
  function InitPlaybin(uri: string, v3Enabled: bool): (r: PlaybinSetup)
    ensures r.element == PlaybinElement(v3Enabled) && r.uri == uri
    ensures r.audioSink.name == "audio_sink_bin" && |r.audioSink.elements| >= 2
    ensures r.audioSink.elements[0] == "equalizer-3bands" && r.audioSink.elements[|r.audioSink.elements| - 1] == "appsink"
    ensures r.equalizer == [BandGain("band1", -24), BandGain("band2", -24)]
    ensures r.videoSink.Some? && r.videoSink.value.name == "video_sink_bin" && r.videoCallback
    ensures |r.videoSink.value.elements| >= 2 && r.videoSink.value.elements[0] == "videoconvert"
    ensures r.videoSink.value.elements[|r.videoSink.value.elements| - 1] == "appsink"
    ensures !r.windowHandle
  {
    var audio := SinkBin("audio_sink_bin", ["equalizer-3bands", "audioconvert", "audioresample", "appsink"]);
    var video := SinkBin("video_sink_bin", ["videoconvert", "videoscale", "appsink"]);
    var bands := [BandGain("band1", -24), BandGain("band2", -24)];
    if UseOverlay then
      PlaybinSetup(PlaybinElement(v3Enabled), uri, audio, bands, Option.None, false, true)
    else
      PlaybinSetup(PlaybinElement(v3Enabled), uri, audio, bands, Some(video), true, false)
  }

  class Video2 {
    var id: string
    const uri: string
    const v3Enabled: bool
    var first: bool
    var streamRunning: bool
    var pipeline: Option<ObjectRef>
    var bus: Option<ObjectRef>
    /** The `set_state` calls made so far, in order. */
    var requests: seq<Request>

    /** The lifecycle fields as a value. */
    function Snapshot(): Lifecycle
      reads this
    {
      Lifecycle(first, streamRunning, pipeline, bus, requests)
    }

    ghost predicate Valid()
      reads this
    {
      VideoLifecycle.Valid(Snapshot())
    }

    /** `Video2::default`: no URI, v3 elements enabled, and the id `Video1` the source gives it. */
    constructor Default()
      ensures uri == "" && v3Enabled && id == "Video1"
      ensures Snapshot() == Initial && Valid()
    {
      uri := "";
      v3Enabled := true;
      id := "Video1";
      first := true;
      streamRunning := false;
      pipeline := Option.None;
      bus := Option.None;
      requests := [];
    }

    /** `Video2::new`: the given URI and v3 choice, every other field at its default. */
    constructor (uri: string, v3Enabled: bool)
      ensures this.uri == uri && this.v3Enabled == v3Enabled && id == "Video1"
      ensures Snapshot() == Initial && Valid()
    {
      this.uri := uri;
      this.v3Enabled := v3Enabled;
      id := "Video1";
      first := true;
      streamRunning := false;
      pipeline := Option.None;
      bus := Option.None;
      requests := [];
    }

    /**
     * `initialize`: records the stepper id and runs `init_playbin`, whose
     * outcome is `outcome`; on success the stepper holds the playbin and its
     * bus and the stream runs.
     */
    method Initialize(stepperId: string, outcome: BuildOutcome) returns (ok: bool)
      modifies this
      ensures id == stepperId
      ensures (ok, Snapshot()) == VideoLifecycle.Initialize(old(Snapshot()), outcome)
      ensures old(Valid()) ==> Valid()
    {
      id := stepperId;
      match outcome {
        case BuildFailed =>
          ok := false;
        case Built(p, b) =>
          bus := Some(b);
          pipeline := Some(p);
          streamRunning := true;
          ok := true;
      }
    }

    /** `step` (drawing left out), with `queue` the messages pending on the bus; returns what stays there. */
    method Step(queue: seq<Message>) returns (remaining: seq<Message>)
      modifies this
      ensures id == old(id)
      ensures (Snapshot(), remaining) == VideoLifecycle.Step(old(Snapshot()), queue)
      ensures old(Valid()) ==> Valid()
    {
      remaining := queue;
      if pipeline.Some? {
        if first {
          requests := requests + [Request(pipeline.value, Playing)];
          first := false;
        }
        if streamRunning {
          remaining := CheckBus(queue);
        }
      }
    }

    /** `check_bus`: takes at most one wanted message from the bus and reacts to it. */
    method CheckBus(queue: seq<Message>) returns (remaining: seq<Message>)
      modifies this
      ensures id == old(id)
      ensures (Snapshot(), remaining) == VideoLifecycle.CheckBus(old(Snapshot()), queue)
      ensures old(Valid()) ==> Valid()
    {
      remaining := queue;
      if bus.Some? {
        var popped := PopFiltered(queue);
        remaining := popped.1;
        if popped.0.Some? {
          var msg := popped.0.value;
          match msg.kind {
            case Eos | Error =>
              if msg.src.Some? && pipeline.Some? && msg.src.value == pipeline.value {
                requests := requests + [Request(pipeline.value, Null)];
                streamRunning := false;
                bus := Option.None;
                pipeline := Option.None;
              }
            case _ =>
          }
        }
      }
    }

    /** `shutdown`: `pausedOk` says whether the request for `Paused` succeeded. */
    method Shutdown(pausedOk: bool)
      modifies this
      ensures id == old(id)
      ensures Snapshot() == VideoLifecycle.Shutdown(old(Snapshot()), pausedOk)
      ensures old(Valid()) ==> Valid()
    {
      if pipeline.Some? {
        requests := requests + [Request(pipeline.value, Paused)];
        if pausedOk {
          requests := requests + [Request(pipeline.value, Null)];
        }
      }
      bus := Option.None;
      pipeline := Option.None;
    }
  }
}
