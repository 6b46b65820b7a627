/**
 * The bookkeeping of `launch`: the steppers pushed at start, the `Show Log`
 * and `Decodebin3` toggles, and the seven video switches, each of which
 * pushes an add action under a fixed stepper name when switched on and a
 * remove action under the same name when switched off.
 *
 * Widgets, poses and rendering are left out: a switch event is the value the
 * toggle widget returned, and the file system is a `Probe` of the external
 * directory and the files that exist.
 */
module Launch {
  import opened Wrappers
  import opened Strings
  import Video1

  /** The video switches of the demo window. */
  datatype Switch =
    | RtpStream
    | PlaybinMp4
    | VideoMp4
    | VideoVp8
    | VideoMp4Dec
    | VideoVp8Dec
    | VideoVp8HttpsDec

  /** The stepper name a switch adds and removes. */
  function StepperName(sw: Switch): string
  {
    match sw
    case RtpStream => "RtpStream1"
    case PlaybinMp4 => "PlaybinH264"
    case VideoMp4 => "VideoH264"
    case VideoVp8 => "Videomkv_vp8"
    case VideoMp4Dec => "VideoH264_dec"
    case VideoVp8Dec => "Videovp8_dec"
    case VideoVp8HttpsDec => "video_VP8_dec"
  }

  /** The two steppers pushed before the first frame. */
  const LogWindowName := "LogWindow"
  const FlyOverName := "FlyOver"

  /** Every switch has its own stepper name, distinct from the two initial steppers. */
  lemma StepperNamesDistinct(a: Switch, b: Switch)
    ensures StepperName(a) == StepperName(b) <==> a == b
    ensures StepperName(a) != LogWindowName && StepperName(a) != FlyOverName
  {
  }

  // ---------------------------------------------------------------------
  // URIs of the file switches
  // ---------------------------------------------------------------------

  /** What the URI code of a file switch can see: the external directory, if any, and the files that exist. */
  datatype Probe = Probe(externalDir: Option<string>, files: set<string>)

  /** `Path::join` of a relative path: a separator is added unless the directory is empty or already ends with one. */
  function PathJoin(dir: string, rel: string): (r: string)
    ensures |r| >= |dir| + |rel| && r[..|dir|] == dir && r[|r| - |rel|..] == rel
  {
    if dir == [] || dir[|dir| - 1] == '/' then dir + rel else dir + "/" + rel
  }

  /** How a file switch forms its URI: the file under the external directory, the scheme put in front of its path, and the two placeholders used when it cannot. */
  datatype FileSource = FileSource(relPath: string, scheme: string, noFile: string, noDir: string)

  const Mp4File := "videos/test.mp4"
  const WebmFile := "videos/sintel_trailer-480p.webm"
  const HttpsWebm := "https://" + "gstreamer.freedesktop.org/data/media/sintel_trailer-480p.webm"

  /** The file source of each switch that plays a local file. */
  function FileSourceOf(sw: Switch): (r: Option<FileSource>)
    ensures r.None? <==> sw == RtpStream || sw == VideoVp8HttpsDec
    ensures r.Some? ==> r.value.relPath in {Mp4File, WebmFile}
    ensures r.Some? ==> (r.value.scheme == "file:" <==> sw in {PlaybinMp4, VideoMp4Dec, VideoVp8Dec})
    ensures r.Some? ==> r.value.scheme in {"", "file:"}
  {
    match sw
    case PlaybinMp4 => Some(FileSource(Mp4File, "file:", "!!!!!!!No File", "!!!!!!!No external path"))
    case VideoMp4 => Some(FileSource(Mp4File, "", "!!!!!!!No File", "!!!!!!!No external path"))
    case VideoVp8 => Some(FileSource(WebmFile, "", "!!!!!!No File", "!!!!!!No external path"))
    case VideoMp4Dec => Some(FileSource(Mp4File, "file:", "!!!!!!!No File", "!!!!!!No external path"))
    case VideoVp8Dec => Some(FileSource(WebmFile, "file:", "!!!!!!No File", "!!!!!!No external path"))
    case _ => Option.None
  }

  /** The file a source stands for under the external directory, if there is one and the file exists. */
  function ExistingFile(src: FileSource, probe: Probe): (r: Option<string>)
    ensures r.Some? <==> probe.externalDir.Some? && PathJoin(probe.externalDir.value, src.relPath) in probe.files
    ensures r.Some? ==> r.value in probe.files
  {
    match probe.externalDir
    case None => Option.None
    case Some(dir) =>
      var path := PathJoin(dir, src.relPath);
      if path in probe.files then Some(path) else Option.None
  }

  /**
   * The URI a file switch hands to its stepper: the scheme and the file's
   * path when the file exists; otherwise a placeholder starting with `!`
   * that names what was missing.
   */
  function ResolveUri(src: FileSource, probe: Probe): (r: string)
    ensures ExistingFile(src, probe).Some? ==> r == src.scheme + ExistingFile(src, probe).value
    ensures ExistingFile(src, probe).None? && probe.externalDir.Some? ==> r == src.noFile
    ensures probe.externalDir.None? ==> r == src.noDir
  {
    match ExistingFile(src, probe)
    case Some(path) => src.scheme + path
    case None => if probe.externalDir.None? then src.noDir else src.noFile
  }

  // ---------------------------------------------------------------------
  // Actions
  // ---------------------------------------------------------------------

  /** The steppers `launch` creates, with the settings it gives them (poses left out). */
  datatype Stepper =
    | LogWindow(shown: bool)
    | FlyOver
    | Video1Stepper(videoType: Video1.VideoType, width: int, height: int)
    | Video2Stepper(uri: string, v3Enabled: bool)

  /** Actions handed to the stepper runtime or its event loop. */
  datatype StepperAction =
    | Add(name: string, stepper: Stepper)
    | Remove(name: string)
    | Event(target: string, key: string, value: string)

  /** Default texture size of a `Video1`. */
  const DefaultWidth := 1920
  const DefaultHeight := 1080

  /** The stepper a switch starts; `uri` is the one `ResolveUri` gives the file switches. */
  function SwitchStepper(sw: Switch, uri: string, v3Enabled: bool): (r: Stepper)
    ensures sw == RtpStream ==> r == Video1Stepper(Video1.RtpStream(5000), 2288, 1430)
    ensures sw == PlaybinMp4 ==> r == Video2Stepper(uri, v3Enabled)
    ensures sw == VideoMp4 ==> r == Video1Stepper(Video1.H264File(uri), DefaultWidth, DefaultHeight)
    ensures sw == VideoVp8 ==> r == Video1Stepper(Video1.VP8File(uri), 854, 480)
    ensures sw in {VideoMp4Dec, VideoVp8Dec} ==> r == Video1Stepper(Video1.Decodebin(uri, v3Enabled), DefaultWidth, DefaultHeight)
    ensures sw == VideoVp8HttpsDec ==> r == Video1Stepper(Video1.Decodebin(HttpsWebm, v3Enabled), DefaultWidth, DefaultHeight)
  {
    match sw
    case RtpStream => Video1Stepper(Video1.RtpStream(5000), 2288, 1430)
    case PlaybinMp4 => Video2Stepper(uri, v3Enabled)
    case VideoMp4 => Video1Stepper(Video1.H264File(uri), DefaultWidth, DefaultHeight)
    case VideoVp8 => Video1Stepper(Video1.VP8File(uri), 854, 480)
    case VideoMp4Dec => Video1Stepper(Video1.Decodebin(uri, v3Enabled), DefaultWidth, DefaultHeight)
    case VideoVp8Dec => Video1Stepper(Video1.Decodebin(uri, v3Enabled), DefaultWidth, DefaultHeight)
    case VideoVp8HttpsDec => Video1Stepper(Video1.Decodebin(HttpsWebm, v3Enabled), DefaultWidth, DefaultHeight)
  }

  /**
   * The action a switch pushes when the toggle widget reports `newValue`: on
   * adds the switch's stepper under its name, off removes that name.
   */
  function ToggleAction(sw: Switch, newValue: bool, probe: Probe, v3Enabled: bool): (r: StepperAction)
    ensures r.Add? <==> newValue
    ensures r.Remove? <==> !newValue
    ensures r.name == StepperName(sw)
    ensures r.Add? && FileSourceOf(sw).Some? ==> r.stepper == SwitchStepper(sw, ResolveUri(FileSourceOf(sw).value, probe), v3Enabled)
    ensures r.Add? && FileSourceOf(sw).None? ==> r.stepper == SwitchStepper(sw, "", v3Enabled)
  {
    if newValue then
      var uri := match FileSourceOf(sw) case Some(src) => ResolveUri(src, probe) case None => "";
      Add(StepperName(sw), SwitchStepper(sw, uri, v3Enabled))
    else
      Remove(StepperName(sw))
  }

  /**
   * How the decodebin switches reach their media: with the file present the
   * URI has the `file:` scheme and goes to the URI decoder; a placeholder is
   * handed to `filesrc` as a path; the HTTPS switch always uses the URI
   * decoder.
   */
  lemma DecodebinSwitchFront(sw: Switch, probe: Probe, v3Enabled: bool)
    requires sw in {VideoMp4Dec, VideoVp8Dec, VideoVp8HttpsDec}
    ensures var a := ToggleAction(sw, true, probe, v3Enabled);
      var vt := a.stepper.videoType;
      var front := Video1.ChooseDecodeFront(vt.uri, vt.v3Enabled);
      a.stepper.Video1Stepper? && vt.Decodebin? &&
      (front.UriDecodeBin? <==> sw == VideoVp8HttpsDec || ExistingFile(FileSourceOf(sw).value, probe).Some?)
  {
    var a := ToggleAction(sw, true, probe, v3Enabled);
    var uri := a.stepper.videoType.uri;
    if sw == VideoVp8HttpsDec {
      assert uri == HttpsWebm;
      assert HttpsWebm[..8] == "https://";
    } else {
      var src := FileSourceOf(sw).value;
      if ExistingFile(src, probe).Some? {
        assert uri == "file:" + ExistingFile(src, probe).value;
        assert uri[..5] == "file:";
      } else {
        assert uri[0] == '!';
        assert !StartsWith(uri, "file:") by { assert "file:"[0] == 'f'; }
        assert !StartsWith(uri, "https://") by { assert "https://"[0] == 'h'; }
      }
    }
  }

  // ---------------------------------------------------------------------
  // Actions under one name
  // ---------------------------------------------------------------------

  /** The name an add or remove action is about. */
  predicate About(a: StepperAction, name: string)
  {
    (a.Add? || a.Remove?) && a.name == name
  }

  /** The most recent add or remove action about `name`. */
  function LastAbout(actions: seq<StepperAction>, name: string): (r: Option<StepperAction>)
    ensures r.Some? ==> r.value in actions && About(r.value, name)
    ensures r.Some? ==> exists i :: 0 <= i < |actions| && actions[i] == r.value
                          && forall j :: i < j < |actions| ==> !About(actions[j], name)
    ensures r.None? ==> forall i :: 0 <= i < |actions| ==> !About(actions[i], name)
  {
    if actions == [] then Option.None
    else if About(actions[|actions| - 1], name) then Some(actions[|actions| - 1])
    else
      var front := actions[..|actions| - 1];
      var r' := LastAbout(front, name);
      assert r'.Some? ==> exists i :: 0 <= i < |actions| && actions[i] == r'.value
                            && forall j :: i < j < |actions| ==> !About(actions[j], name) by {
        if r'.Some? {
          var i :| 0 <= i < |front| && front[i] == r'.value
                   && forall j :: i < j < |front| ==> !About(front[j], name);
          assert actions[i] == r'.value;
          assert forall j :: i < j < |actions| ==> !About(actions[j], name) by {
            forall j | i < j < |actions| ensures !About(actions[j], name) {
              if j < |front| { assert actions[j] == front[j]; }
            }
          }
        }
      }
      r'
  }

  /** `name` is running as far as the actions tell: the last action about it added it. */
  predicate Running(actions: seq<StepperAction>, name: string)
  {
    match LastAbout(actions, name)
    case Some(a) => a.Add?
    case None => false
  }

  /** Appending an action about one name leaves what the actions say about every other name. */
  lemma RunningAfter(actions: seq<StepperAction>, a: StepperAction, name: string)
    ensures About(a, name) ==> (Running(actions + [a], name) <==> a.Add?)
    ensures !About(a, name) ==> (Running(actions + [a], name) <==> Running(actions, name))
  {
  }

  /** Text of a `bool`, as `to_string` writes it. */
  function BoolText(b: bool): (r: string)
    ensures r == "true" <==> b
    ensures r in {"true", "false"}
  {
    if b then "true" else "false"
  }

  // ---------------------------------------------------------------------
  // The launcher
  // ---------------------------------------------------------------------

  class Launcher {
    /** `show_log` of the frame closure (what the toggle shows). */
    var showLog: bool
    /** The copy of `show_log` the event-sending closure took when it was created and flips on every call. */
    var eventShowLog: bool
    var v3Enabled: bool
    /** The switches whose tracking flag is set. */
    var active: set<Switch>
    /** Actions pushed to the stepper runtime, in order. */
    var actions: seq<StepperAction>
    /** Events sent through the event-loop proxy, in order. */
    var events: seq<StepperAction>

    /** A switch's flag is set exactly when the last action about its stepper added it. */
    ghost predicate Valid()
      reads this
    {
      forall sw :: sw in active <==> Running(actions, StepperName(sw))
    }

    /**
     * Start of `launch`: the log window (hidden) and the fly-over stepper are
     * pushed, every flag is off.
     */
    constructor ()
      ensures !showLog && !eventShowLog && !v3Enabled && active == {}
      ensures actions == [Add(LogWindowName, LogWindow(false)), Add(FlyOverName, FlyOver)]
      ensures events == []
      ensures Valid()
    {
      showLog := false;
      eventShowLog := false;
      v3Enabled := false;
      active := {};
      actions := [Add(LogWindowName, LogWindow(false)), Add(FlyOverName, FlyOver)];
      events := [];
      new;
      forall sw
        ensures sw !in active <==> !Running(actions, StepperName(sw))
      {
        StepperNamesDistinct(sw, sw);
        assert !About(actions[1], StepperName(sw));
        assert !About(actions[0], StepperName(sw));
        assert LastAbout(actions, StepperName(sw)).None? by {
          assert actions[..1][..0] == [];
        }
      }
    }

    /**
     * The `Show Log` toggle reported `newValue`: the frame's flag takes it,
     * then the event closure flips its own copy and sends it to the window.
     * When the widget reports the flipped value, as a toggle does, both
     * copies agree and the event carries the shown value.
     */
    method ToggleShowLog(newValue: bool)
      modifies this
      ensures showLog == newValue && eventShowLog == !old(eventShowLog)
      ensures events == old(events) + [Event("main", "ShowLogWindow", BoolText(eventShowLog))]
      ensures v3Enabled == old(v3Enabled) && active == old(active) && actions == old(actions)
      ensures old(showLog == eventShowLog) && newValue == !old(showLog) ==>
                showLog == eventShowLog && events[|events| - 1].value == BoolText(showLog)
      ensures old(Valid()) ==> Valid()
    {
      showLog := newValue;
      eventShowLog := !eventShowLog;
      events := events + [Event("main", "ShowLogWindow", BoolText(eventShowLog))];
    }

    /** The `Decodebin3` toggle reported `newValue`: later switches pass it to their steppers. */
    method ToggleDecodebin3(newValue: bool)
      modifies this
      ensures v3Enabled == newValue
      ensures showLog == old(showLog) && eventShowLog == old(eventShowLog)
      ensures active == old(active) && actions == old(actions) && events == old(events)
      ensures old(Valid()) ==> Valid()
    {
      v3Enabled := newValue;
    }

    /** The toggle of switch `sw` reported `newValue`: its action is pushed and its flag takes the new value. */
    method Toggle(sw: Switch, newValue: bool, probe: Probe)
      modifies this
      ensures actions == old(actions) + [ToggleAction(sw, newValue, probe, v3Enabled)]
      ensures active == if newValue then old(active) + {sw} else old(active) - {sw}
      ensures showLog == old(showLog) && eventShowLog == old(eventShowLog)
      ensures v3Enabled == old(v3Enabled) && events == old(events)
      ensures old(Valid()) ==> Valid()
    {
      var a := ToggleAction(sw, newValue, probe, v3Enabled);
      ghost var before := actions;
      actions := actions + [a];
      if newValue {
        active := active + {sw};
      } else {
        active := active - {sw};
      }
      forall other
        ensures old(Valid()) ==> (other in active <==> Running(actions, StepperName(other)))
      {
        RunningAfter(before, a, StepperName(other));
        StepperNamesDistinct(sw, other);
      }
    }
  }
}
