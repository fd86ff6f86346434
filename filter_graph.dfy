/** The composition planner of `build_ffmpeg_command` as a typed filter graph.

    A plan is a list of filter stages, each reading some pads and producing one labelled
    pad, plus the two pads the command maps to the output file: the video pad and the audio
    pad.  Raw input pads `[k:v]` / `[k:a]` name a stream of the k-th `-i` input.  The
    textual filter script the encoder receives is the serialisation of the stage list. */
module FilterGraph {
  import opened Util
  import opened Text

  datatype Stream = Video | Audio

  /** A pad: the raw stream of a declared input, or the labelled output of a stage. */
  datatype Pad = Input(index: nat, stream: Stream) | Label(name: string)

  /** The operations the planner uses; each renders to one filter description. */
  datatype Filter =
    | CoverCrop                          // scale to cover 720x1280, crop to 720x1280, square pixels
    | Thumbnail                          // scale to 200x200
    | TimedOverlay(from: nat, until: nat) // composite 20 px from the top-right corner while from <= t <= until
    | SolidBlack(duration: real)         // synthetic black 720x1280 picture of the given length
    | Gain(volume: real)                 // multiply the amplitude by `volume`
    | MixFirst                           // mix two audio streams; the mix lasts as long as the first

  datatype Stage = Stage(inputs: seq<Pad>, filter: Filter, output: string)

  datatype Plan = Plan(stages: seq<Stage>, video: Pad, audio: Pad)

  /** What each declared `-i` input holds. */
  datatype Asset = Narration | Background | Picture

  /** The window of the output timeline during which the overlay is shown. */
  const OverlayFrom: nat := 3
  const OverlayUntil: nat := 6

  // ---------------------------------------------------------------------------------------
  // Typing of stages and pads

  /** The streams a filter reads, in order. */
  function Signature(f: Filter): seq<Stream>
  {
    match f
    case CoverCrop => [Video]
    case Thumbnail => [Video]
    case TimedOverlay(_, _) => [Video, Video]
    case SolidBlack(_) => []
    case Gain(_) => [Audio]
    case MixFirst => [Audio, Audio]
  }

  /** The stream a filter produces. */
  function Yields(f: Filter): Stream
  {
    match f
    case Gain(_) => Audio
    case MixFirst => Audio
    case _ => Video
  }

  /** The narration has only sound, the picture only an image, the background video both:
      the model takes every background clip to have a sound track, which the program does
      not check. */
  predicate Carries(a: Asset, s: Stream)
  {
    match a
    case Narration => s == Audio
    case Background => true
    case Picture => s == Video
  }

  /** The `-i` inputs in declaration order: narration first, then the background video if
      there is one, then the overlay image if there is one. */
  function InputAssets(hasVideo: bool, hasImage: bool): seq<Asset>
  {
    [Narration] + (if hasVideo then [Background] else []) + (if hasImage then [Picture] else [])
  }

  /** The last stage of `stages` that produces the label `l`, if any. */
  function Producer(stages: seq<Stage>, l: string): (r: Option<Stage>)
    ensures r.None? <==> forall i :: 0 <= i < |stages| ==> stages[i].output != l
    ensures r.Some? ==> r.value.output == l && r.value in stages
    decreases |stages|
  {
    if stages == [] then None
    else if stages[|stages| - 1].output == l then Some(stages[|stages| - 1])
    else Producer(stages[..|stages| - 1], l)
  }

  /** The stream a pad carries when read after `stages`; None when the pad dangles, names an
      undeclared input, or names a stream its input does not have. */
  function KindOf(stages: seq<Stage>, p: Pad, assets: seq<Asset>): Option<Stream>
  {
    match p
    case Input(k, s) => if k < |assets| && Carries(assets[k], s) then Some(s) else None
    case Label(l) =>
      match Producer(stages, l)
      case Some(st) => Some(Yields(st.filter))
      case None => None
  }

  /** A stage reads exactly the streams its filter expects, each from a declared input or
      from a stage that comes before it. */
  predicate StageTyped(before: seq<Stage>, s: Stage, assets: seq<Asset>)
  {
    && |s.inputs| == |Signature(s.filter)|
    && forall k :: 0 <= k < |s.inputs| ==> KindOf(before, s.inputs[k], assets) == Some(Signature(s.filter)[k])
  }

  /** Every pad read by a stage, in stage order. */
  function StageInputs(stages: seq<Stage>): seq<Pad>
    decreases |stages|
  {
    if stages == [] then [] else StageInputs(stages[..|stages| - 1]) + stages[|stages| - 1].inputs
  }

  /** Every read of a pad: by a stage or by one of the two `-map` selections. */
  function Uses(plan: Plan): seq<Pad>
  {
    StageInputs(plan.stages) + [plan.video, plan.audio]
  }

  /** No two stages produce the same label. */
  predicate LabelsUnique(stages: seq<Stage>)
  {
    forall i, j :: 0 <= i < j < |stages| ==> stages[i].output != stages[j].output
  }

  /** Every stage reads only declared inputs and earlier outputs, of the streams it expects. */
  predicate DependencyOrdered(stages: seq<Stage>, assets: seq<Asset>)
  {
    forall i :: 0 <= i < |stages| ==> StageTyped(stages[..i], stages[i], assets)
  }

  /** Every labelled output is read exactly once, by a later stage or by a `-map`. */
  predicate OutputsReadOnce(plan: Plan)
  {
    forall i :: 0 <= i < |plan.stages| ==> multiset(Uses(plan))[Label(plan.stages[i].output)] == 1
  }

  /** The graph is well formed, reading a mapped pad as the model's `Pad` (a raw input
      stream or a stage output; how the encoder reads the written `-map` text is
      `MapResolves`): the script is not empty; labels are unique; stages are in dependency
      order and read the streams they expect; the mapped pads are a video and an audio stream
      that exist; and every labelled output is read exactly once. */
  predicate WellFormed(plan: Plan, assets: seq<Asset>)
  {
    && |plan.stages| > 0
    && LabelsUnique(plan.stages)
    && DependencyOrdered(plan.stages, assets)
    && KindOf(plan.stages, plan.video, assets) == Some(Video)
    && KindOf(plan.stages, plan.audio, assets) == Some(Audio)
    && OutputsReadOnce(plan)
  }

  /** A mapped label of a well-formed plan is the output of exactly one stage. */
  lemma MappedLabelHasOneProducer(plan: Plan, assets: seq<Asset>, l: string)
    requires WellFormed(plan, assets)
    requires plan.video == Label(l) || plan.audio == Label(l)
    ensures exists i :: 0 <= i < |plan.stages| && plan.stages[i].output == l
    ensures forall i, j :: 0 <= i < |plan.stages| && 0 <= j < |plan.stages| &&
                           plan.stages[i].output == l && plan.stages[j].output == l
                           ==> i == j
  {
    assert Producer(plan.stages, l).Some?;
  }

  // ---------------------------------------------------------------------------------------
  // Data flow

  /** The raw input streams that flow into pad `p` through `stages`. */
  function Feeds(stages: seq<Stage>, p: Pad): set<Pad>
    decreases |stages|, 0
  {
    match p
    case Input(_, _) => {p}
    case Label(l) =>
      if stages == [] then {}
      else if stages[|stages| - 1].output == l then FeedsAll(stages[..|stages| - 1], stages[|stages| - 1].inputs)
      else Feeds(stages[..|stages| - 1], p)
  }

  function FeedsAll(stages: seq<Stage>, ps: seq<Pad>): set<Pad>
    decreases |stages|, 1, |ps|
  {
    if ps == [] then {} else Feeds(stages, ps[0]) + FeedsAll(stages, ps[1..])
  }

  /** ffmpeg's `between(t, from, until)`: the overlay is shown at output time t. */
  predicate ShownAt(f: Filter, t: real)
    requires f.TimedOverlay?
  {
    f.from as real <= t <= f.until as real
  }

  // ---------------------------------------------------------------------------------------
  // Serialisation to the filter script

  function StreamLetter(s: Stream): string
  {
    match s
    case Video => "v"
    case Audio => "a"
  }

  /** `[1:v]`, `[0:a]`, `[bg_video]`, ... */
  function PadText(p: Pad): string
  {
    match p
    case Input(k, s) => "[" + NatText(k) + ":" + StreamLetter(s) + "]"
    case Label(l) => "[" + l + "]"
  }

  function PadsText(ps: seq<Pad>): string
  {
    if ps == [] then "" else PadText(ps[0]) + PadsText(ps[1..])
  }

  /** The filter descriptions, as the program writes them. */
  const CoverCropText := "scale=720:1280:force_original_aspect_ratio=increase,crop=720:1280,setsar=1"
  const ThumbnailText := "scale=200:200"
  const OverlayPrefix := "overlay=W-w-20:20:enable='between(t,"
  const BlackPrefix := "color=black:size=720x1280:duration="
  const GainPrefix := "volume="
  const MixText := "amix=inputs=2:duration=first:dropout_transition=0"

  function FilterText(f: Filter): Str
  {
    match f
    case CoverCrop => Lit(CoverCropText)
    case Thumbnail => Lit(ThumbnailText)
    case TimedOverlay(a, b) => Lit(OverlayPrefix + NatText(a) + "," + NatText(b) + ")'")
    case SolidBlack(d) => Lit(BlackPrefix) + [Num(d)]
    case Gain(v) => Lit(GainPrefix) + [Num(v)]
    case MixFirst => Lit(MixText)
  }

  /** One filter part: its input pads, the filter, and its output label. */
  function StageText(s: Stage): Str
  {
    Lit(PadsText(s.inputs)) + FilterText(s.filter) + Lit("[" + s.output + "]")
  }

  /** Python's `sep.join(parts)`. */
  function Join(parts: seq<Str>, sep: Str): Str
  {
    if parts == [] then []
    else if |parts| == 1 then parts[0]
    else parts[0] + sep + Join(parts[1..], sep)
  }

  /** The `-filter_complex` argument: the stages' parts joined by `;`. */
  function Script(stages: seq<Stage>): Str
  {
    Join(seq(|stages|, i requires 0 <= i < |stages| => StageText(stages[i])), Lit(";"))
  }

  // ---------------------------------------------------------------------------------------
  // The planner

  /** `video_volume = (100 - video_volume_reduction) / 100`: the share of its level the
      background audio keeps. */
  function VideoVolume(reduction: int): (v: real)
    ensures 100.0 * v + reduction as real == 100.0
    ensures 0 <= reduction <= 100 ==> 0.0 <= v <= 1.0
    ensures reduction == 100 <==> v == 0.0
    ensures reduction == 0 <==> v == 1.0
  {
    (100 - reduction) as real / 100.0
  }

  lemma VideoVolumeExamples()
    ensures VideoVolume(90) == 0.1
    ensures VideoVolume(50) == 0.5
    ensures VideoVolume(100) == 0.0
    ensures VideoVolume(0) == 1.0
  {
  }

  /** A larger reduction always leaves the background quieter. */
  lemma VideoVolumeDecreasing(r1: int, r2: int)
    requires r1 < r2
    ensures VideoVolume(r2) < VideoVolume(r1)
  {
  }

  /** The filter graph `build_ffmpeg_command` writes, for the given inputs.  Input 0 is the
      narration; input 1 is the background video when there is one; input 2 is the overlay
      image when there is also a video (without a video the image is input 1 and no stage
      reads it). */
  function Compose(hasVideo: bool, hasImage: bool, reduction: int, total: real): Plan
  {
    if !hasVideo then
      Plan([Stage([], SolidBlack(total), "final_video")], Label("final_video"), Input(0, Audio))
    else
      var background := Stage([Input(1, Video)], CoverCrop, "bg_video");
      var mix := [Stage([Input(1, Audio)], Gain(VideoVolume(reduction)), "bg_audio"),
                  Stage([Input(0, Audio), Label("bg_audio")], MixFirst, "final_audio")];
      if hasImage then
        Plan([background,
              Stage([Input(2, Video)], Thumbnail, "overlay_img"),
              Stage([Label("bg_video"), Label("overlay_img")], TimedOverlay(OverlayFrom, OverlayUntil), "final_video")]
             + mix,
             Label("final_video"), Label("final_audio"))
      else
        Plan([background] + mix, Label("bg_video"), Label("final_audio"))
  }

  /** Without a background video the picture is a synthetic black frame lasting the whole
      output, the sound is the raw narration, and no stage reads any input, so a supplied
      overlay image is ignored. */
  lemma ComposeWithoutVideo(hasImage: bool, reduction: int, total: real)
    ensures var plan := Compose(false, hasImage, reduction, total);
            && plan.video.Label?
            && Producer(plan.stages, plan.video.name).Some?
            && Producer(plan.stages, plan.video.name).value.filter == SolidBlack(total)
            && plan.audio == Input(0, Audio)
            && StageInputs(plan.stages) == []
  {
    var st := Compose(false, hasImage, reduction, total).stages;
    assert StageInputs(st) == StageInputs(st[..0]) + [];
  }

  /** With a background video the sound is a mix whose first input is the narration (so it
      lasts exactly as long as the narration) and whose second input is the background
      soundtrack scaled by `VideoVolume(reduction)`. */
  lemma ComposeAudioMix(hasImage: bool, reduction: int, total: real)
    ensures var plan := Compose(true, hasImage, reduction, total);
            && plan.audio.Label?
            && var mix := Producer(plan.stages, plan.audio.name);
            && mix.Some? && mix.value.filter == MixFirst
            && mix.value.inputs[0] == Input(0, Audio)
            && mix.value.inputs[1].Label?
            && var gain := Producer(plan.stages, mix.value.inputs[1].name);
            && gain.Some? && gain.value.filter == Gain(VideoVolume(reduction))
            && gain.value.inputs == [Input(1, Audio)]
  {
    var st := Compose(true, hasImage, reduction, total).stages;
    var n := |st|;
    assert Producer(st, "final_audio") == Some(st[n - 1]);
    assert Producer(st, "bg_audio") == Some(st[n - 2]) by {
      LabelsDistinct();
      assert st[..n - 1][n - 2] == st[n - 2];
    }
  }

  /** An overlay stage exists exactly when both a video and an image are supplied, and it is
      shown during the closed window [3, 6] of the output timeline whatever the total
      duration is. */
  lemma ComposeOverlayWindow(hasVideo: bool, hasImage: bool, reduction: int, total: real)
    ensures var st := Compose(hasVideo, hasImage, reduction, total).stages;
            (exists i :: 0 <= i < |st| && st[i].filter.TimedOverlay?) <==> hasVideo && hasImage
    ensures var st := Compose(hasVideo, hasImage, reduction, total).stages;
            forall i, t: real :: 0 <= i < |st| && st[i].filter.TimedOverlay? ==>
                                   (ShownAt(st[i].filter, t) <==> 3.0 <= t <= 6.0)
  {
    var st := Compose(hasVideo, hasImage, reduction, total).stages;
    if hasVideo && hasImage {
      assert st[2].filter.TimedOverlay?;
    }
  }

  /** The raw streams each mapped pad is made of. */
  lemma ComposeSources(hasVideo: bool, hasImage: bool, reduction: int, total: real)
    ensures var plan := Compose(hasVideo, hasImage, reduction, total);
            && Feeds(plan.stages, plan.video)
               == (if !hasVideo then {} else if hasImage then {Input(1, Video), Input(2, Video)} else {Input(1, Video)})
            && Feeds(plan.stages, plan.audio)
               == (if hasVideo then {Input(0, Audio), Input(1, Audio)} else {Input(0, Audio)})
  {
    var st := Compose(hasVideo, hasImage, reduction, total).stages;
    if !hasVideo {
      assert Feeds(st, Label("final_video")) == FeedsAll(st[..0], []);
    } else if hasImage {
      OverlaySources(reduction, total);
    } else {
      VideoSources(reduction, total);
    }
  }

  lemma VideoSources(reduction: int, total: real)
    ensures var st := Compose(true, false, reduction, total).stages;
            && Feeds(st, Label("bg_video")) == {Input(1, Video)}
            && Feeds(st, Label("final_audio")) == {Input(0, Audio), Input(1, Audio)}
  {
    var st := Compose(true, false, reduction, total).stages;
    LabelsDistinct();
    assert st[..2][..1] == st[..1];
    assert Feeds(st[..1], Label("bg_video")) == FeedsAll([], [Input(1, Video)]);
    assert Feeds(st[..2], Label("bg_audio")) == FeedsAll(st[..1], [Input(1, Audio)]);
    assert FeedsAll(st[..2], [Input(0, Audio), Label("bg_audio")]) == {Input(0, Audio), Input(1, Audio)} by {
      assert FeedsAll(st[..2], [Label("bg_audio")]) == Feeds(st[..2], Label("bg_audio")) + FeedsAll(st[..2], []);
    }
  }

  lemma OverlaySources(reduction: int, total: real)
    ensures var st := Compose(true, true, reduction, total).stages;
            && Feeds(st, Label("final_video")) == {Input(1, Video), Input(2, Video)}
            && Feeds(st, Label("final_audio")) == {Input(0, Audio), Input(1, Audio)}
  {
    var st := Compose(true, true, reduction, total).stages;
    LabelsDistinct();
    assert st[..4][..3] == st[..3];
    assert st[..3][..2] == st[..2];
    assert st[..2][..1] == st[..1];
    assert Feeds(st[..1], Label("bg_video")) == {Input(1, Video)} by {
      assert Feeds(st[..1], Label("bg_video")) == FeedsAll([], [Input(1, Video)]);
    }
    assert Feeds(st[..2], Label("overlay_img")) == {Input(2, Video)} by {
      assert Feeds(st[..2], Label("overlay_img")) == FeedsAll(st[..1], [Input(2, Video)]);
    }
    assert Feeds(st[..2], Label("bg_video")) == {Input(1, Video)};
    assert Feeds(st[..3], Label("final_video")) == {Input(1, Video), Input(2, Video)} by {
      assert Feeds(st[..3], Label("final_video")) == FeedsAll(st[..2], [Label("bg_video"), Label("overlay_img")]);
      assert FeedsAll(st[..2], [Label("overlay_img")]) == Feeds(st[..2], Label("overlay_img")) + FeedsAll(st[..2], []);
    }
    assert Feeds(st[..4], Label("bg_audio")) == {Input(1, Audio)} by {
      assert Feeds(st[..4], Label("bg_audio")) == FeedsAll(st[..3], [Input(1, Audio)]);
      assert FeedsAll(st[..3], [Input(1, Audio)]) == Feeds(st[..3], Input(1, Audio)) + FeedsAll(st[..3], []);
    }
    assert Feeds(st, Label("final_audio")) == {Input(0, Audio), Input(1, Audio)} by {
      assert Feeds(st, Label("final_audio")) == FeedsAll(st[..4], [Input(0, Audio), Label("bg_audio")]);
      assert FeedsAll(st[..4], [Label("bg_audio")]) == Feeds(st[..4], Label("bg_audio")) + FeedsAll(st[..4], []);
    }
  }

  /** In all three cases the graph is well formed, under the model's reading of pads, for
      the inputs the command declares: no dangling pad, no unused labelled output, at least
      one stage.  The background video is taken to have a sound track (`Carries`). */
  lemma ComposeWellFormed(hasVideo: bool, hasImage: bool, reduction: int, total: real)
    ensures WellFormed(Compose(hasVideo, hasImage, reduction, total), InputAssets(hasVideo, hasImage))
  {
    if !hasVideo {
      BlackPlanWellFormed(hasImage, reduction, total);
    } else if hasImage {
      OverlayPlanWellFormed(reduction, total);
    } else {
      VideoPlanWellFormed(reduction, total);
    }
  }

  lemma BlackPlanWellFormed(hasImage: bool, reduction: int, total: real)
    ensures WellFormed(Compose(false, hasImage, reduction, total), InputAssets(false, hasImage))
  {
    var plan := Compose(false, hasImage, reduction, total);
    var st := plan.stages;
    assert StageTyped(st[..0], st[0], InputAssets(false, hasImage));
    assert Uses(plan) == [Label("final_video"), Input(0, Audio)] by {
      assert StageInputs(st) == StageInputs(st[..0]) + [];
    }
  }

  lemma VideoPlanWellFormed(reduction: int, total: real)
    ensures WellFormed(Compose(true, false, reduction, total), InputAssets(true, false))
  {
    VideoPlanTyped(reduction, total);
    VideoPlanReadOnce(reduction, total);
    VideoPlanMaps(reduction, total);
    VideoLabelsUnique(reduction, total);
  }

  lemma VideoLabelsUnique(reduction: int, total: real)
    ensures LabelsUnique(Compose(true, false, reduction, total).stages)
  {
    LabelsDistinct();
  }

  lemma VideoPlanMaps(reduction: int, total: real)
    ensures var plan := Compose(true, false, reduction, total);
            KindOf(plan.stages, plan.video, InputAssets(true, false)) == Some(Video) &&
            KindOf(plan.stages, plan.audio, InputAssets(true, false)) == Some(Audio)
  {
    var st := Compose(true, false, reduction, total).stages;
    assert Producer(st, "bg_video") == Some(st[0]) by {
      assert st[..2][..1] == [st[0]];
    }
  }

  lemma VideoPlanReadOnce(reduction: int, total: real)
    ensures OutputsReadOnce(Compose(true, false, reduction, total))
  {
    var plan := Compose(true, false, reduction, total);
    VideoPlanUses(reduction, total);
    var u := Uses(plan);
    var outs := ["bg_video", "bg_audio", "final_audio"];
    LabelsDistinct();
    VideoCounts("bg_video", "bg_audio", "final_audio");
    VideoOutputs(reduction, total);
    ReadOnceByOutputs(plan, u, outs);
  }


  /** Counting in the uses of the video plan, with the labels kept symbolic. */
  lemma VideoCounts(v: string, a: string, f: string)
    requires v != a && v != f && a != f
    ensures var u := [Input(1, Video), Input(1, Audio), Input(0, Audio), Label(a), Label(v), Label(f)];
            var outs := [v, a, f];
            forall i :: 0 <= i < |outs| ==> multiset(u)[Label(outs[i])] == 1
  {
  }

  lemma OverlayPlanWellFormed(reduction: int, total: real)
    ensures WellFormed(Compose(true, true, reduction, total), InputAssets(true, true))
  {
    OverlayPlanTyped(reduction, total);
    OverlayPlanReadOnce(reduction, total);
    OverlayPlanMaps(reduction, total);
    OverlayLabelsUnique(reduction, total);
  }

  lemma OverlayLabelsUnique(reduction: int, total: real)
    ensures LabelsUnique(Compose(true, true, reduction, total).stages)
  {
    OverlayOutputs(reduction, total);
    LabelsDistinct();
  }

  lemma OverlayPlanMaps(reduction: int, total: real)
    ensures var plan := Compose(true, true, reduction, total);
            KindOf(plan.stages, plan.video, InputAssets(true, true)) == Some(Video) &&
            KindOf(plan.stages, plan.audio, InputAssets(true, true)) == Some(Audio)
  {
    var st := Compose(true, true, reduction, total).stages;
    assert Producer(st, "final_video") == Some(st[2]) by {
      assert st[..4][..3] == st[..3];
      assert Producer(st[..3], "final_video") == Some(st[2]);
    }
  }

  lemma VideoPlanTyped(reduction: int, total: real)
    ensures DependencyOrdered(Compose(true, false, reduction, total).stages, InputAssets(true, false))
  {
    var st := Compose(true, false, reduction, total).stages;
    var assets := InputAssets(true, false);
    assert st[..0] == [];
    assert StageTyped(st[..0], st[0], assets);
    assert StageTyped(st[..1], st[1], assets);
    assert StageTyped(st[..2], st[2], assets) by {
      assert st[..2] == [st[0], st[1]];
      assert Producer(st[..2], "bg_audio") == Some(st[1]);
    }
  }

  lemma VideoPlanUses(reduction: int, total: real)
    ensures Uses(Compose(true, false, reduction, total))
            == [Input(1, Video), Input(1, Audio), Input(0, Audio), Label("bg_audio"), Label("bg_video"), Label("final_audio")]
  {
    var st := Compose(true, false, reduction, total).stages;
    assert StageInputs(st[..1]) == [Input(1, Video)] by { assert st[..1][..0] == []; }
    assert StageInputs(st[..2]) == [Input(1, Video), Input(1, Audio)] by { assert st[..2][..1] == st[..1]; }
    assert StageInputs(st) == StageInputs(st[..2]) + [Input(0, Audio), Label("bg_audio")];
  }

  lemma OverlayPlanTyped(reduction: int, total: real)
    ensures DependencyOrdered(Compose(true, true, reduction, total).stages, InputAssets(true, true))
  {
    var st := Compose(true, true, reduction, total).stages;
    var assets := InputAssets(true, true);
    assert StageTyped(st[..0], st[0], assets);
    assert StageTyped(st[..1], st[1], assets);
    assert StageTyped(st[..2], st[2], assets) by {
      assert st[..2] == [st[0], st[1]];
      assert Producer(st[..2], "bg_video") == Some(st[0]);
      assert Producer(st[..2], "overlay_img") == Some(st[1]);
    }
    assert StageTyped(st[..3], st[3], assets);
    assert StageTyped(st[..4], st[4], assets) by {
      assert st[..4] == [st[0], st[1], st[2], st[3]];
      assert Producer(st[..4], "bg_audio") == Some(st[3]);
    }
  }

  lemma OverlayPlanReadOnce(reduction: int, total: real)
    ensures OutputsReadOnce(Compose(true, true, reduction, total))
  {
    var plan := Compose(true, true, reduction, total);
    var outs := ["bg_video", "overlay_img", "final_video", "bg_audio", "final_audio"];
    OverlayOutputs(reduction, total);
    OverlayPlanUses(reduction, total);
    var u := Uses(plan);
    LabelsDistinct();
    OverlayCounts("bg_video", "overlay_img", "final_video", "bg_audio", "final_audio");
    ReadOnceByOutputs(plan, u, outs);
  }

  lemma VideoOutputs(reduction: int, total: real)
    ensures var st := Compose(true, false, reduction, total).stages;
            var outs := ["bg_video", "bg_audio", "final_audio"];
            |outs| == |st| && forall i :: 0 <= i < |outs| ==> st[i].output == outs[i]
  {
  }

  lemma OverlayOutputs(reduction: int, total: real)
    ensures var st := Compose(true, true, reduction, total).stages;
            var outs := ["bg_video", "overlay_img", "final_video", "bg_audio", "final_audio"];
            |outs| == |st| && forall i :: 0 <= i < |outs| ==> st[i].output == outs[i]
  {
  }

  lemma ReadOnceByOutputs(plan: Plan, u: seq<Pad>, outs: seq<string>)
    requires u == Uses(plan) && |outs| == |plan.stages|
    requires forall i :: 0 <= i < |outs| ==> plan.stages[i].output == outs[i]
    requires forall i :: 0 <= i < |outs| ==> multiset(u)[Label(outs[i])] == 1
    ensures OutputsReadOnce(plan)
  {
  }

  /** Counting in the uses of the overlay plan, with the labels kept symbolic. */
  lemma OverlayCounts(bv: string, oi: string, fv: string, ba: string, fa: string)
    requires bv != oi && bv != fv && bv != ba && bv != fa && oi != fv
    requires oi != ba && oi != fa && fv != ba && fv != fa && ba != fa
    ensures var u := [Input(1, Video), Input(2, Video), Label(bv), Label(oi),
                      Input(1, Audio), Input(0, Audio), Label(ba), Label(fv), Label(fa)];
            var outs := [bv, oi, fv, ba, fa];
            forall i :: 0 <= i < |outs| ==> multiset(u)[Label(outs[i])] == 1
  {
    var front := [Input(1, Video), Input(2, Video), Label(bv), Label(oi)];
    var back := [Input(1, Audio), Input(0, Audio), Label(ba), Label(fv), Label(fa)];
    var u := front + back;
    assert u == [Input(1, Video), Input(2, Video), Label(bv), Label(oi),
                 Input(1, Audio), Input(0, Audio), Label(ba), Label(fv), Label(fa)];
    var m := multiset(front) + multiset(back);
    assert multiset(u) == m;
    FrontCounts(bv, oi, fv, ba, fa);
    BackCounts(bv, oi, fv, ba, fa);
    assert m[Label(bv)] == 1 && m[Label(oi)] == 1 && m[Label(fv)] == 1 && m[Label(ba)] == 1 && m[Label(fa)] == 1;
    EachOnce(m, bv, oi, fv, ba, fa);
  }

  /** Each of `outs` is counted once in `m`, spelled out by index. */
  lemma EachOnce(m: multiset<Pad>, a: string, b: string, c: string, d: string, e: string)
    requires m[Label(a)] == 1 && m[Label(b)] == 1 && m[Label(c)] == 1 && m[Label(d)] == 1 && m[Label(e)] == 1
    ensures var outs := [a, b, c, d, e];
            forall i :: 0 <= i < |outs| ==> m[Label(outs[i])] == 1
  {
  }

  lemma FrontCounts(bv: string, oi: string, fv: string, ba: string, fa: string)
    requires bv != oi && fv != bv && fv != oi && ba != bv && ba != oi && fa != bv && fa != oi
    ensures var front := multiset([Input(1, Video), Input(2, Video), Label(bv), Label(oi)]);
            && front[Label(bv)] == 1 && front[Label(oi)] == 1
            && front[Label(fv)] == 0 && front[Label(ba)] == 0 && front[Label(fa)] == 0
  {
  }

  lemma BackCounts(bv: string, oi: string, fv: string, ba: string, fa: string)
    requires ba != fv && ba != fa && fv != fa && bv != ba && bv != fv && bv != fa && oi != ba && oi != fv && oi != fa
    ensures var back := multiset([Input(1, Audio), Input(0, Audio), Label(ba), Label(fv), Label(fa)]);
            && back[Label(bv)] == 0 && back[Label(oi)] == 0
            && back[Label(fv)] == 1 && back[Label(ba)] == 1 && back[Label(fa)] == 1
  {
  }

  /** The five labels the planner uses are different strings. */
  lemma LabelsDistinct()
    ensures "bg_video" != "overlay_img" && "bg_video" != "final_video" && "bg_video" != "bg_audio"
    ensures "bg_video" != "final_audio" && "overlay_img" != "final_video" && "overlay_img" != "bg_audio"
    ensures "overlay_img" != "final_audio" && "final_video" != "bg_audio" && "final_video" != "final_audio"
    ensures "bg_audio" != "final_audio"
  {
    assert "bg_video"[0] != "overlay_img"[0] && "bg_video"[0] != "final_video"[0];
    assert "bg_video"[3] != "bg_audio"[3] && "bg_video"[0] != "final_audio"[0];
    assert "overlay_img"[0] != "final_video"[0] && "overlay_img"[0] != "bg_audio"[0];
    assert "overlay_img"[0] != "final_audio"[0] && "final_video"[0] != "bg_audio"[0];
    assert "final_video"[6] != "final_audio"[6] && "bg_audio"[0] != "final_audio"[0];
  }

  lemma OverlayPlanUses(reduction: int, total: real)
    ensures Uses(Compose(true, true, reduction, total))
            == [Input(1, Video), Input(2, Video), Label("bg_video"), Label("overlay_img"),
                Input(1, Audio), Input(0, Audio), Label("bg_audio"), Label("final_video"), Label("final_audio")]
  {
    var st := Compose(true, true, reduction, total).stages;
    assert StageInputs(st[..1]) == [Input(1, Video)] by { assert st[..1][..0] == []; }
    assert StageInputs(st[..2]) == [Input(1, Video), Input(2, Video)] by { assert st[..2][..1] == st[..1]; }
    assert StageInputs(st[..3]) == [Input(1, Video), Input(2, Video), Label("bg_video"), Label("overlay_img")]
      by { assert st[..3][..2] == st[..2]; }
    assert StageInputs(st[..4]) == StageInputs(st[..3]) + [Input(1, Audio)] by { assert st[..4][..3] == st[..3]; }
    assert StageInputs(st) == StageInputs(st[..4]) + [Input(0, Audio), Label("bg_audio")];
  }

  // ---------------------------------------------------------------------------------------
  // How the encoder reads a `-map` argument

  /** `k:a` or `k:v`: a stream of input `k`, written without brackets. */
  function StreamArg(k: nat, s: Stream): string
  {
    NatText(k) + ":" + StreamLetter(s)
  }

  /** Whether the encoder finds what a `-map` argument names, in a command whose filter graph
      is `plan` and whose inputs are `assets`.  A bracketed `[name]` names an output of the
      filter graph: some stage produces `name` and no stage reads it.  Anything else is a
      stream specifier such as `0:a`, which names a stream of a declared input. */
  predicate MapResolves(arg: string, plan: Plan, assets: seq<Asset>)
  {
    if |arg| >= 2 && arg[0] == '[' && arg[|arg| - 1] == ']' then
      && (exists i :: 0 <= i < |plan.stages| && plan.stages[i].output == arg[1..|arg| - 1])
      && Label(arg[1..|arg| - 1]) !in StageInputs(plan.stages)
    else
      exists k: nat, s: Stream :: k < |assets| && arg == StreamArg(k, s) && Carries(assets[k], s)
  }

  /** The program writes each `-map` argument as the pad's bracketed text.  With a background
      video both maps name graph outputs and resolve.  Without one, the sound map is `[0:a]`:
      bracketed, so it names a graph output labelled `0:a`, and no stage produces one. */
  lemma WrittenMapsResolve(hasVideo: bool, hasImage: bool, reduction: int, total: real)
    ensures var plan := Compose(hasVideo, hasImage, reduction, total);
            var assets := InputAssets(hasVideo, hasImage);
            && MapResolves(PadText(plan.video), plan, assets)
            && (MapResolves(PadText(plan.audio), plan, assets) <==> hasVideo)
  {
    var plan := Compose(hasVideo, hasImage, reduction, total);
    var assets := InputAssets(hasVideo, hasImage);
    ComposeWellFormed(hasVideo, hasImage, reduction, total);
    MapArgResolves(plan, assets);
    assert plan.video.Label?;
    if !hasVideo {
      NarrationMapUnresolved(hasImage, reduction, total);
    }
  }

  /** Without a background video, `[0:a]` names a graph output that no stage produces. */
  lemma NarrationMapUnresolved(hasImage: bool, reduction: int, total: real)
    ensures var plan := Compose(false, hasImage, reduction, total);
            !MapResolves(PadText(plan.audio), plan, InputAssets(false, hasImage))
  {
    var plan := Compose(false, hasImage, reduction, total);
    var arg := PadText(plan.audio);
    assert arg == "[0:a]";
    assert arg[1..|arg| - 1] == "0:a";
    assert |plan.stages| == 1 && |plan.stages[0].output| != 3;
  }

  /** The map argument as the encoder needs it: a graph output in brackets, an input
      stream bare (`0:a`). */
  function MapArg(p: Pad): string
  {
    match p
    case Input(k, s) => StreamArg(k, s)
    case Label(_) => PadText(p)
  }

  /** Written that way, both maps of every well-formed plan resolve. */
  lemma MapArgResolves(plan: Plan, assets: seq<Asset>)
    requires WellFormed(plan, assets)
    ensures MapResolves(MapArg(plan.video), plan, assets)
    ensures MapResolves(MapArg(plan.audio), plan, assets)
  {
    MapPadResolves(plan, assets, plan.video);
    MapPadResolves(plan, assets, plan.audio);
  }

  lemma MapPadResolves(plan: Plan, assets: seq<Asset>, p: Pad)
    requires WellFormed(plan, assets)
    requires p == plan.video || p == plan.audio
    ensures MapResolves(MapArg(p), plan, assets)
  {
    match p
    case Input(k, s) =>
      var arg := StreamArg(k, s);
      assert arg[0] == NatText(k)[0];
      assert KindOf(plan.stages, p, assets).Some?;
    case Label(l) =>
      MappedLabelUnread(plan, assets, l);
      var arg := PadText(p);
      assert arg[1..|arg| - 1] == l;
  }

  /** A mapped label of a well-formed plan is produced by a stage and read by none. */
  lemma MappedLabelUnread(plan: Plan, assets: seq<Asset>, l: string)
    requires WellFormed(plan, assets)
    requires plan.video == Label(l) || plan.audio == Label(l)
    ensures exists i :: 0 <= i < |plan.stages| && plan.stages[i].output == l
    ensures Label(l) !in StageInputs(plan.stages)
  {
    MappedLabelHasOneProducer(plan, assets, l);
    var i :| 0 <= i < |plan.stages| && plan.stages[i].output == l;
    assert multiset(Uses(plan))[Label(l)] == 1;
    assert multiset(Uses(plan)) == multiset(StageInputs(plan.stages)) + multiset([plan.video, plan.audio]);
    assert multiset([plan.video, plan.audio])[Label(l)] >= 1;
  }

  /** Every plan of the program has maps that resolve once a raw input is mapped bare. */
  lemma CorrectedMapsResolve(hasVideo: bool, hasImage: bool, reduction: int, total: real)
    ensures var plan := Compose(hasVideo, hasImage, reduction, total);
            var assets := InputAssets(hasVideo, hasImage);
            && MapResolves(MapArg(plan.video), plan, assets)
            && MapResolves(MapArg(plan.audio), plan, assets)
  {
    ComposeWellFormed(hasVideo, hasImage, reduction, total);
    MapArgResolves(Compose(hasVideo, hasImage, reduction, total), InputAssets(hasVideo, hasImage));
  }
}
