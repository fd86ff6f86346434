/** `build_ffmpeg_command`: the encoder invocation for one composition.

    `Invocation` is the specification, as directives built from the typed plan of
    `FilterGraph.Compose`; `BuildFfmpegCommand` is the program's own procedure, which grows the
    argument list and the list of filter parts step by step with literal text, and is proved
    to produce exactly `CommandLine`, the serialised `Invocation`. */
module FfmpegCommand {
  import opened Util
  import opened Text
  import opened FilterGraph
  import opened EncoderArgs

  /** The fixed output profile: H.264 with preset fast and quality factor 23, AAC at 128k,
      30 frames per second, pixel format yuv420p, index moved to the front of the file. */
  function Profile(): seq<Opt>
  {
    [Set("-c:v", Lit("libx264")), Set("-preset", Lit("fast")), Set("-crf", Lit("23")),
     Set("-c:a", Lit("aac")), Set("-b:a", Lit("128k")), Set("-r", Lit("30")),
     Set("-pix_fmt", Lit("yuv420p")), Set("-movflags", Lit("+faststart"))]
  }

  /** The files given to `-i`: the narration, then the first video, then the first image. */
  function InputFiles(audio: string, videos: seq<string>, images: seq<string>): seq<string>
  {
    [audio] + (if videos != [] then [videos[0]] else []) + (if images != [] then [images[0]] else [])
  }

  function InputOpts(files: seq<string>): seq<Opt>
  {
    if files == [] then [] else [Set("-i", Lit(files[0]))] + InputOpts(files[1..])
  }

  /** The filter script, the two `-map` selections (video, then audio) and the trim length. */
  function GraphOpts(plan: Plan, total: real): seq<Opt>
  {
    [Set("-filter_complex", Script(plan.stages)),
     Set("-map", Lit(PadText(plan.video))),
     Set("-map", Lit(PadText(plan.audio))),
     Set("-t", [Num(total)])]
  }

  /** The plan of a composition with these inputs. */
  function PlanFor(videos: seq<string>, images: seq<string>, total: real, reduction: int): Plan
  {
    Compose(videos != [], images != [], reduction, total)
  }

  /** Overwrite the output, read `files`, run `plan` for `total` seconds with the fixed
      profile, and write `output`. */
  function Directives(files: seq<string>, plan: Plan, total: real, output: Str): seq<Opt>
  {
    [Switch("-y")] + InputOpts(files) + GraphOpts(plan, total) + Profile() + [Output(output)]
  }

  /** The directives of the encoder invocation. */
  function Invocation(audio: string, videos: seq<string>, images: seq<string>, output: string,
                      total: real, reduction: int): seq<Opt>
  {
    Directives(InputFiles(audio, videos, images), PlanFor(videos, images, total, reduction), total, Lit(output))
  }

  /** The argument vector handed to the encoder. */
  function CommandLine(audio: string, videos: seq<string>, images: seq<string>, output: string,
                       total: real, reduction: int): seq<Str>
  {
    [Lit("ffmpeg")] + Serialize(Invocation(audio, videos, images, output, total, reduction))
  }

  method BuildFfmpegCommand(audioFile: string, videoFiles: seq<string>, imageFiles: seq<string>,
                            outputFile: string, totalDuration: real, videoVolumeReduction: int)
    returns (cmd: seq<Str>)
    ensures cmd == CommandLine(audioFile, videoFiles, imageFiles, outputFile, totalDuration, videoVolumeReduction)
  {
    var videoVolume := (100 - videoVolumeReduction) as real / 100.0;

    cmd := [Lit("ffmpeg"), Lit("-y")];
    cmd := cmd + [Lit("-i"), Lit(audioFile)];
    if videoFiles != [] {
      cmd := cmd + [Lit("-i"), Lit(videoFiles[0])];
    }
    if imageFiles != [] {
      cmd := cmd + [Lit("-i"), Lit(imageFiles[0])];
    }
    ghost var head := cmd;
    InputArgs(audioFile, videoFiles, imageFiles, head);

    var filterParts: seq<Str> := [];
    var videoOutput: string;
    if videoFiles != [] {
      filterParts := filterParts + [Lit("[1:v]" + CoverCropText + "[bg_video]")];
      if imageFiles != [] {
        filterParts := filterParts + [Lit("[2:v]" + ThumbnailText + "[overlay_img]")];
        filterParts := filterParts + [Lit("[bg_video][overlay_img]" + OverlayPrefix + "3,6)'" + "[final_video]")];
        videoOutput := "[final_video]";
      } else {
        videoOutput := "[bg_video]";
      }
    } else {
      filterParts := filterParts + [Lit(BlackPrefix) + [Num(totalDuration)] + Lit("[final_video]")];
      videoOutput := "[final_video]";
    }

    var audioOutput: string;
    if videoFiles != [] {
      filterParts := filterParts + [Lit("[1:a]" + GainPrefix) + [Num(videoVolume)] + Lit("[bg_audio]")];
      filterParts := filterParts + [Lit("[0:a][bg_audio]" + MixText + "[final_audio]")];
      audioOutput := "[final_audio]";
    } else {
      audioOutput := "[0:a]";
    }
    ghost var parts := filterParts;
    assert parts == WrittenParts(videoFiles != [], imageFiles != [], videoVolume, totalDuration) && parts != [];
    WrittenGraphArgs(videoFiles, imageFiles, totalDuration, videoVolumeReduction, parts, videoOutput, audioOutput);

    if filterParts != [] {
      cmd := cmd + [Lit("-filter_complex"), Join(filterParts, Lit(";"))];
    }
    cmd := cmd + [Lit("-map"), Lit(videoOutput)];
    cmd := cmd + [Lit("-map"), Lit(audioOutput)];
    cmd := cmd + [Lit("-t"), [Num(totalDuration)],
                  Lit("-c:v"), Lit("libx264"),
                  Lit("-preset"), Lit("fast"),
                  Lit("-crf"), Lit("23"),
                  Lit("-c:a"), Lit("aac"),
                  Lit("-b:a"), Lit("128k"),
                  Lit("-r"), Lit("30"),
                  Lit("-pix_fmt"), Lit("yuv420p"),
                  Lit("-movflags"), Lit("+faststart"),
                  Lit(outputFile)];
    AssembleCommand(audioFile, videoFiles, imageFiles, outputFile, totalDuration, videoVolumeReduction,
                    head, parts, videoOutput, audioOutput, cmd);
  }

  /** The filter parts exactly as the program writes them. */
  function WrittenParts(hasVideo: bool, hasImage: bool, volume: real, total: real): seq<Str>
  {
    if !hasVideo then
      [Lit(BlackPrefix) + [Num(total)] + Lit("[final_video]")]
    else
      [Lit("[1:v]" + CoverCropText + "[bg_video]")]
      + (if hasImage then
           [Lit("[2:v]" + ThumbnailText + "[overlay_img]"),
            Lit("[bg_video][overlay_img]" + OverlayPrefix + "3,6)'" + "[final_video]")]
         else [])
      + [Lit("[1:a]" + GainPrefix) + [Num(volume)] + Lit("[bg_audio]"),
         Lit("[0:a][bg_audio]" + MixText + "[final_audio]")]
  }

  /** The profile arguments exactly as the program writes them. */
  function ProfileArgs(): seq<Str>
  {
    [Lit("-c:v"), Lit("libx264"), Lit("-preset"), Lit("fast"), Lit("-crf"), Lit("23"),
     Lit("-c:a"), Lit("aac"), Lit("-b:a"), Lit("128k"), Lit("-r"), Lit("30"),
     Lit("-pix_fmt"), Lit("yuv420p"), Lit("-movflags"), Lit("+faststart")]
  }

  /** The input arguments the program writes are the serialised `-i` directives. */
  lemma InputArgs(audio: string, videos: seq<string>, images: seq<string>, head: seq<Str>)
    requires head == [Lit("ffmpeg"), Lit("-y")] + [Lit("-i"), Lit(audio)]
                     + (if videos != [] then [Lit("-i"), Lit(videos[0])] else [])
                     + (if images != [] then [Lit("-i"), Lit(images[0])] else [])
    ensures head == [Lit("ffmpeg"), Lit("-y")] + Serialize(InputOpts(InputFiles(audio, videos, images)))
  {
    SerializeInputFiles(audio, videos, images);
  }

  /** The filter parts and output pads the program writes are those of the plan. */
  lemma WrittenPlan(hasVideo: bool, hasImage: bool, total: real, reduction: int)
    ensures var plan := Compose(hasVideo, hasImage, reduction, total);
            && StageTexts(plan.stages) == WrittenParts(hasVideo, hasImage, (100 - reduction) as real / 100.0, total)
            && PadText(plan.video) == (if hasVideo && !hasImage then "[bg_video]" else "[final_video]")
            && PadText(plan.audio) == (if hasVideo then "[final_audio]" else "[0:a]")
  {
    assert VideoVolume(reduction) == (100 - reduction) as real / 100.0;
    PartsAreStageTexts(hasVideo, hasImage, reduction, total);
    PlanPads(hasVideo, hasImage, reduction, total);
  }

  /** The script, maps and length written from a plan's texts are the serialised plan. */
  lemma GraphArgs(plan: Plan, total: real, parts: seq<Str>, videoOut: string, audioOut: string)
    requires parts == StageTexts(plan.stages)
    requires videoOut == PadText(plan.video) && audioOut == PadText(plan.audio)
    ensures [Lit("-filter_complex"), Join(parts, Lit(";"))] + [Lit("-map"), Lit(videoOut)]
            + [Lit("-map"), Lit(audioOut)] + [Lit("-t"), [Num(total)]]
            == Serialize(GraphOpts(plan, total))
  {
    SerializeGraph(plan, total);
  }

  /** The script, maps and length the program writes are the serialised plan. */
  lemma WrittenGraphArgs(videos: seq<string>, images: seq<string>, total: real, reduction: int,
                         parts: seq<Str>, videoOut: string, audioOut: string)
    requires parts == WrittenParts(videos != [], images != [], (100 - reduction) as real / 100.0, total)
    requires videoOut == (if videos != [] && images == [] then "[bg_video]" else "[final_video]")
    requires audioOut == (if videos != [] then "[final_audio]" else "[0:a]")
    ensures [Lit("-filter_complex"), Join(parts, Lit(";"))] + [Lit("-map"), Lit(videoOut)]
            + [Lit("-map"), Lit(audioOut)] + [Lit("-t"), [Num(total)]]
            == Serialize(GraphOpts(PlanFor(videos, images, total, reduction), total))
  {
    WrittenPlan(videos != [], images != [], total, reduction);
    GraphArgs(PlanFor(videos, images, total, reduction), total, parts, videoOut, audioOut);
  }

  /** The pieces the program writes, put together, are the serialised invocation. */
  lemma AssembleCommand(audio: string, videos: seq<string>, images: seq<string>, output: string,
                        total: real, reduction: int,
                        head: seq<Str>, parts: seq<Str>, videoOut: string, audioOut: string, cmd: seq<Str>)
    requires head == [Lit("ffmpeg"), Lit("-y")] + Serialize(InputOpts(InputFiles(audio, videos, images)))
    requires [Lit("-filter_complex"), Join(parts, Lit(";"))] + [Lit("-map"), Lit(videoOut)]
             + [Lit("-map"), Lit(audioOut)] + [Lit("-t"), [Num(total)]]
             == Serialize(GraphOpts(PlanFor(videos, images, total, reduction), total))
    requires cmd == head + [Lit("-filter_complex"), Join(parts, Lit(";"))]
                    + [Lit("-map"), Lit(videoOut)] + [Lit("-map"), Lit(audioOut)]
                    + [Lit("-t"), [Num(total)],
                       Lit("-c:v"), Lit("libx264"),
                       Lit("-preset"), Lit("fast"),
                       Lit("-crf"), Lit("23"),
                       Lit("-c:a"), Lit("aac"),
                       Lit("-b:a"), Lit("128k"),
                       Lit("-r"), Lit("30"),
                       Lit("-pix_fmt"), Lit("yuv420p"),
                       Lit("-movflags"), Lit("+faststart"),
                       Lit(output)]
    ensures cmd == CommandLine(audio, videos, images, output, total, reduction)
  {
    SettingsArgs(head + [Lit("-filter_complex"), Join(parts, Lit(";"))]
                 + [Lit("-map"), Lit(videoOut)] + [Lit("-map"), Lit(audioOut)], total, Lit(output));
    SerializeProfile();
    CommandLineArgs(audio, videos, images, output, total, reduction);
    Regroup([Lit("ffmpeg"), Lit("-y")], Serialize(InputOpts(InputFiles(audio, videos, images))),
            [Lit("-filter_complex"), Join(parts, Lit(";"))], [Lit("-map"), Lit(videoOut)],
            [Lit("-map"), Lit(audioOut)], [Lit("-t"), [Num(total)]], ProfileArgs(), [Lit(output)]);
  }

  lemma SerializeFive(a: seq<Opt>, b: seq<Opt>, c: seq<Opt>, d: seq<Opt>, e: seq<Opt>)
    ensures Serialize(a + b + c + d + e) == Serialize(a) + Serialize(b) + Serialize(c) + Serialize(d) + Serialize(e)
  {
    SerializeAppend(a, b);
    SerializeAppend(a + b, c);
    SerializeAppend(a + b + c, d);
    SerializeAppend(a + b + c + d, e);
  }

  lemma SettingsArgs(pre: seq<Str>, total: real, output: Str)
    ensures pre + [Lit("-t"), [Num(total)],
                   Lit("-c:v"), Lit("libx264"),
                   Lit("-preset"), Lit("fast"),
                   Lit("-crf"), Lit("23"),
                   Lit("-c:a"), Lit("aac"),
                   Lit("-b:a"), Lit("128k"),
                   Lit("-r"), Lit("30"),
                   Lit("-pix_fmt"), Lit("yuv420p"),
                   Lit("-movflags"), Lit("+faststart"),
                   output]
            == pre + [Lit("-t"), [Num(total)]] + ProfileArgs() + [output]
  {
  }

  lemma Regroup<T>(a: seq<T>, b: seq<T>, c1: seq<T>, c2: seq<T>, c3: seq<T>, c4: seq<T>, d: seq<T>, e: seq<T>)
    ensures (a + b) + c1 + c2 + c3 + c4 + d + e == a + b + (c1 + c2 + c3 + c4) + d + e
  {
  }

  /** The texts of the stages, one filter part each. */
  function StageTexts(stages: seq<Stage>): seq<Str>
  {
    seq(|stages|, i requires 0 <= i < |stages| => StageText(stages[i]))
  }

  // ---------------------------------------------------------------------------------------
  // Proof that the program's literal text is the serialised plan

  lemma OnePad(p: Pad)
    ensures PadsText([p]) == PadText(p)
  {
    assert [p][1..] == [];
  }

  lemma TwoPads(p: Pad, q: Pad)
    ensures PadsText([p, q]) == PadText(p) + PadText(q)
  {
    assert [p, q][1..] == [q];
    OnePad(q);
  }

  lemma InputPadText(k: nat, s: Stream)
    requires k < 10
    ensures PadText(Input(k, s)) == ['[', DigitChar(k), ':', StreamLetter(s)[0], ']']
  {
  }

  lemma PartsAreStageTexts(hasVideo: bool, hasImage: bool, reduction: int, total: real)
    ensures StageTexts(Compose(hasVideo, hasImage, reduction, total).stages)
            == WrittenParts(hasVideo, hasImage, VideoVolume(reduction), total)
  {
    var st := Compose(hasVideo, hasImage, reduction, total).stages;
    if !hasVideo {
      BlackStage(total);
    } else {
      CoverCropStage();
      GainStage(VideoVolume(reduction));
      MixStage();
      if hasImage {
        ThumbnailStage();
        OverlayStage();
      }
    }
  }

  lemma PlanPads(hasVideo: bool, hasImage: bool, reduction: int, total: real)
    ensures var plan := Compose(hasVideo, hasImage, reduction, total);
            PadText(plan.video) == (if hasVideo && !hasImage then "[bg_video]" else "[final_video]")
            && PadText(plan.audio) == (if hasVideo then "[final_audio]" else "[0:a]")
  {
  }

  /** A stage whose pads and filter print as plain strings prints as their concatenation. */
  lemma PlainStage(st: Stage, pads: string, filter: string, out: string)
    requires PadsText(st.inputs) == pads && FilterText(st.filter) == Lit(filter)
    requires "[" + st.output + "]" == out
    ensures StageText(st) == Lit(pads + filter + out)
  {
    LitAppend(pads, filter);
    LitAppend(pads + filter, out);
  }

  lemma CoverCropStage()
    ensures StageText(Stage([Input(1, Video)], CoverCrop, "bg_video")) == Lit("[1:v]" + CoverCropText + "[bg_video]")
  {
    OnePad(Input(1, Video));
    InputPadText(1, Video);
    PlainStage(Stage([Input(1, Video)], CoverCrop, "bg_video"), "[1:v]", CoverCropText, "[bg_video]");
  }

  lemma ThumbnailStage()
    ensures StageText(Stage([Input(2, Video)], Thumbnail, "overlay_img")) == Lit("[2:v]" + ThumbnailText + "[overlay_img]")
  {
    OnePad(Input(2, Video));
    InputPadText(2, Video);
    PlainStage(Stage([Input(2, Video)], Thumbnail, "overlay_img"), "[2:v]", ThumbnailText, "[overlay_img]");
  }

  lemma OverlayPads()
    ensures PadsText([Label("bg_video"), Label("overlay_img")]) == "[bg_video][overlay_img]"
  {
    TwoPads(Label("bg_video"), Label("overlay_img"));
  }

  lemma OverlayFilter()
    ensures FilterText(TimedOverlay(OverlayFrom, OverlayUntil)) == Lit(OverlayPrefix + "3,6)'")
  {
    assert NatText(3) == "3" && NatText(6) == "6";
    assert OverlayPrefix + NatText(OverlayFrom) + "," + NatText(OverlayUntil) + ")'" == OverlayPrefix + "3,6)'";
  }

  lemma OverlayStage()
    ensures StageText(Stage([Label("bg_video"), Label("overlay_img")], TimedOverlay(OverlayFrom, OverlayUntil), "final_video"))
            == Lit("[bg_video][overlay_img]" + OverlayPrefix + "3,6)'" + "[final_video]")
  {
    OverlayPads();
    OverlayFilter();
    PlainStage(Stage([Label("bg_video"), Label("overlay_img")], TimedOverlay(OverlayFrom, OverlayUntil), "final_video"),
               "[bg_video][overlay_img]", OverlayPrefix + "3,6)'", "[final_video]");
  }

  lemma GainStage(v: real)
    ensures StageText(Stage([Input(1, Audio)], Gain(v), "bg_audio")) == Lit("[1:a]" + GainPrefix) + [Num(v)] + Lit("[bg_audio]")
  {
    OnePad(Input(1, Audio));
    InputPadText(1, Audio);
    LitAppend("[1:a]", GainPrefix);
  }

  lemma MixPads()
    ensures PadsText([Input(0, Audio), Label("bg_audio")]) == "[0:a][bg_audio]"
  {
    TwoPads(Input(0, Audio), Label("bg_audio"));
    InputPadText(0, Audio);
  }

  lemma MixStage()
    ensures StageText(Stage([Input(0, Audio), Label("bg_audio")], MixFirst, "final_audio"))
            == Lit("[0:a][bg_audio]" + MixText + "[final_audio]")
  {
    MixPads();
    PlainStage(Stage([Input(0, Audio), Label("bg_audio")], MixFirst, "final_audio"), "[0:a][bg_audio]", MixText, "[final_audio]");
  }

  lemma BlackStage(d: real)
    ensures StageText(Stage([], SolidBlack(d), "final_video")) == Lit(BlackPrefix) + [Num(d)] + Lit("[final_video]")
  {
    assert Lit("") == [];
  }

  lemma SerializeOne(o: Opt)
    ensures Serialize([o]) == OptArgs(o)
  {
    assert [o][1..] == [];
  }

  lemma {:induction false} SerializeInputs(files: seq<string>)
    ensures |Serialize(InputOpts(files))| == 2 * |files|
    ensures forall i :: 0 <= i < |files| ==>
              Serialize(InputOpts(files))[2 * i] == Lit("-i") && Serialize(InputOpts(files))[2 * i + 1] == Lit(files[i])
  {
    if files != [] {
      var rest := InputOpts(files[1..]);
      SerializeInputs(files[1..]);
      SerializeAppend([Set("-i", Lit(files[0]))], rest);
      SerializeOne(Set("-i", Lit(files[0])));
      var args := Serialize(InputOpts(files));
      assert args == [Lit("-i"), Lit(files[0])] + Serialize(rest);
      forall i | 1 <= i < |files|
        ensures args[2 * i] == Lit("-i") && args[2 * i + 1] == Lit(files[i])
      {
        assert files[1..][i - 1] == files[i];
      }
    }
  }

  lemma SerializeGraph(plan: Plan, total: real)
    ensures Serialize(GraphOpts(plan, total))
            == [Lit("-filter_complex"), Join(StageTexts(plan.stages), Lit(";")),
                Lit("-map"), Lit(PadText(plan.video)), Lit("-map"), Lit(PadText(plan.audio)),
                Lit("-t"), [Num(total)]]
  {
    var g := GraphOpts(plan, total);
    SerializeFour(g[0], g[1], g[2], g[3]);
  }

  lemma SerializeInputFiles(audio: string, videos: seq<string>, images: seq<string>)
    ensures Serialize(InputOpts(InputFiles(audio, videos, images)))
            == [Lit("-i"), Lit(audio)]
               + (if videos != [] then [Lit("-i"), Lit(videos[0])] else [])
               + (if images != [] then [Lit("-i"), Lit(images[0])] else [])
  {
    var files := InputFiles(audio, videos, images);
    var args := Serialize(InputOpts(files));
    SerializeInputs(files);
    var want := [Lit("-i"), Lit(audio)]
               + (if videos != [] then [Lit("-i"), Lit(videos[0])] else [])
               + (if images != [] then [Lit("-i"), Lit(images[0])] else []);
    assert |args| == |want|;
    forall k | 0 <= k < |args|
      ensures args[k] == want[k]
    {
      assert args[2 * (k / 2)] == Lit("-i") && args[2 * (k / 2) + 1] == Lit(files[k / 2]);
    }
  }

  lemma SerializeProfile()
    ensures Serialize(Profile()) == ProfileArgs()
  {
    var p := Profile();
    SerializeEight(p[0], p[1], p[2], p[3], p[4], p[5], p[6], p[7]);
    assert p == [p[0], p[1], p[2], p[3], p[4], p[5], p[6], p[7]];
    FlattenPairs(Lit("-c:v"), Lit("libx264"), Lit("-preset"), Lit("fast"), Lit("-crf"), Lit("23"),
                 Lit("-c:a"), Lit("aac"), Lit("-b:a"), Lit("128k"), Lit("-r"), Lit("30"),
                 Lit("-pix_fmt"), Lit("yuv420p"), Lit("-movflags"), Lit("+faststart"));
  }

  lemma SerializeEight(o1: Opt, o2: Opt, o3: Opt, o4: Opt, o5: Opt, o6: Opt, o7: Opt, o8: Opt)
    ensures Serialize([o1, o2, o3, o4, o5, o6, o7, o8])
            == OptArgs(o1) + OptArgs(o2) + OptArgs(o3) + OptArgs(o4)
               + OptArgs(o5) + OptArgs(o6) + OptArgs(o7) + OptArgs(o8)
  {
    assert [o1, o2, o3, o4, o5, o6, o7, o8] == [o1, o2, o3, o4] + [o5, o6, o7, o8];
    SerializeAppend([o1, o2, o3, o4], [o5, o6, o7, o8]);
    SerializeFour(o1, o2, o3, o4);
    SerializeFour(o5, o6, o7, o8);
  }

  lemma FlattenPairs<T>(a1: T, b1: T, a2: T, b2: T, a3: T, b3: T, a4: T, b4: T,
                        a5: T, b5: T, a6: T, b6: T, a7: T, b7: T, a8: T, b8: T)
    ensures [a1, b1] + [a2, b2] + [a3, b3] + [a4, b4] + [a5, b5] + [a6, b6] + [a7, b7] + [a8, b8]
            == [a1, b1, a2, b2, a3, b3, a4, b4, a5, b5, a6, b6, a7, b7, a8, b8]
  {
  }

  lemma SerializeFour(o1: Opt, o2: Opt, o3: Opt, o4: Opt)
    ensures Serialize([o1, o2, o3, o4]) == OptArgs(o1) + OptArgs(o2) + OptArgs(o3) + OptArgs(o4)
  {
    var g := [o1, o2, o3, o4];
    SerializeOne(o4);
    assert g[1..][1..][1..] == [o4];
    assert Serialize(g[1..][1..]) == OptArgs(o3) + OptArgs(o4);
    assert Serialize(g[1..]) == OptArgs(o2) + OptArgs(o3) + OptArgs(o4);
  }

  /** The argument vector, written out. */
  lemma CommandLineArgs(audio: string, videos: seq<string>, images: seq<string>, output: string,
                        total: real, reduction: int)
    ensures var plan := PlanFor(videos, images, total, reduction);
            CommandLine(audio, videos, images, output, total, reduction)
            == [Lit("ffmpeg"), Lit("-y")]
               + Serialize(InputOpts(InputFiles(audio, videos, images)))
               + Serialize(GraphOpts(plan, total))
               + Serialize(Profile())
               + [Lit(output)]
  {
    var plan := PlanFor(videos, images, total, reduction);
    var inputs := InputOpts(InputFiles(audio, videos, images));
    var graph := GraphOpts(plan, total);
    assert Invocation(audio, videos, images, output, total, reduction)
           == [Switch("-y")] + inputs + graph + Profile() + [Output(Lit(output))];
    LayoutArgs(inputs, graph, Profile(), Lit(output));
  }

  lemma LayoutArgs(inputs: seq<Opt>, graph: seq<Opt>, profile: seq<Opt>, output: Str)
    ensures [Lit("ffmpeg")] + Serialize([Switch("-y")] + inputs + graph + profile + [Output(output)])
            == [Lit("ffmpeg"), Lit("-y")] + Serialize(inputs) + Serialize(graph) + Serialize(profile) + [output]
  {
    SerializeFive([Switch("-y")], inputs, graph, profile, [Output(output)]);
    SerializeOne(Switch("-y"));
    SerializeOne(Output(output));
  }

  // ---------------------------------------------------------------------------------------
  // What the invocation asks of the encoder

  /** The values given to `-i` by the input directives are the files, in order. */
  lemma {:induction false} InputValues(files: seq<string>, n: string)
    ensures Values(InputOpts(files), n) == if n == "-i" then LitAll(files) else []
  {
    if files != [] {
      InputValues(files[1..], n);
    }
  }

  lemma {:induction false} InputsValid(files: seq<string>)
    ensures forall i :: 0 <= i < |InputOpts(files)| ==> ValidOpt(InputOpts(files)[i])
    ensures |InputOpts(files)| == |files|
  {
    if files != [] {
      InputsValid(files[1..]);
    }
  }

  /** The values of flag `n` in the directives, part by part. */
  lemma DirectivesValues(files: seq<string>, plan: Plan, total: real, output: Str, n: string)
    ensures Values(Directives(files, plan, total, output), n)
            == Values(InputOpts(files), n) + Values(GraphOpts(plan, total), n) + Values(Profile(), n)
  {
    ValuesOne(Switch("-y"), n);
    ValuesOne(Output(output), n);
    ValuesFive([Switch("-y")], InputOpts(files), GraphOpts(plan, total), Profile(), [Output(output)], n);
  }

  lemma ValuesFive(a: seq<Opt>, b: seq<Opt>, c: seq<Opt>, d: seq<Opt>, e: seq<Opt>, n: string)
    requires Values(a, n) == [] && Values(e, n) == []
    ensures Values(a + b + c + d + e, n) == Values(b, n) + Values(c, n) + Values(d, n)
  {
    assert Values(a + b, n) == Values(b, n) by {
      ValuesAppend(a, b, n);
    }
    assert Values(a + b + c, n) == Values(b, n) + Values(c, n) by {
      ValuesAppend(a + b, c, n);
    }
    assert Values(a + b + c + d, n) == Values(b, n) + Values(c, n) + Values(d, n) by {
      ValuesAppend(a + b + c, d, n);
    }
    ValuesAppend(a + b + c + d, e, n);
  }

  /** The files read are exactly `files`, in order. */
  lemma DirectivesInputs(files: seq<string>, plan: Plan, total: real, output: Str)
    ensures Values(Directives(files, plan, total, output), "-i") == LitAll(files)
  {
    DirectivesValues(files, plan, total, output, "-i");
    assert Values(GraphOpts(plan, total), "-i") == [] by {
      GraphValues(plan, total, "-i");
      FlagsDistinct();
    }
    assert Values(Profile(), "-i") == [] by {
      ProfileValues("-i");
      NotProfileFlag("-i");
    }
    InputValues(files, "-i");
  }

  /** The script is given once, the video pad is selected before the audio pad, and the
      length is given once. */
  lemma DirectivesGraph(files: seq<string>, plan: Plan, total: real, output: Str)
    ensures Values(Directives(files, plan, total, output), "-filter_complex") == [Script(plan.stages)]
    ensures Values(Directives(files, plan, total, output), "-map")
            == [Lit(PadText(plan.video)), Lit(PadText(plan.audio))]
    ensures Values(Directives(files, plan, total, output), "-t") == [[Num(total)]]
  {
    FlagsDistinct();
    NotProfileFlag("-filter_complex");
    NotProfileFlag("-map");
    NotProfileFlag("-t");
    assert Values(Directives(files, plan, total, output), "-filter_complex") == [Script(plan.stages)] by {
      GraphFlag(files, plan, total, output, "-filter_complex");
      GraphValues(plan, total, "-filter_complex");
    }
    assert Values(Directives(files, plan, total, output), "-map")
           == [Lit(PadText(plan.video)), Lit(PadText(plan.audio))] by {
      GraphFlag(files, plan, total, output, "-map");
      GraphValues(plan, total, "-map");
    }
    assert Values(Directives(files, plan, total, output), "-t") == [[Num(total)]] by {
      GraphFlag(files, plan, total, output, "-t");
      GraphValues(plan, total, "-t");
    }
  }

  /** A flag of neither the inputs nor the profile takes its values from the graph. */
  lemma GraphFlag(files: seq<string>, plan: Plan, total: real, output: Str, n: string)
    requires n != "-i" && n !in ProfileFlags()
    ensures Values(Directives(files, plan, total, output), n) == Values(GraphOpts(plan, total), n)
  {
    DirectivesValues(files, plan, total, output, n);
    InputValues(files, n);
    ProfileValues(n);
  }

  /** The encoder reads the narration, then the first background video if there is one, then
      the first image if there is one; later videos and images are never read. */
  lemma InvocationInputs(audio: string, videos: seq<string>, images: seq<string>, output: string,
                         total: real, reduction: int)
    ensures Values(Invocation(audio, videos, images, output, total, reduction), "-i")
            == [Lit(audio)]
               + (if videos != [] then [Lit(videos[0])] else [])
               + (if images != [] then [Lit(images[0])] else [])
  {
    DirectivesInputs(InputFiles(audio, videos, images), PlanFor(videos, images, total, reduction), total, Lit(output));
    LitAllInputFiles(audio, videos, images);
  }

  /** The filter script of the composition's plan is passed once, its video output is
      selected before its audio output, the plan is well formed under the model's reading of
      pads (so every selected pad is produced by exactly one stage or is an input stream), and
      the output is cut at `total` seconds.  Whether the encoder finds the written map text is
      `FilterGraph.WrittenMapsResolve`. */
  lemma InvocationGraph(audio: string, videos: seq<string>, images: seq<string>, output: string,
                        total: real, reduction: int)
    ensures var plan := PlanFor(videos, images, total, reduction);
            var inv := Invocation(audio, videos, images, output, total, reduction);
            && Values(inv, "-filter_complex") == [Script(plan.stages)]
            && Values(inv, "-map") == [Lit(PadText(plan.video)), Lit(PadText(plan.audio))]
            && Values(inv, "-t") == [[Num(total)]]
            && WellFormed(plan, InputAssets(videos != [], images != []))
  {
    var plan := PlanFor(videos, images, total, reduction);
    DirectivesGraph(InputFiles(audio, videos, images), plan, total, Lit(output));
    ComposeWellFormed(videos != [], images != [], reduction, total);
  }

  /** The argument vector starts with `ffmpeg -y`, ends with the output file, and the fixed
      profile comes just before it. */
  lemma CommandLineShape(audio: string, videos: seq<string>, images: seq<string>, output: string,
                         total: real, reduction: int)
    ensures var c := CommandLine(audio, videos, images, output, total, reduction);
            && |c| >= 19
            && c[..2] == [Lit("ffmpeg"), Lit("-y")]
            && c[|c| - 1] == Lit(output)
            && c[|c| - 17..|c| - 1] == ProfileArgs()
  {
    DirectivesShape(InputFiles(audio, videos, images), PlanFor(videos, images, total, reduction), total, Lit(output));
  }

  lemma DirectivesShape(files: seq<string>, plan: Plan, total: real, output: Str)
    ensures var c := [Lit("ffmpeg")] + Serialize(Directives(files, plan, total, output));
            && |c| >= 19
            && c[..2] == [Lit("ffmpeg"), Lit("-y")]
            && c[|c| - 1] == output
            && c[|c| - 17..|c| - 1] == ProfileArgs()
  {
    var c := [Lit("ffmpeg")] + Serialize(Directives(files, plan, total, output));
    LayoutArgs(InputOpts(files), GraphOpts(plan, total), Profile(), output);
    SerializeProfile();
    EndsWith(c, [Lit("ffmpeg"), Lit("-y")], Serialize(InputOpts(files)), Serialize(GraphOpts(plan, total)),
             ProfileArgs(), output);
  }

  lemma EndsWith<T>(c: seq<T>, a: seq<T>, b1: seq<T>, b2: seq<T>, p: seq<T>, o: T)
    requires c == a + b1 + b2 + p + [o]
    requires |a| == 2 && |p| == 16
    ensures |c| >= 19 && c[..2] == a && c[|c| - 1] == o && c[|c| - 17..|c| - 1] == p
  {
    assert c[|c| - 17..|c| - 1] == p;
  }

  /** Every directive is read back as written when the output name is not a flag. */
  lemma {:induction false} DirectivesValid(files: seq<string>, plan: Plan, total: real, output: Str)
    requires !IsFlag(output)
    ensures var d := Directives(files, plan, total, output);
            forall i :: 0 <= i < |d| ==> ValidOpt(d[i])
  {
    InputsValid(files);
    var g := GraphOpts(plan, total);
    assert forall i :: 0 <= i < |g| ==> ValidOpt(g[i]);
    var p := Profile();
    assert forall i :: 0 <= i < |p| ==> ValidOpt(p[i]);
    AllValid([Switch("-y")], InputOpts(files), g, p, [Output(output)]);
  }

  lemma AllValid(a: seq<Opt>, b: seq<Opt>, c: seq<Opt>, d: seq<Opt>, e: seq<Opt>)
    requires forall i :: 0 <= i < |a| ==> ValidOpt(a[i])
    requires forall i :: 0 <= i < |b| ==> ValidOpt(b[i])
    requires forall i :: 0 <= i < |c| ==> ValidOpt(c[i])
    requires forall i :: 0 <= i < |d| ==> ValidOpt(d[i])
    requires forall i :: 0 <= i < |e| ==> ValidOpt(e[i])
    ensures var s := a + b + c + d + e;
            forall i :: 0 <= i < |s| ==> ValidOpt(s[i])
  {
  }

  /** The encoder reads the argument vector back as exactly the invocation's directives (so,
      among other things, the output file is the last thing it reads and nothing else is
      taken for an output), provided the output name is not itself one of the flags. */
  lemma CommandLineRoundTrip(audio: string, videos: seq<string>, images: seq<string>, output: string,
                             total: real, reduction: int)
    requires !IsFlag(Lit(output))
    ensures var c := CommandLine(audio, videos, images, output, total, reduction);
            Parse(c[1..]) == Invocation(audio, videos, images, output, total, reduction)
  {
    var inv := Invocation(audio, videos, images, output, total, reduction);
    DirectivesValid(InputFiles(audio, videos, images), PlanFor(videos, images, total, reduction), total, Lit(output));
    ParseSerialize(inv);
    assert CommandLine(audio, videos, images, output, total, reduction)[1..] == Serialize(inv);
  }

  /** Every string of `ss` as a `Str`. */
  function LitAll(ss: seq<string>): seq<Str>
  {
    seq(|ss|, i requires 0 <= i < |ss| => Lit(ss[i]))
  }

  lemma LitAllInputFiles(audio: string, videos: seq<string>, images: seq<string>)
    ensures LitAll(InputFiles(audio, videos, images))
            == [Lit(audio)]
               + (if videos != [] then [Lit(videos[0])] else [])
               + (if images != [] then [Lit(images[0])] else [])
  {
  }

  /** A flag whose letters differ from every profile flag's is not a profile flag. */
  lemma NotProfileFlag(n: string)
    requires |n| >= 2 && n[1] !in {'c', 'p', 'b', 'r'} && (n[1] == 'm' ==> |n| >= 3 && n[2] != 'o')
    ensures n !in ProfileFlags()
  {
  }

  lemma GraphValues(plan: Plan, total: real, n: string)
    ensures Values(GraphOpts(plan, total), n)
            == (if n == "-filter_complex" then [Script(plan.stages)] else [])
               + (if n == "-map" then [Lit(PadText(plan.video)), Lit(PadText(plan.audio))] else [])
               + (if n == "-t" then [[Num(total)]] else [])
  {
    var g := GraphOpts(plan, total);
    ValuesFour(g[0], g[1], g[2], g[3], n);
    FlagsDistinct();
  }

  lemma ProfileValues(n: string)
    ensures n !in ProfileFlags() ==> Values(Profile(), n) == []
  {
    var p := Profile();
    assert p == [p[0], p[1], p[2], p[3]] + [p[4], p[5], p[6], p[7]];
    ValuesAppend([p[0], p[1], p[2], p[3]], [p[4], p[5], p[6], p[7]], n);
    ValuesFour(p[0], p[1], p[2], p[3], n);
    ValuesFour(p[4], p[5], p[6], p[7], n);
  }

  function ProfileFlags(): set<string>
  {
    {"-c:v", "-preset", "-crf", "-c:a", "-b:a", "-r", "-pix_fmt", "-movflags"}
  }

  lemma FlagsDistinct()
    ensures "-filter_complex" != "-map" && "-filter_complex" != "-t" && "-map" != "-t"
    ensures "-i" != "-filter_complex" && "-i" != "-map" && "-i" != "-t"
  {
    assert "-filter_complex"[1] != "-map"[1] && "-filter_complex"[1] != "-t"[1] && "-map"[1] != "-t"[1];
    assert "-i"[1] != "-filter_complex"[1] && "-i"[1] != "-map"[1] && "-i"[1] != "-t"[1];
  }
}
