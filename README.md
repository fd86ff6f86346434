# Coach Joe video composer, modelled in Dafny

The Coach Joe processor turns a narration track, optional background videos and optional
overlay images into one 720x1280 vertical video. It downloads the files, probes the
narration's length and builds one `ffmpeg` invocation. The invocation has a filter graph
with three shapes:

- a black background;
- the background video alone;
- the background video with a thumbnail of the first image, shown between seconds 3 and 6.

It mixes the background's sound under the narration, runs the encoder and reports the
outcome as a result record.

This project models that core and proves what the program promises about it. It has six
modules:

- `Util` (util.dfy): `Option`, `Result` and `GetOr`, which is `dict.get` with a default.
- `Text` (text.dfy): strings as the encoder receives them. A number that the program
  prints with Python's float formatting is one opaque symbol, `Num(x)`. `NatText` is
  `str(n)` for indices.
- `FilterGraph` (filter_graph.dfy): the filter graph as typed stages, each with input pads,
  a filter and an output label. It also has:
  - the volume multiplier `VideoVolume`;
  - the planner `Compose`, which covers the three shapes;
  - rendering to the `;`-joined script;
  - well-formedness under the model's reading of pads: stages are typed and ordered,
    labels are unique, both mapped pads name a stage output or an input stream, and every
    produced label is read exactly once;
  - `MapResolves`, how the encoder reads the written `-map` text, where a bracketed name
    is a filter-graph output label;
  - the raw streams each mapped pad is made of.
- `EncoderArgs` (encoder_args.dfy): the argument list read as directives (switch,
  flag-with-value, output file), with `Serialize`, `Parse`, their round trip, and
  `Values`, the values given to one flag.
- `FfmpegCommand` (ffmpeg_command.dfy): `build_ffmpeg_command`.
  - `BuildFfmpegCommand` is the program's own procedure. It extends the argument list and
    the list of filter parts step by step, with the program's literal text.
  - It is proved to return exactly `CommandLine`, the serialised `Invocation`, which is
    built from the typed plan.
  - The remaining lemmas state what the invocation asks of the encoder.
- `VideoProcessor` (process_video.dfy): `process_video` and the probe fallback of
  `get_audio_duration`.
  - Downloads, probe, encoder, upload preparation, file size and clock are the fields of a
    `World`: total functions of the arguments the program passes them.
  - `ProcessVideo` is the program's procedure, including its download loops. It is proved
    to return `Process`, the specification.

## Model

| member | source | states |
|---|---|---|
| FilterGraph.VideoVolume | coach_joe_ffmpeg_processor.py:175-176 | the multiplier v satisfies 100·v + r = 100; it lies in [0, 1] for r in [0, 100]; it is 0 exactly when r = 100 and 1 exactly when r = 0 |
| FilterGraph.VideoVolumeExamples | coach_joe_ffmpeg_processor.py:175-176 | a reduction of 90 gives 0.1, 50 gives 0.5, 100 gives 0 and 0 gives 1 |
| FilterGraph.VideoVolumeDecreasing | coach_joe_ffmpeg_processor.py:176 | a larger reduction always gives a strictly smaller multiplier |
| FilterGraph.ComposeWithoutVideo | coach_joe_ffmpeg_processor.py:211-228 | without a video: the picture is the label made by the black source of the full duration, the sound is the raw narration `[0:a]`, and no stage reads any input, so a supplied image is ignored |
| FilterGraph.ComposeAudioMix | coach_joe_ffmpeg_processor.py:218-225 | with a video: the mapped sound is made by the mix (duration of the first input). Its first input is the narration `[0:a]`; its second is made by the gain stage with multiplier `VideoVolume(r)` applied to `[1:a]` |
| FilterGraph.ComposeOverlayWindow | coach_joe_ffmpeg_processor.py:200-207 | a timed overlay stage exists exactly when there are both a video and an image, and it is shown exactly for 3 ≤ t ≤ 6 |
| FilterGraph.ComposeSources | coach_joe_ffmpeg_processor.py:192-228 | the raw streams behind the mapped video pad are: none (black); `[1:v]`; or `[1:v]` and `[2:v]` (overlay). The mapped audio pad draws on `[0:a]`, plus `[1:a]` exactly when there is a video |
| FilterGraph.ComposeWellFormed | coach_joe_ffmpeg_processor.py:190-236 | in every case the plan has at least one stage, so the script is always emitted. Its stages are typed and use only labels made earlier; labels are unique; the mapped video pad is a video stream and the mapped audio pad an audio stream, reading a pad as a stage output or an input stream; every produced label is read exactly once (no dangling pad) |
| FilterGraph.WrittenMapsResolve | coach_joe_ffmpeg_processor.py:226-236 | as the program writes them (bracketed), the video map always names a graph output that no stage reads, and the audio map does so exactly when there is a background video |
| FilterGraph.NarrationMapUnresolved | coach_joe_ffmpeg_processor.py:226-236 | without a background video the written audio map `[0:a]` names no graph output |
| FilterGraph.MapArgResolves | coach_joe_ffmpeg_processor.py:234-236 | for every well-formed plan, maps written with a raw input bare (`0:a`) and a stage output bracketed both resolve |
| FilterGraph.CorrectedMapsResolve | coach_joe_ffmpeg_processor.py:226-236 | with the map text written that way, both maps resolve in all three of the program's graphs |
| FilterGraph.MappedLabelHasOneProducer | coach_joe_ffmpeg_processor.py:234-236 | in a well-formed plan a mapped label is the output of exactly one stage |
| FfmpegCommand.BuildFfmpegCommand | coach_joe_ffmpeg_processor.py:171-252 | the argument list built step by step, from the literal filter parts, is exactly the serialisation of the invocation that `Compose` specifies |
| FfmpegCommand.WrittenPlan | coach_joe_ffmpeg_processor.py:190-228 | the program's literal filter parts are the rendered stages of `Compose`, with multiplier (100 − r)/100. The video pad is `[bg_video]` for a video without an image and `[final_video]` otherwise; the audio pad is `[final_audio]` with a video and `[0:a]` without |
| FfmpegCommand.InvocationInputs | coach_joe_ffmpeg_processor.py:178-187 | the `-i` values are, in order: the narration; `videos[0]` exactly when there is a video; `images[0]` exactly when there is an image. Later files never appear |
| FfmpegCommand.InvocationGraph | coach_joe_ffmpeg_processor.py:230-240 | `-filter_complex` is given once, with the plan's script. There are exactly two `-map` values, video pad then audio pad. `-t` is given once with the total duration. The plan is well formed |
| FfmpegCommand.CommandLineShape | coach_joe_ffmpeg_processor.py:178-250 | the argument vector starts `ffmpeg -y` and ends with the output file. The 16 arguments before the output are the fixed profile: libx264, fast, 23, aac, 128k, 30, yuv420p, +faststart |
| FfmpegCommand.CommandLineRoundTrip | coach_joe_ffmpeg_processor.py:178-250 | when the output name is not a flag, the encoder reads the vector back as exactly the invocation's directives, with the output as the only and last non-flag argument |
| EncoderArgs.ParseSerialize | coach_joe_ffmpeg_processor.py:178-250 | reading back a serialised list of valid directives gives the same directives |
| Text.NatTextInjective | coach_joe_ffmpeg_processor.py:99-107 | different indices print differently |
| VideoProcessor.AudioDuration | coach_joe_ffmpeg_processor.py:52-65 | the probed length when probing succeeds, otherwise 15.0 |
| VideoProcessor.Capped | coach_joe_ffmpeg_processor.py:99 | `urls[:cap]`: a prefix of the list, of length min(len, cap) |
| VideoProcessor.DownloadAll | coach_joe_ffmpeg_processor.py:98-107 | the download loop returns the series outcome `FetchAll` |
| VideoProcessor.FetchAllOk | coach_joe_ffmpeg_processor.py:98-107 | a series succeeds exactly when every download succeeds, and then yields the slot files `prefix_i.ext` in order |
| VideoProcessor.FetchAllError | coach_joe_ffmpeg_processor.py:98-107 | a failed series reports the error of its first failing download; all earlier downloads succeeded |
| VideoProcessor.FetchAllStops | coach_joe_ffmpeg_processor.py:98-107 | once a prefix of the series has failed, the later URLs do not change the outcome |
| VideoProcessor.SlotsDistinct | coach_joe_ffmpeg_processor.py:99-107 | different positions of a series download to different files |
| VideoProcessor.PreparedJob | coach_joe_ffmpeg_processor.py:80-121 | preparation succeeds exactly when there is a narration URL and every download succeeds (narration, at most 3 videos, at most 2 images). The job then has at most 3 videos and 2 images, non-empty exactly when URLs were given. Its length is the probe (or 15.0) plus the extra (default 1), its reduction is the given one (default 90), and its output is the stamped file |
| VideoProcessor.OutputNotFlag | coach_joe_ffmpeg_processor.py:110-111 | the output name the program builds (`<temp>/coach_joe_video_<stamp>.mp4`) is never one of the encoder's flags |
| VideoProcessor.JobCommandRoundTrip | coach_joe_ffmpeg_processor.py:110-124 | for every prepared job, the encoder reads the built command back as exactly the job's invocation directives |
| VideoProcessor.EncoderInputs | coach_joe_ffmpeg_processor.py:93-121 | the encoder reads the narration file, then `video_0.mp4` exactly when a video URL was given, then `image_0.jpg` exactly when an image URL was given |
| VideoProcessor.ProcessVideo | coach_joe_ffmpeg_processor.py:67-169 | the procedure (defaults, narration download and probe, capped download loops, output name, command, encoder, upload branch, size) returns `Process` |
| VideoProcessor.ProcessFailures | coach_joe_ffmpeg_processor.py:126-169 | a failed preparation gives a failure record with its error, and so does an encoder that cannot be started (no prefix). A non-zero encoder exit gives a failure record with `"FFmpeg processing failed: "` + stderr |
| VideoProcessor.ProcessSucceeds | coach_joe_ffmpeg_processor.py:126-169 | the record is a success exactly when preparation succeeds, the encoder starts and exits with 0, and the output file's size can be read |
| VideoProcessor.ProcessReport | coach_joe_ffmpeg_processor.py:146-161 | a success reports: duration = probe (or 15.0) + extra (default 1); the output file's size; the time; the specs 720x1280, 30 fps, mp4, aac, libx264 |
| VideoProcessor.ProcessUpload | coach_joe_ffmpeg_processor.py:137-150 | an upload record gives its URL and data, and is ready only when its flag is `True`. Any other value becomes the URL, with no data and not ready |
| VideoProcessor.LastSegmentSplits | coach_joe_ffmpeg_processor.py:30-31 | the default download name contains no `/` and ends the URL right after its last `/` (or is the whole URL when it has none) |
| VideoProcessor.DownloadNameChoice | coach_joe_ffmpeg_processor.py:30-31 | a non-empty given name is used as it is; otherwise the name holds no `/` and ends the URL right after its last `/` |

## Left out

- Network transfer, subprocesses (ffprobe, ffmpeg), file reads, base64 encoding, the file
  size and the clock are not modelled. They are the `World` fields: a download error or
  none, a probed length or none, an exit code with stderr or the error of a failed
  launch, an upload result, a size or an error, and two clock readings. The three `datetime.now()` calls are taken as one
  formatted stamp and one ISO time.
- Logging is left out.
- Python's float printing (`str(total_duration)`, the f-string of the multiplier) is not
  reproduced. A printed number is one `Num(x)` symbol that carries the exact real value.
- Durations and the multiplier are exact reals, not binary floats. `(100 - r) / 100` and
  `probed + extra` are exact here, where Python rounds to the nearest double.
- FfmpegCommand.CommandLineRoundTrip: requires that the output file name is not one of
  the flags, which the program does not check. For the name the program builds this is
  proved (`VideoProcessor.OutputNotFlag`), and the round trip holds for every prepared
  job (`VideoProcessor.JobCommandRoundTrip`).
- `os.path.join` is modelled as `dir + "/" + name`. That equals the library result for the
  relative names the program uses and a directory without a trailing `/`.
- Untyped configurations are not modelled: `None`, a string or another non-list value for
  `video_urls` or `image_urls`, a non-numeric reduction or extra length, and non-string
  URLs. The model's configuration is typed, and what the program does with such input is
  not stated here.
- VideoProcessor.Config: the volume reduction is an integer percentage. A fractional
  reduction such as 87.5, which the program accepts and turns into the multiplier 0.125
  at coach_joe_ffmpeg_processor.py:176, cannot be expressed.
- FilterGraph.ComposeWellFormed: takes every background clip to have a sound track
  (`Carries(Background, Audio)`). The program does not check this; for a silent clip the
  gain stage's `[1:a]` names no stream and the graph is not well formed.
- FilterGraph.MapResolves: states the encoder's rule for `-map` (a bracketed name is a
  filter-graph output label that no filter reads; otherwise a stream specifier of an
  input) as the encoder's documentation gives it. The encoder itself is outside the model.
- FfmpegCommand.BuildFfmpegCommand keeps the program's bracketed `[0:a]` map, because it
  models the program as written. The corrected map text `FilterGraph.MapArg` is proved
  about separately and is not used by the command model.
- VideoProcessor.ProcessUpload: an upload record's `upload_ready` is a boolean or missing.
  The program copies whatever value is stored there.
- `upload_to_supabase` is not modelled beyond its result (the record or the other value).
  The same goes for `cleanup`, the module-level `handler` and the deployment adapters
  (runpod_handler.py, modal_handler.py, replicate_handler.py): they are thin shims over
  SDKs.
- The supported-format lists set in `__init__` are never consulted by the program and are
  not modelled.

## Findings

| source | as written | input that shows it | evidently intended | confidence | as-written member | corrected member |
|---|---|---|---|---|---|---|
| coach_joe_ffmpeg_processor.py:228,236 | without a background video the audio is mapped as `-map [0:a]`; the brackets make the encoder look for a filter-graph output labelled `0:a`, and the only stage produces `final_video` | any request with no `video_urls`, e.g. one narration URL and nothing else | map the raw narration stream bare, `-map 0:a` | likely; not executed | FilterGraph.NarrationMapUnresolved | FilterGraph.CorrectedMapsResolve |
