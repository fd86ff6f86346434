/** `process_video`: one composition request from configuration to result record.

    The downloads, the duration probe, the encoder run, the upload preparation, the file-size
    query and the clock are outside the model: they are the fields of a `World`, total
    functions of the arguments the program hands them, so each run of the program is a run of
    `ProcessVideo` against some `World`.  An exception raised by any of them is a message, and
    the program turns every such exception into a failure record carrying that message.

    `Prepared` is the first half of the request (defaults, downloads, duration, output name),
    `Process` the whole of it; `ProcessVideo` is the program's own procedure, with its download
    loops, and is proved to produce `Process`. */
module VideoProcessor {
  import opened Util
  import opened Text
  import opened EncoderArgs
  import opened FfmpegCommand

  /** The request.  An absent `video_urls` or `image_urls` is the empty list; an absent
      reduction or extra length is `None`. */
  datatype Config = Config(audioUrl: Option<string>, videoUrls: seq<string>, imageUrls: seq<string>,
                           volumeReduction: Option<int>, durationExtra: Option<real>)

  /** How the encoder process ended. */
  datatype Exit = Exit(code: int, stderr: string)

  /** What upload preparation returned: a record with the listed keys (each possibly
      missing), or some other value that is taken as the video's address. */
  datatype Upload =
    | Record(videoUrl: Option<string>, videoData: Option<string>, uploadReady: Option<bool>)
    | Other(value: Option<string>)

  /** The format the result record announces. */
  datatype Specs = Specs(resolution: string, fps: nat, format: string, audioCodec: string, videoCodec: string)

  /** The result record: `success: True` with the video's details, or `success: False` with
      the error message and the time of failure. */
  datatype Outcome =
    | Succeeded(videoUrl: Option<string>, videoData: Option<string>, uploadReady: bool, duration: real,
                processingTime: string, fileSize: nat, specs: Specs)
    | Failed(error: string, timestamp: string)

  /** The environment of one run. */
  datatype World = World(
    tempDir: string,                             // the processor's temporary directory
    fetch: (string, string) -> Option<string>,   // download of a URL to a path: the error raised, if any
    noUrlError: string,                          // the error raised when there is no narration URL
    probe: string -> Option<real>,               // the probed length of an audio file, if it could be read
    encode: seq<Str> -> Result<Exit>,            // the encoder run on an argument vector, or the launch error
    upload: string -> Upload,                    // upload preparation of the finished video
    fileSize: string -> Result<nat>,             // the size of a file
    stamp: string,                               // the clock, formatted as %Y%m%d_%H%M%S
    now: string)                                 // the clock, in ISO format

  /** A composition ready for the encoder. */
  datatype Job = Job(audio: string, videos: seq<string>, images: seq<string>, output: string,
                     total: real, reduction: int)

  const DefaultReduction: int := 90
  const DefaultExtra: real := 1.0
  const FallbackDuration: real := 15.0
  const MaxVideos: nat := 3
  const MaxImages: nat := 2
  const AudioName := "coach_joe_audio.mp3"
  const FailurePrefix := "FFmpeg processing failed: "
  const OutputSpecs := Specs("720x1280", 30, "mp4", "aac", "libx264")

  /** A file of the temporary directory. */
  function TempPath(dir: string, name: string): string
  {
    dir + "/" + name
  }

  /** The `i`-th download of a series, such as `video_0.mp4`. */
  function Slot(dir: string, prefix: string, ext: string, i: nat): string
  {
    TempPath(dir, prefix + NatText(i) + ext)
  }

  /** The first `n` downloads of a series. */
  function Slots(dir: string, prefix: string, ext: string, n: nat): seq<string>
  {
    seq(n, i requires 0 <= i < n => Slot(dir, prefix, ext, i))
  }

  /** The list sliced to its first `cap` elements, as `urls[:cap]`. */
  function Capped(urls: seq<string>, cap: nat): (r: seq<string>)
    ensures |r| == if |urls| < cap then |urls| else cap
    ensures r == urls[..|r|]
  {
    urls[..if |urls| < cap then |urls| else cap]
  }

  /** The file the finished video is written to. */
  function OutputPath(w: World): string
  {
    TempPath(w.tempDir, "coach_joe_video_" + w.stamp + ".mp4")
  }

  /** The narration's length: the probed length, or 15 seconds when probing fails. */
  function AudioDuration(probed: Option<real>): (d: real)
    ensures probed.Some? ==> d == probed.value
    ensures probed.None? ==> d == FallbackDuration
  {
    match probed
    case Some(x) => x
    case None => FallbackDuration
  }

  /** Downloading a series of URLs in order, stopping at the first one that fails. */
  function FetchAll(w: World, urls: seq<string>, prefix: string, ext: string): Result<seq<string>>
    decreases |urls|
  {
    if urls == [] then Ok([])
    else
      var k := |urls| - 1;
      match FetchAll(w, urls[..k], prefix, ext)
      case Err(e) => Err(e)
      case Ok(paths) =>
        var path := Slot(w.tempDir, prefix, ext, k);
        match w.fetch(urls[k], path)
        case Some(e) => Err(e)
        case None => Ok(paths + [path])
  }

  /** The defaults, the narration download and probe, the capped downloads and the output
      name: everything the program does before it runs the encoder. */
  function Prepared(c: Config, w: World): Result<Job>
  {
    var audio := TempPath(w.tempDir, AudioName);
    var audioError := if c.audioUrl.Some? then w.fetch(c.audioUrl.value, audio) else Some(w.noUrlError);
    if audioError.Some? then Err(audioError.value)
    else
      var total := AudioDuration(w.probe(audio)) + GetOr(c.durationExtra, DefaultExtra);
      match FetchAll(w, Capped(c.videoUrls, MaxVideos), "video_", ".mp4")
      case Err(e) => Err(e)
      case Ok(videos) =>
        match FetchAll(w, Capped(c.imageUrls, MaxImages), "image_", ".jpg")
        case Err(e) => Err(e)
        case Ok(images) =>
          Ok(Job(audio, videos, images, OutputPath(w), total, GetOr(c.volumeReduction, DefaultReduction)))
  }

  /** The argument vector the encoder is run with. */
  function JobCommand(job: Job): seq<Str>
  {
    CommandLine(job.audio, job.videos, job.images, job.output, job.total, job.reduction)
  }

  /** The success record for an upload result, or the failure raised by the size query. */
  function Packaged(up: Upload, total: real, now: string, size: Result<nat>): Outcome
  {
    match size
    case Err(e) => Failed(e, now)
    case Ok(n) =>
      match up
      case Record(url, data, ready) => Succeeded(url, data, GetOr(ready, false), total, now, n, OutputSpecs)
      case Other(v) => Succeeded(v, None, false, total, now, n, OutputSpecs)
  }

  /** The whole request. */
  function Process(c: Config, w: World): Outcome
  {
    match Prepared(c, w)
    case Err(e) => Failed(e, w.now)
    case Ok(job) =>
      match w.encode(JobCommand(job))
      case Err(e) => Failed(e, w.now)
      case Ok(exit) =>
        if exit.code != 0 then Failed(FailurePrefix + exit.stderr, w.now)
        else Packaged(w.upload(job.output), job.total, w.now, w.fileSize(job.output))
  }

  method ProcessVideo(config: Config, w: World) returns (out: Outcome)
    ensures out == Process(config, w)
  {
    var reduction := GetOr(config.volumeReduction, DefaultReduction);
    var extra := GetOr(config.durationExtra, DefaultExtra);

    var audioFile := TempPath(w.tempDir, AudioName);
    var audioError := if config.audioUrl.Some? then w.fetch(config.audioUrl.value, audioFile) else Some(w.noUrlError);
    if audioError.Some? {
      return Failed(audioError.value, w.now);
    }
    var audioDuration := AudioDuration(w.probe(audioFile));
    var totalDuration := audioDuration + extra;

    var videos := DownloadAll(w, Capped(config.videoUrls, MaxVideos), "video_", ".mp4");
    if videos.Err? {
      return Failed(videos.error, w.now);
    }
    var images := DownloadAll(w, Capped(config.imageUrls, MaxImages), "image_", ".jpg");
    if images.Err? {
      return Failed(images.error, w.now);
    }
    var outputFile := OutputPath(w);

    var cmd := BuildFfmpegCommand(audioFile, videos.value, images.value, outputFile, totalDuration, reduction);
    var run := w.encode(cmd);
    if run.Err? {
      return Failed(run.error, w.now);
    }
    var exit := run.value;
    if exit.code != 0 {
      return Failed(FailurePrefix + exit.stderr, w.now);
    }

    var uploadResult := w.upload(outputFile);
    var finalUrl, videoData, uploadReady;
    if uploadResult.Record? {
      finalUrl := uploadResult.videoUrl;
      videoData := uploadResult.videoData;
      uploadReady := GetOr(uploadResult.uploadReady, false);
    } else {
      finalUrl := uploadResult.value;
      videoData := None;
      uploadReady := false;
    }
    var size := w.fileSize(outputFile);
    if size.Err? {
      return Failed(size.error, w.now);
    }
    out := Succeeded(finalUrl, videoData, uploadReady, totalDuration, w.now, size.value, OutputSpecs);
  }

  /** The download loop: `urls[i]` goes to the `i`-th slot of the series. */
  method DownloadAll(w: World, urls: seq<string>, prefix: string, ext: string) returns (r: Result<seq<string>>)
    ensures r == FetchAll(w, urls, prefix, ext)
  {
    var files: seq<string> := [];
    var i := 0;
    while i < |urls|
      invariant 0 <= i <= |urls|
      invariant FetchAll(w, urls[..i], prefix, ext) == Ok(files)
    {
      var path := Slot(w.tempDir, prefix, ext, i);
      var error := w.fetch(urls[i], path);
      assert urls[..i + 1][..i] == urls[..i];
      if error.Some? {
        FetchAllStops(w, urls, prefix, ext, i + 1);
        return Err(error.value);
      }
      files := files + [path];
      i := i + 1;
    }
    assert urls[..i] == urls;
    return Ok(files);
  }

  // ---------------------------------------------------------------------------------------
  // Downloads

  /** Once a download fails, the later URLs change nothing: the series fails with that error. */
  lemma {:induction false} FetchAllStops(w: World, urls: seq<string>, prefix: string, ext: string, n: nat)
    requires n <= |urls|
    requires FetchAll(w, urls[..n], prefix, ext).Err?
    ensures FetchAll(w, urls, prefix, ext) == FetchAll(w, urls[..n], prefix, ext)
    decreases |urls| - n
  {
    if n < |urls| {
      var m := |urls| - 1;
      assert urls[..m][..n] == urls[..n];
      FetchAllStops(w, urls[..m], prefix, ext, n);
      assert urls[..m] == urls[..|urls| - 1];
    } else {
      assert urls[..n] == urls;
    }
  }

  /** A series succeeds exactly when every one of its downloads does, and then yields the
      slots of the series, in order. */
  lemma {:induction false} FetchAllOk(w: World, urls: seq<string>, prefix: string, ext: string)
    ensures FetchAll(w, urls, prefix, ext).Ok?
            <==> forall i :: 0 <= i < |urls| ==> w.fetch(urls[i], Slot(w.tempDir, prefix, ext, i)).None?
    ensures FetchAll(w, urls, prefix, ext).Ok? ==>
              FetchAll(w, urls, prefix, ext).value == Slots(w.tempDir, prefix, ext, |urls|)
  {
    if urls != [] {
      var k := |urls| - 1;
      FetchAllOk(w, urls[..k], prefix, ext);
      forall i | 0 <= i < k
        ensures urls[..k][i] == urls[i]
      {
      }
    }
  }

  /** A series that fails reports the error of its first failing download. */
  lemma {:induction false} FetchAllError(w: World, urls: seq<string>, prefix: string, ext: string)
    requires FetchAll(w, urls, prefix, ext).Err?
    ensures exists k :: 0 <= k < |urls|
              && w.fetch(urls[k], Slot(w.tempDir, prefix, ext, k)) == Some(FetchAll(w, urls, prefix, ext).error)
              && forall j :: 0 <= j < k ==> w.fetch(urls[j], Slot(w.tempDir, prefix, ext, j)).None?
  {
    var k := |urls| - 1;
    var e := FetchAll(w, urls, prefix, ext).error;
    if FetchAll(w, urls[..k], prefix, ext).Err? {
      FetchAllError(w, urls[..k], prefix, ext);
      var j :| 0 <= j < k
               && w.fetch(urls[..k][j], Slot(w.tempDir, prefix, ext, j)) == Some(e)
               && forall i :: 0 <= i < j ==> w.fetch(urls[..k][i], Slot(w.tempDir, prefix, ext, i)).None?;
      assert forall i :: 0 <= i <= j ==> urls[..k][i] == urls[i];
    } else {
      FetchAllOk(w, urls[..k], prefix, ext);
      assert forall i :: 0 <= i < k ==> urls[..k][i] == urls[i];
    }
  }

  /** Different positions of a series download to different files, so no download
      overwrites another. */
  lemma SlotsDistinct(dir: string, prefix: string, ext: string, i: nat, j: nat)
    requires i != j
    ensures Slot(dir, prefix, ext, i) != Slot(dir, prefix, ext, j)
  {
    if Slot(dir, prefix, ext, i) == Slot(dir, prefix, ext, j) {
      CancelFront(dir + "/", prefix + NatText(i) + ext, prefix + NatText(j) + ext);
      CancelAround(prefix, NatText(i), NatText(j), ext);
      NatTextInjective(i, j);
    }
  }

  lemma CancelFront(a: string, x: string, y: string)
    requires a + x == a + y
    ensures x == y
  {
    assert x == (a + x)[|a|..];
    assert y == (a + y)[|a|..];
  }

  lemma CancelAround(a: string, x: string, y: string, b: string)
    requires a + x + b == a + y + b
    ensures x == y
  {
    var s := a + x + b;
    assert |x| == |y|;
    assert x == s[|a|..|a| + |x|];
    assert y == (a + y + b)[|a|..|a| + |y|];
  }

  // ---------------------------------------------------------------------------------------
  // What the encoder is given

  /** Preparation succeeds exactly when there is a narration URL and every download succeeds;
      then the job holds the narration file, at most 3 video files and at most 2 image files
      named by position, the probed length (or 15 s) plus the extra length (default 1 s),
      and the reduction (default 90). */
  lemma PreparedJob(c: Config, w: World)
    ensures var audio := TempPath(w.tempDir, AudioName);
            var vs := Capped(c.videoUrls, MaxVideos);
            var ims := Capped(c.imageUrls, MaxImages);
            Prepared(c, w).Ok?
            <==> && c.audioUrl.Some?
                 && w.fetch(c.audioUrl.value, audio).None?
                 && (forall i :: 0 <= i < |vs| ==> w.fetch(vs[i], Slot(w.tempDir, "video_", ".mp4", i)).None?)
                 && (forall i :: 0 <= i < |ims| ==> w.fetch(ims[i], Slot(w.tempDir, "image_", ".jpg", i)).None?)
    ensures Prepared(c, w).Ok? ==>
              var job := Prepared(c, w).value;
              && job.audio == TempPath(w.tempDir, AudioName)
              && job.videos == Slots(w.tempDir, "video_", ".mp4", |Capped(c.videoUrls, MaxVideos)|)
              && job.images == Slots(w.tempDir, "image_", ".jpg", |Capped(c.imageUrls, MaxImages)|)
              && |job.videos| <= 3 && |job.images| <= 2
              && (job.videos == [] <==> c.videoUrls == [])
              && (job.images == [] <==> c.imageUrls == [])
              && job.output == OutputPath(w)
              && job.total == AudioDuration(w.probe(job.audio)) + GetOr(c.durationExtra, 1.0)
              && job.reduction == GetOr(c.volumeReduction, 90)
  {
    FetchAllOk(w, Capped(c.videoUrls, MaxVideos), "video_", ".mp4");
    FetchAllOk(w, Capped(c.imageUrls, MaxImages), "image_", ".jpg");
  }

  /** The output name the program builds is never read as a flag: it is longer than every flag. */
  lemma OutputNotFlag(w: World)
    ensures !IsFlag(Lit(OutputPath(w)))
  {
    PlainLit(OutputPath(w));
    assert |OutputPath(w)| >= 21;
  }

  /** For every prepared job, the encoder reads back from the command exactly the directives
      of its invocation. */
  lemma JobCommandRoundTrip(c: Config, w: World)
    ensures Prepared(c, w).Ok? ==>
              var job := Prepared(c, w).value;
              Parse(JobCommand(job)[1..]) == Invocation(job.audio, job.videos, job.images, job.output, job.total, job.reduction)
  {
    if Prepared(c, w).Ok? {
      var job := Prepared(c, w).value;
      PreparedJob(c, w);
      OutputNotFlag(w);
      CommandLineRoundTrip(job.audio, job.videos, job.images, job.output, job.total, job.reduction);
    }
  }

  /** The encoder reads the narration, then `video_0.mp4` if any video URL was given, then
      `image_0.jpg` if any image URL was given; nothing else. */
  lemma EncoderInputs(c: Config, w: World)
    requires Prepared(c, w).Ok?
    ensures var job := Prepared(c, w).value;
            Values(Invocation(job.audio, job.videos, job.images, job.output, job.total, job.reduction), "-i")
            == [Lit(TempPath(w.tempDir, AudioName))]
               + (if c.videoUrls != [] then [Lit(Slot(w.tempDir, "video_", ".mp4", 0))] else [])
               + (if c.imageUrls != [] then [Lit(Slot(w.tempDir, "image_", ".jpg", 0))] else [])
  {
    var job := Prepared(c, w).value;
    PreparedJob(c, w);
    InvocationInputs(job.audio, job.videos, job.images, job.output, job.total, job.reduction);
  }

  // ---------------------------------------------------------------------------------------
  // The result record

  /** A failed preparation is reported with its error, and so is an encoder that cannot be
      started; a non-zero encoder exit is reported as `"FFmpeg processing failed: "` followed
      by the encoder's error output. */
  lemma ProcessFailures(c: Config, w: World)
    ensures Prepared(c, w).Err? ==> Process(c, w) == Failed(Prepared(c, w).error, w.now)
    ensures Prepared(c, w).Ok? && w.encode(JobCommand(Prepared(c, w).value)).Err? ==>
              Process(c, w) == Failed(w.encode(JobCommand(Prepared(c, w).value)).error, w.now)
    ensures Prepared(c, w).Ok? && w.encode(JobCommand(Prepared(c, w).value)).Ok?
            && w.encode(JobCommand(Prepared(c, w).value)).value.code != 0 ==>
              Process(c, w) == Failed("FFmpeg processing failed: " + w.encode(JobCommand(Prepared(c, w).value)).value.stderr, w.now)
  {
  }

  /** The request succeeds exactly when preparation succeeds, the encoder starts and exits
      with 0, and the finished file's size can be read. */
  lemma ProcessSucceeds(c: Config, w: World)
    ensures Process(c, w).Succeeded?
            <==> && Prepared(c, w).Ok?
                 && w.encode(JobCommand(Prepared(c, w).value)).Ok?
                 && w.encode(JobCommand(Prepared(c, w).value)).value.code == 0
                 && w.fileSize(OutputPath(w)).Ok?
  {
    if Prepared(c, w).Ok? {
      PreparedJob(c, w);
    }
  }

  /** A successful record reports the narration's probed length (or 15 s) plus the extra
      length (default 1 s), the size of the output file, the time, and the fixed format
      720x1280, 30 fps, mp4, aac, libx264. */
  lemma ProcessReport(c: Config, w: World)
    requires Process(c, w).Succeeded?
    ensures var r := Process(c, w);
            var audio := TempPath(w.tempDir, AudioName);
            && r.duration == (if w.probe(audio).Some? then w.probe(audio).value else 15.0)
                             + (if c.durationExtra.Some? then c.durationExtra.value else 1.0)
            && w.fileSize(OutputPath(w)) == Ok(r.fileSize)
            && r.processingTime == w.now
            && r.specs == Specs("720x1280", 30, "mp4", "aac", "libx264")
  {
    ProcessSucceeds(c, w);
    PreparedJob(c, w);
  }

  /** A successful record takes the address, data and readiness from an upload record (not
      ready when the key is missing), or the returned value as the address, with no data and
      not ready, for anything else. */
  lemma ProcessUpload(c: Config, w: World)
    requires Process(c, w).Succeeded?
    ensures var r := Process(c, w);
            match w.upload(OutputPath(w))
            case Record(url, data, ready) =>
              r.videoUrl == url && r.videoData == data && (r.uploadReady <==> ready == Some(true))
            case Other(v) =>
              r.videoUrl == v && r.videoData == None && !r.uploadReady
  {
    ProcessSucceeds(c, w);
    PreparedJob(c, w);
  }

  // ---------------------------------------------------------------------------------------
  // The default download name

  /** The name a download is saved under: the given name, or, when none (or an empty one) is
      given, the last `/`-separated segment of the URL. */
  function DownloadName(url: string, filename: Option<string>): string
  {
    if filename.Some? && filename.value != "" then filename.value else LastSegment(url)
  }

  /** A non-empty given name is used as it is; otherwise the name holds no `/` and ends the
      URL, right after its last `/`. */
  lemma DownloadNameChoice(url: string, filename: Option<string>)
    ensures filename.Some? && filename.value != "" ==> DownloadName(url, filename) == filename.value
    ensures filename.None? || filename.value == "" ==>
              var name := DownloadName(url, filename);
              && '/' !in name
              && exists front :: url == front + name && (front == [] || front[|front| - 1] == '/')
  {
    LastSegmentSplits(url);
  }

  /** `url.split('/')[-1]`. */
  function LastSegment(url: string): string
    decreases |url|
  {
    if url == [] || url[|url| - 1] == '/' then [] else LastSegment(url[..|url| - 1]) + [url[|url| - 1]]
  }

  /** The last segment holds no `/` and ends the URL, right after its last `/` (or is the
      whole URL when there is none). */
  lemma {:induction false} LastSegmentSplits(url: string)
    ensures '/' !in LastSegment(url)
    ensures exists front :: url == front + LastSegment(url) && (front == [] || front[|front| - 1] == '/')
  {
    var s := LastSegment(url);
    if url == [] {
      assert url == [] + s;
    } else if url[|url| - 1] == '/' {
      assert url == url + s;
    } else {
      var k := |url| - 1;
      LastSegmentSplits(url[..k]);
      var front :| url[..k] == front + LastSegment(url[..k]) && (front == [] || front[|front| - 1] == '/');
      assert url == front + s;
    }
  }
}
