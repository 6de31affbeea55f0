/** The LibRaw engine as the wrapper sees it: an object holding the output
    parameters and the decoded image's description, whose stage calls answer
    with status codes and images the wrapper cannot predict. Every call is
    recorded in a ghost log, against which the wrapper's behaviour is stated. */
module Engine {
  import opened Host
  import opened CStrings
  import opened Params

  /** `LIBRAW_SUCCESS`. */
  const Success: int := 0

  /** `size_t` on the 32-bit WebAssembly target: arithmetic wraps modulo 2^32. */
  const SizeT: nat := 0x1_0000_0000

  /** The three stages `open` runs. */
  datatype Stage = OpenBufferStage | UnpackStage | ProcessStage

  /** A `libraw_processed_image_t`: its header, and its `data` buffer read as
      elements of `bits` bits. */
  datatype ProcessedImage = ProcessedImage(height: u16, width: u16, colors: u16, bits: u16, samples: seq<int>)

  /** One call into the engine, with what it answered. */
  datatype Call =
    | OpenBuffer(data: seq<byte>, params: Params, status: int)
    | Unpack(status: int)
    | Process(status: int)
    | MakeMemImage(image: Option<ProcessedImage>)
    | ClearMem(released: ProcessedImage)

  /** The decoded-image fields `metadata` reads; the text fields are the raw
      character buffers (`char[]`) as the engine filled them. */
  datatype ImageInfo = ImageInfo(
    width: u16, height: u16, rawWidth: u16, rawHeight: u16, topMargin: u16, leftMargin: u16,
    make: string, model: string,
    isoSpeed: real, shutter: real, aperture: real, focalLen: real,
    timestamp: int, shotOrder: u32, desc: string, artist: string,
    thumbWidth: u16, thumbHeight: u16, thumbFormat: int)

  /** The engine object. Its stage calls may answer anything; each records
      itself in `calls` and none of them touches the output parameters. */
  class LibRaw {
    /** `imgdata.params`, a struct held by value. */
    var params: Params
    /** `imgdata.sizes`, `idata`, `other` and `thumbnail`, as far as read. */
    var info: ImageInfo
    ghost var calls: seq<Call>

    /** A fresh engine with its default parameters and an empty description. */
    constructor (defaults: Params, blank: ImageInfo)
      ensures params == defaults && info == blank && calls == []
    {
      params := defaults;
      info := blank;
      calls := [];
    }

    /** `open_buffer(data, size)`. */
    method OpenBuffer(data: seq<byte>) returns (status: int)
      modifies this
      ensures params == old(params)
      ensures calls == old(calls) + [Call.OpenBuffer(data, params, status)]
    {
      status := *;
      info := *;
      calls := calls + [Call.OpenBuffer(data, params, status)];
    }

    /** `unpack()`. */
    method Unpack() returns (status: int)
      modifies this
      ensures params == old(params)
      ensures calls == old(calls) + [Call.Unpack(status)]
    {
      status := *;
      info := *;
      calls := calls + [Call.Unpack(status)];
    }

    /** `dcraw_process()`. */
    method DcrawProcess() returns (status: int)
      modifies this
      ensures params == old(params)
      ensures calls == old(calls) + [Process(status)]
    {
      status := *;
      info := *;
      calls := calls + [Process(status)];
    }

    /** `dcraw_make_mem_image()`: a freshly allocated image, or null. */
    method DcrawMakeMemImage() returns (image: Option<ProcessedImage>)
      modifies this
      ensures params == old(params) && info == old(info)
      ensures calls == old(calls) + [MakeMemImage(image)]
    {
      image := *;
      calls := calls + [MakeMemImage(image)];
    }

    /** `dcraw_clear_mem(image)`: releases an image from `dcraw_make_mem_image`. */
    method DcrawClearMem(image: ProcessedImage)
      modifies this
      ensures params == old(params) && info == old(info)
      ensures calls == old(calls) + [ClearMem(image)]
    {
      calls := calls + [ClearMem(image)];
    }
  }

  // ---------------------------------------------------------------------
  // `open`: the stage sequence

  /** The status a stage call answered (other calls have none; read as success). */
  function StatusOf(c: Call): (r: int)
  {
    match c
    case OpenBuffer(_, _, status) => status
    case Unpack(status) => status
    case Process(status) => status
    case _ => Success
  }

  /** The stage a call belongs to. */
  function StageOf(c: Call): (r: Stage)
  {
    match c
    case Unpack(_) => UnpackStage
    case Process(_) => ProcessStage
    case _ => OpenBufferStage
  }

  /** Reference definition of the calls `open` makes for the engine answers
      `s1`, `s2`, `s3`: the stages in order, stopping after the first one that
      does not answer `LIBRAW_SUCCESS`. */
  function OpenRun(data: seq<byte>, p: Params, s1: int, s2: int, s3: int): (r: seq<Call>)
  {
    [OpenBuffer(data, p, s1)]
      + (if s1 != Success then [] else [Unpack(s2)] + (if s2 != Success then [] else [Process(s3)]))
  }

  /** Whether `run` is a possible sequence of calls of `open` on the buffer
      `data` with the parameters `p`, stated position by position. */
  predicate IsOpenRun(run: seq<Call>, data: seq<byte>, p: Params)
  {
    && 1 <= |run| <= 3
    && run[0].OpenBuffer? && run[0].data == data && run[0].params == p
    && (|run| >= 2 ==> run[1].Unpack?)
    && (|run| == 3 ==> run[2].Process?)
    && (forall i :: 0 <= i < |run| - 1 ==> StatusOf(run[i]) == Success)
    && (|run| < 3 ==> StatusOf(run[|run| - 1]) != Success)
  }

  /** Why `open` threw. */
  datatype OpenError =
    | NotInitialized
    | EngineFailure(stage: Stage, code: int)

  datatype Outcome = Opened | Failed(error: OpenError)

  /** What `open` reports after a run: the last stage's failure, or success. */
  function RunOutcome(run: seq<Call>): (r: Outcome)
    requires |run| >= 1
  {
    var last := run[|run| - 1];
    if StatusOf(last) == Success then Opened else Failed(EngineFailure(StageOf(last), StatusOf(last)))
  }

  /** The two descriptions of `open`'s calls agree: every answer triple gives
      a run, and every run is the one its own answers give. */
  lemma OpenRunCharacterised(run: seq<Call>, data: seq<byte>, p: Params, s1: int, s2: int, s3: int)
    ensures IsOpenRun(OpenRun(data, p, s1, s2, s3), data, p)
    ensures IsOpenRun(run, data, p) ==>
      run == OpenRun(data, p, StatusOf(run[0]),
                     if |run| >= 2 then StatusOf(run[1]) else s2,
                     if |run| == 3 then StatusOf(run[2]) else s3)
  {
    if IsOpenRun(run, data, p) {
      assert run[0] == OpenBuffer(data, p, StatusOf(run[0]));
      if |run| >= 2 {
        assert run[1] == Unpack(StatusOf(run[1]));
      }
      if |run| == 3 {
        assert run[2] == Process(StatusOf(run[2]));
      }
    }
  }

  /** The stages run in the order open_buffer, unpack, dcraw_process. */
  lemma StagesInOrder(run: seq<Call>, data: seq<byte>, p: Params, i: int)
    requires IsOpenRun(run, data, p) && 0 <= i < |run|
    ensures StageOf(run[i]) == [OpenBufferStage, UnpackStage, ProcessStage][i]
  {
  }

  /** A stage that fails is the last one run: no later stage is invoked, and
      `open` reports exactly that stage and code. */
  lemma FirstFailureStops(run: seq<Call>, data: seq<byte>, p: Params, i: int)
    requires IsOpenRun(run, data, p) && 0 <= i < |run|
    requires StatusOf(run[i]) != Success
    ensures i == |run| - 1
    ensures RunOutcome(run) == Failed(EngineFailure(StageOf(run[i]), StatusOf(run[i])))
  {
  }

  /** `open` succeeds exactly when all three stages ran and succeeded. */
  lemma OpenedIffAllStagesSucceed(run: seq<Call>, data: seq<byte>, p: Params)
    requires IsOpenRun(run, data, p)
    ensures RunOutcome(run) == Opened <==>
            |run| == 3 && forall i :: 0 <= i < 3 ==> StatusOf(run[i]) == Success
  {
  }

  // ---------------------------------------------------------------------
  // `imageData`: export and release

  /** `height * width * colors` computed in `size_t`. */
  function PixelCount(image: ProcessedImage): (r: nat)
  {
    (image.height as nat * image.width as nat * image.colors as nat) % SizeT
  }

  /** The first `n` samples of a buffer, or all of them when it is shorter. */
  function Window(samples: seq<int>, n: nat): (w: seq<int>)
    ensures w <= samples
    ensures |w| == if n <= |samples| then n else |samples|
  {
    samples[..if n <= |samples| then n else |samples|]
  }

  /** `typed_memory_view(pixelCount, data)`: a JavaScript typed array of
      8-bit or 16-bit elements onto the image's own buffer, not a copy. */
  datatype View = View(elementBits: nat, length: nat, image: ProcessedImage)

  /** What reading a view yields after `calls`: its first `length` samples
      while the image is held, nothing once the image has been released (its
      memory is no longer the image's). */
  function Read(v: View, calls: seq<Call>): (r: Option<seq<int>>)
  {
    if Releases(calls, v.image) == 0 then Some(Window(v.image.samples, v.length)) else None
  }

  datatype ExportError = UnsupportedBitDepth

  /** The result of `imageData`: `Exported(None)` is `undefined`. */
  datatype Export = Exported(view: Option<View>) | ExportFailed(error: ExportError)

  /** The calls `imageData` makes when the engine answers `image`: the image
      is released after it is read, whenever it is not null. */
  function ExportRun(image: Option<ProcessedImage>): (r: seq<Call>)
  {
    [MakeMemImage(image)] + (if image.Some? then [ClearMem(image.value)] else [])
  }

  /** What `imageData` returns when the engine answers `image`. */
  function ExportOf(image: Option<ProcessedImage>): (r: Export)
  {
    match image
    case None => Exported(None)
    case Some(im) =>
      if im.bits == 8 || im.bits == 16 then Exported(Some(View(im.bits as nat, PixelCount(im), im)))
      else ExportFailed(UnsupportedBitDepth)
  }

  /** How many times the image `image` is released in `calls`. */
  function Releases(calls: seq<Call>, image: ProcessedImage): (r: nat)
  {
    if calls == [] then 0
    else Releases(calls[..|calls| - 1], image) + (if calls[|calls| - 1] == ClearMem(image) then 1 else 0)
  }

  /** Release counts add up over consecutive call sequences. */
  lemma {:induction false} ReleasesAppend(a: seq<Call>, b: seq<Call>, image: ProcessedImage)
    ensures Releases(a + b, image) == Releases(a, image) + Releases(b, image)
  {
    if b != [] {
      assert (a + b)[..|a + b| - 1] == a + b[..|b| - 1];
      ReleasesAppend(a, b[..|b| - 1], image);
    } else {
      assert a + b == a;
    }
  }

  /** Asking for the image releases nothing. */
  lemma MakeReleasesNothing(image: Option<ProcessedImage>, other: ProcessedImage)
    ensures Releases([MakeMemImage(image)], other) == 0
  {
    assert [MakeMemImage(image)][..0] == [];
  }

  /** `imageData` releases a non-null image exactly once, whatever its bit
      depth, releases nothing else, and releases nothing for a null image. */
  lemma ExportReleasesOnce(image: Option<ProcessedImage>, other: ProcessedImage)
    ensures image.Some? ==> Releases(ExportRun(image), image.value) == 1
    ensures image.None? || other != image.value ==> Releases(ExportRun(image), other) == 0
  {
    var run := ExportRun(image);
    assert run == [MakeMemImage(image)] + run[1..];
    ReleasesAppend([MakeMemImage(image)], run[1..], other);
    MakeReleasesNothing(image, other);
    if image.Some? {
      assert run[1..] == [ClearMem(image.value)];
      assert [ClearMem(image.value)][..0] == [];
      ReleasesAppend([MakeMemImage(image)], run[1..], image.value);
      MakeReleasesNothing(image, image.value);
    } else {
      assert run[1..] == [];
    }
  }

  /** The export succeeds exactly for 8-bit and 16-bit images, with a view
      of the image's bit depth and of `pixelCount` elements onto the image. */
  lemma ExportFollowsBitDepth(image: ProcessedImage)
    ensures ExportOf(Some(image)).Exported? <==> image.bits == 8 || image.bits == 16
    ensures ExportOf(Some(image)).Exported? ==>
      ExportOf(Some(image)).view == Some(View(image.bits as nat, PixelCount(image), image))
  {
  }

  /** The exported view reads the image's first `pixelCount` samples only up
      to the release `imageData` itself makes: by the time it returns, the
      view is onto released memory. */
  lemma ExportedViewOutlivedByRelease(image: ProcessedImage)
    requires image.bits == 8 || image.bits == 16
    ensures ExportOf(Some(image)).Exported? && ExportOf(Some(image)).view.Some?
    ensures Read(ExportOf(Some(image)).view.value, [MakeMemImage(Some(image))])
         == Some(Window(image.samples, PixelCount(image)))
    ensures Read(ExportOf(Some(image)).view.value, ExportRun(Some(image))) == None
  {
    MakeReleasesNothing(Some(image), image);
    ExportReleasesOnce(Some(image), image);
  }

  /** The pixel count is the true product whenever that fits in `size_t`. */
  lemma PixelCountExact(image: ProcessedImage)
    requires image.height as nat * image.width as nat * image.colors as nat < SizeT
    ensures PixelCount(image) == image.height as nat * image.width as nat * image.colors as nat
  {
  }

  // ---------------------------------------------------------------------
  // `metadata`: a projection of the engine's description

  /** The object `metadata` builds. */
  datatype Meta = Meta(
    width: u16, height: u16, rawWidth: u16, rawHeight: u16, topMargin: u16, leftMargin: u16,
    cameraMake: string, cameraModel: string,
    isoSpeed: real, shutter: real, aperture: real, focalLen: real,
    timestamp: real, shotOrder: u32, desc: string, artist: string,
    thumbWidth: u16, thumbHeight: u16, thumbFormat: int)

  /** The fields of `info` as `metadata` reports them: numbers copied (the
      timestamp converted to a double), text buffers read up to their NUL. */
  function Project(info: ImageInfo): (r: Meta)
  {
    Meta(info.width, info.height, info.rawWidth, info.rawHeight, info.topMargin, info.leftMargin,
             CText(info.make), CText(info.model),
             info.isoSpeed, info.shutter, info.aperture, info.focalLen,
             info.timestamp as real, info.shotOrder, CText(info.desc), CText(info.artist),
             info.thumbWidth, info.thumbHeight, info.thumbFormat)
  }

  /** Each reported text is the engine's buffer up to its first NUL, and the
      whole buffer when it holds none. */
  lemma ProjectedTextIsBufferText(info: ImageInfo)
    ensures var r := Project(info);
      && r.cameraMake <= info.make && '\0' !in r.cameraMake
      && r.cameraModel <= info.model && '\0' !in r.cameraModel
      && r.desc <= info.desc && '\0' !in r.desc
      && r.artist <= info.artist && '\0' !in r.artist
    ensures var r := Project(info);
      && (|r.cameraMake| < |info.make| ==> info.make[|r.cameraMake|] == '\0')
      && (|r.cameraModel| < |info.model| ==> info.model[|r.cameraModel|] == '\0')
      && (|r.desc| < |info.desc| ==> info.desc[|r.desc|] == '\0')
      && (|r.artist| < |info.artist| ==> info.artist[|r.artist|] == '\0')
    ensures '\0' !in info.make ==> Project(info).cameraMake == info.make
    ensures '\0' !in info.model ==> Project(info).cameraModel == info.model
    ensures '\0' !in info.desc ==> Project(info).desc == info.desc
    ensures '\0' !in info.artist ==> Project(info).artist == info.artist
  {
    CTextIsNulFreePrefix(info.make);
    CTextIsNulFreePrefix(info.model);
    CTextIsNulFreePrefix(info.desc);
    CTextIsNulFreePrefix(info.artist);
    if '\0' !in info.make {
      CTextOfNulFree(info.make);
    }
    if '\0' !in info.model {
      CTextOfNulFree(info.model);
    }
    if '\0' !in info.desc {
      CTextOfNulFree(info.desc);
    }
    if '\0' !in info.artist {
      CTextOfNulFree(info.artist);
    }
  }

  /** Text after the first NUL of a buffer never reaches the metadata:
      appending a NUL and any tail to each of the four text buffers leaves the
      record unchanged. */
  lemma ProjectIgnoresTextAfterNul(info: ImageInfo, t1: string, t2: string, t3: string, t4: string)
    ensures Project(info.(make := info.make + ['\0'] + t1, model := info.model + ['\0'] + t2,
                          desc := info.desc + ['\0'] + t3, artist := info.artist + ['\0'] + t4))
         == Project(info)
  {
    CTextIgnoresTail(info.make, t1);
    CTextIgnoresTail(info.model, t2);
    CTextIgnoresTail(info.desc, t3);
    CTextIgnoresTail(info.artist, t4);
  }
}
