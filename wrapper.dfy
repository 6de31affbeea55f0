/** `WASMLibRaw`, the object JavaScript sees as `LibRaw`: it owns one engine,
    configures it from a settings object, runs the decoding stages, and
    exports metadata and pixels. The ghost `ledger` follows the four owned
    parameter strings through every allocation and release. */
module Wrapper {
  import opened Host
  import opened CStrings
  import opened Params
  import opened Ownership
  import opened Marshal
  import opened Engine

  /** The owned slots of the record agree with the ledger: a slot is non-null
      exactly when the ledger records it as holding a buffer. */
  predicate Tracks(p: Params, l: Ledger)
  {
    forall s: Slot :: SlotOf(p, s).Owned? <==> s in l.owner
  }

  /** The ledger after `setStringMember` on `s` when the settings carry its key. */
  function SlotLedger(l: Ledger, m: map<string, Value>, s: Slot): (r: Ledger)
  {
    if SlotKey(s) in m then SetSlot(l, s, AsString(m[SlotKey(s)]) != "") else l
  }

  /** The ledger after `applySettings`: the four string keys in source order. */
  function SettingsLedger(l: Ledger, settings: Settings): (r: Ledger)
  {
    match settings
    case Object(m) =>
      SlotLedger(SlotLedger(SlotLedger(SlotLedger(l, m, OutputProfile), m, CameraProfile), m, BadPixels), m, DarkFrame)
    case _ => l
  }

  /** `applySettings` keeps the ledger sound: no string buffer leaks or is
      freed twice, however many times settings are applied. */
  lemma SettingsLedgerSound(l: Ledger, settings: Settings)
    requires Sound(l)
    ensures Sound(SettingsLedger(l, settings))
    ensures SettingsLedger(l, settings).issued >= l.issued
    ensures l.released <= SettingsLedger(l, settings).released
  {
    if settings.Object? {
      var m := settings.fields;
      var l1 := SlotLedger(l, m, OutputProfile);
      var l2 := SlotLedger(l1, m, CameraProfile);
      var l3 := SlotLedger(l2, m, BadPixels);
      SlotLedgerSound(l, m, OutputProfile);
      SlotLedgerSound(l1, m, CameraProfile);
      SlotLedgerSound(l2, m, BadPixels);
      SlotLedgerSound(l3, m, DarkFrame);
    }
  }

  lemma SlotLedgerSound(l: Ledger, m: map<string, Value>, s: Slot)
    requires Sound(l)
    ensures Sound(SlotLedger(l, m, s))
    ensures SlotLedger(l, m, s).issued >= l.issued
    ensures l.released <= SlotLedger(l, m, s).released
  {
    if SlotKey(s) in m {
      SetSlotSound(l, s, AsString(m[SlotKey(s)]) != "");
    }
  }

  /** The record with its four owned strings set to null. */
  function Cleared(p: Params): (r: Params)
  {
    p.(outputProfile := NullPtr, cameraProfile := NullPtr, badPixels := NullPtr, darkFrame := NullPtr)
  }

  /** The array half of a presence-checked setting: when the key is present
      and its value has exactly `n` elements, the member is overwritten
      element by element with the coerced values; otherwise it is kept. */
  method ArraySettingOf<T>(m: map<string, Value>, key: string, n: nat, current: seq<T>, coerce: Value -> T)
    returns (r: seq<T>)
    requires |current| == n
    ensures r == ArraySetting(m, key, n, current, coerce)
  {
    r := current;
    if key in m {
      var arr := m[key];
      if Length(arr) == n {
        var i := 0;
        while i < n
          invariant 0 <= i <= n && |r| == n
          invariant forall k :: 0 <= k < i ==> r[k] == coerce(Element(arr, k))
        {
          r := r[i := coerce(Element(arr, i))];
          i := i + 1;
        }
        assert r == Elements(arr, n, coerce);
      }
    }
  }

  /** A presence-checked `as<float>()`/`as<double>()` assignment. */
  method RealSettingOf(m: map<string, Value>, key: string, current: real) returns (r: real)
    ensures r == RealSetting(m, key, current)
  {
    r := current;
    if key in m {
      r := AsReal(m[key]);
    }
  }

  /** A presence-checked `as<int>()` assignment. */
  method IntSettingOf(m: map<string, Value>, key: string, current: int) returns (r: int)
    ensures r == IntSetting(m, key, current)
  {
    r := current;
    if key in m {
      r := AsInt(m[key]);
    }
  }

  /** The three engine stages of `open`, each checked against
      `LIBRAW_SUCCESS`, stopping at the first failure. */
  method RunStages(p: LibRaw, buffer: seq<byte>) returns (outcome: Outcome)
    modifies p
    ensures p.params == old(p.params)
    ensures |p.calls| >= |old(p.calls)| && p.calls[..|old(p.calls)|] == old(p.calls)
    ensures IsOpenRun(p.calls[|old(p.calls)|..], buffer, p.params)
    ensures outcome == RunOutcome(p.calls[|old(p.calls)|..])
  {
    ghost var before := p.calls;
    var ret := p.OpenBuffer(buffer);
    if ret != Success {
      assert p.calls[|before|..] == [Call.OpenBuffer(buffer, p.params, ret)];
      return Failed(EngineFailure(OpenBufferStage, ret));
    }
    ghost var s1 := ret;
    ret := p.Unpack();
    if ret != Success {
      assert p.calls[|before|..] == [Call.OpenBuffer(buffer, p.params, s1), Call.Unpack(ret)];
      return Failed(EngineFailure(UnpackStage, ret));
    }
    ghost var s2 := ret;
    ret := p.DcrawProcess();
    assert p.calls[|before|..] == [Call.OpenBuffer(buffer, p.params, s1), Call.Unpack(s2), Process(ret)];
    if ret != Success {
      return Failed(EngineFailure(ProcessStage, ret));
    }
    return Opened;
  }

  class WasmLibRaw {
    /** `processor_`: the owned engine, null once destroyed. */
    var processor: LibRaw?
    /** Every string buffer this object has allocated and released. */
    ghost var ledger: Ledger

    ghost predicate Valid()
      reads this, processor
    {
      && Sound(ledger)
      && (processor == null ==> ledger.owner == map[])
      && (processor != null ==> Shaped(processor.params) && Tracks(processor.params, ledger))
    }

    /** `new LibRaw()`: an engine with its default parameters, whose owned
        strings start out null. */
    constructor (defaults: Params, blank: ImageInfo)
      requires Shaped(defaults) && Cleared(defaults) == defaults
      ensures Valid() && fresh(processor)
      ensures processor.params == defaults && processor.info == blank && processor.calls == []
      ensures ledger == Empty
    {
      processor := new LibRaw(defaults, blank);
      ledger := Empty;
      new;
      EmptyIsSound();
      assert Tracks(defaults, Empty) by {
        forall s: Slot ensures SlotOf(defaults, s).Owned? <==> s in Empty.owner {
          assert SlotOf(Cleared(defaults), s) == NullPtr;
        }
      }
    }

    /** `~WASMLibRaw()`: releases the owned strings and the engine. Afterwards
        nothing is held and every buffer ever allocated has been freed exactly once. */
    method Destroy()
      requires Valid()
      modifies this, processor
      ensures processor == null && Valid()
      ensures ledger == if old(processor) != null then Cleanup(old(ledger)) else old(ledger)
      ensures forall id: nat :: Frees(ledger, id) == if id < ledger.issued then 1 else 0
    {
      if processor != null {
        CleanupParamsStrings();
        processor := null;
      }
      forall id: nat ensures Frees(ledger, id) == if id < ledger.issued then 1 else 0 {
        NothingHeldAllFreedOnce(ledger, id);
      }
    }

    /** The shared `if (p) { delete[] p; p = nullptr; }` step on one slot. */
    method ReleaseSlot(s: Slot)
      requires processor != null && Valid()
      modifies this, processor
      ensures processor == old(processor) && Valid()
      ensures processor.params == WithSlot(old(processor.params), s, NullPtr)
      ensures ledger == Release(old(ledger), s)
      ensures processor.info == old(processor.info) && processor.calls == old(processor.calls)
    {
      var p := processor;
      ReleaseSound(ledger, s);
      if SlotOf(p.params, s).Owned? {
        ledger := Release(ledger, s);
        p.params := WithSlot(p.params, s, NullPtr);
      }
      assert Tracks(p.params, ledger) by {
        forall t: Slot ensures SlotOf(p.params, t).Owned? <==> t in ledger.owner {
          SlotOfWithSlot(old(p.params), s, NullPtr, t);
        }
      }
    }

    /** `setStringMember(dest, value)`: the slot's old buffer is freed, and a
        fresh copy of the value is allocated unless the value is empty. */
    method SetStringMember(s: Slot, value: string)
      requires processor != null && Valid()
      modifies this, processor
      ensures processor == old(processor) && Valid()
      ensures processor.params == WithSlot(old(processor.params), s, Stored(value))
      ensures ledger == SetSlot(old(ledger), s, value != "")
      ensures processor.info == old(processor.info) && processor.calls == old(processor.calls)
    {
      ReleaseSlot(s);
      if value != "" {
        var p := processor;
        ghost var before := p.params;
        AllocateSound(ledger, s);
        ledger := Allocate(ledger, s);
        p.params := WithSlot(p.params, s, Owned(CText(value)));
        assert Tracks(p.params, ledger) by {
          forall t: Slot ensures SlotOf(p.params, t).Owned? <==> t in ledger.owner {
            SlotOfWithSlot(before, s, Owned(CText(value)), t);
          }
        }
        WithSlotTwice(old(p.params), s, NullPtr, Owned(CText(value)));
      } else {
        WithSlotTwice(old(processor.params), s, NullPtr, NullPtr);
      }
    }

    /** `cleanupParamsStrings()`: the four owned strings, in order. */
    method CleanupParamsStrings()
      requires processor != null && Valid()
      modifies this, processor
      ensures processor == old(processor) && Valid()
      ensures processor.params == Cleared(old(processor.params))
      ensures ledger == Cleanup(old(ledger))
      ensures processor.info == old(processor.info) && processor.calls == old(processor.calls)
    {
      ReleaseSlot(OutputProfile);
      ReleaseSlot(CameraProfile);
      ReleaseSlot(BadPixels);
      ReleaseSlot(DarkFrame);
    }

    /** The "-- ARRAYS --" block of `applySettings`. */
    method ApplyArrays(m: map<string, Value>)
      requires processor != null && Shaped(processor.params)
      modifies processor
      ensures processor.params == AppliedArrays(old(processor.params), m)
      ensures processor.info == old(processor.info) && processor.calls == old(processor.calls)
    {
      var p := processor;
      var greybox := ArraySettingOf(m, "greybox", 4, p.params.greybox, AsUnsigned);
      p.params := p.params.(greybox := greybox);
      var cropbox := ArraySettingOf(m, "cropbox", 4, p.params.cropbox, AsUnsigned);
      p.params := p.params.(cropbox := cropbox);
      var aber := ArraySettingOf(m, "aber", 4, p.params.aber, AsReal);
      p.params := p.params.(aber := aber);
      var gamm := ArraySettingOf(m, "gamm", 6, p.params.gamm, AsReal);
      p.params := p.params.(gamm := gamm);
      var userMul := ArraySettingOf(m, "user_mul", 4, p.params.userMul, AsReal);
      p.params := p.params.(userMul := userMul);
    }

    /** The "-- FLOATS --" block of `applySettings`. */
    method ApplyFloats(m: map<string, Value>)
      requires processor != null
      modifies processor
      ensures processor.params == AppliedFloats(old(processor.params), m)
      ensures processor.info == old(processor.info) && processor.calls == old(processor.calls)
    {
      var p := processor;
      var x := RealSettingOf(m, "bright", p.params.bright);
      p.params := p.params.(bright := x);
      x := RealSettingOf(m, "threshold", p.params.threshold);
      p.params := p.params.(threshold := x);
      x := RealSettingOf(m, "auto_bright_thr", p.params.autoBrightThr);
      p.params := p.params.(autoBrightThr := x);
      x := RealSettingOf(m, "adjust_maximum_thr", p.params.adjustMaximumThr);
      p.params := p.params.(adjustMaximumThr := x);
      x := RealSettingOf(m, "exp_shift", p.params.expShift);
      p.params := p.params.(expShift := x);
      x := RealSettingOf(m, "exp_preser", p.params.expPreser);
      p.params := p.params.(expPreser := x);
    }

    /** The "-- INTEGERS --" block of `applySettings`, `user_cblack` included. */
    method ApplyInts(m: map<string, Value>)
      requires processor != null && Shaped(processor.params)
      modifies processor
      ensures processor.params == AppliedInts(old(processor.params), m)
      ensures processor.info == old(processor.info) && processor.calls == old(processor.calls)
    {
      var q := processor.params;
      var n := IntSettingOf(m, "half_size", q.halfSize);
      q := q.(halfSize := n);
      n := IntSettingOf(m, "four_color_rgb", q.fourColorRgb);
      q := q.(fourColorRgb := n);
      n := IntSettingOf(m, "highlight", q.highlight);
      q := q.(highlight := n);
      n := IntSettingOf(m, "use_auto_wb", q.useAutoWb);
      q := q.(useAutoWb := n);
      n := IntSettingOf(m, "use_camera_wb", q.useCameraWb);
      q := q.(useCameraWb := n);
      n := IntSettingOf(m, "use_camera_matrix", q.useCameraMatrix);
      q := q.(useCameraMatrix := n);
      n := IntSettingOf(m, "output_color", q.outputColor);
      q := q.(outputColor := n);
      n := IntSettingOf(m, "output_bps", q.outputBps);
      q := q.(outputBps := n);
      n := IntSettingOf(m, "output_tiff", q.outputTiff);
      q := q.(outputTiff := n);
      n := IntSettingOf(m, "output_flags", q.outputFlags);
      q := q.(outputFlags := n);
      n := IntSettingOf(m, "user_flip", q.userFlip);
      q := q.(userFlip := n);
      n := IntSettingOf(m, "user_qual", q.userQual);
      q := q.(userQual := n);
      n := IntSettingOf(m, "user_black", q.userBlack);
      q := q.(userBlack := n);
      var cblack := ArraySettingOf(m, "user_cblack", 4, q.userCblack, AsInt);
      q := q.(userCblack := cblack);
      n := IntSettingOf(m, "user_sat", q.userSat);
      q := q.(userSat := n);
      n := IntSettingOf(m, "med_passes", q.medPasses);
      q := q.(medPasses := n);
      n := IntSettingOf(m, "no_auto_bright", q.noAutoBright);
      q := q.(noAutoBright := n);
      n := IntSettingOf(m, "use_fuji_rotate", q.useFujiRotate);
      q := q.(useFujiRotate := n);
      n := IntSettingOf(m, "green_matching", q.greenMatching);
      q := q.(greenMatching := n);
      n := IntSettingOf(m, "dcb_iterations", q.dcbIterations);
      q := q.(dcbIterations := n);
      n := IntSettingOf(m, "dcb_enhance_fl", q.dcbEnhanceFl);
      q := q.(dcbEnhanceFl := n);
      n := IntSettingOf(m, "fbdd_noiserd", q.fbddNoiserd);
      q := q.(fbddNoiserd := n);
      n := IntSettingOf(m, "exp_correc", q.expCorrec);
      q := q.(expCorrec := n);
      n := IntSettingOf(m, "no_auto_scale", q.noAutoScale);
      q := q.(noAutoScale := n);
      n := IntSettingOf(m, "no_interpolation", q.noInterpolation);
      q := q.(noInterpolation := n);
      processor.params := q;
    }

    /** One presence-checked `setStringMember` call of the "-- STRINGS --" block. */
    method ApplyString(m: map<string, Value>, s: Slot)
      requires processor != null && Valid()
      modifies this, processor
      ensures processor == old(processor) && Valid()
      ensures processor.params == WithSlot(old(processor.params), s, SlotSetting(m, SlotKey(s), SlotOf(old(processor.params), s)))
      ensures ledger == SlotLedger(old(ledger), m, s)
      ensures processor.info == old(processor.info) && processor.calls == old(processor.calls)
    {
      if SlotKey(s) in m {
        SetStringMember(s, AsString(m[SlotKey(s)]));
      } else {
        WithSlotSame(processor.params, s);
      }
    }

    /** The "-- STRINGS --" block of `applySettings`. */
    method ApplyStrings(m: map<string, Value>)
      requires processor != null && Valid()
      modifies this, processor
      ensures processor == old(processor) && Valid()
      ensures processor.params == AppliedStrings(old(processor.params), m)
      ensures ledger == SettingsLedger(old(ledger), Object(m))
      ensures processor.info == old(processor.info) && processor.calls == old(processor.calls)
    {
      ApplyString(m, OutputProfile);
      ApplyString(m, CameraProfile);
      ApplyString(m, BadPixels);
      ApplyString(m, DarkFrame);
    }

    /** `applySettings(settings)`: null and undefined change nothing; an
        object writes every recognised key it carries, block by block. */
    method ApplySettings(settings: Settings)
      requires processor != null && Valid()
      modifies this, processor
      ensures processor == old(processor) && Valid()
      ensures processor.params == Configured(old(processor.params), settings)
      ensures ledger == SettingsLedger(old(ledger), settings)
      ensures processor.info == old(processor.info) && processor.calls == old(processor.calls)
    {
      if !settings.Object? {
        return;
      }
      var m := settings.fields;
      ghost var p0 := processor.params;
      ApplyArrays(m);
      ApplyFloats(m);
      assert Shaped(processor.params);
      ApplyInts(m);
      assert Tracks(processor.params, ledger) by {
        forall s: Slot ensures SlotOf(processor.params, s) == SlotOf(p0, s) {
        }
      }
      ApplyStrings(m);
    }

    /** `open(buffer, settings)`: marshals the buffer, applies the settings,
        then runs open_buffer, unpack and dcraw_process on the configured
        engine, stopping at the first stage that fails. */
    method Open(js: Value, settings: Settings) returns (outcome: Outcome)
      requires Valid()
      modifies this, processor
      ensures processor == old(processor) && Valid()
      ensures processor == null ==> outcome == Failed(NotInitialized) && ledger == old(ledger)
      ensures processor != null ==>
        && processor.params == Configured(old(processor.params), settings)
        && ledger == SettingsLedger(old(ledger), settings)
        && |processor.calls| >= |old(processor.calls)|
        && processor.calls[..|old(processor.calls)|] == old(processor.calls)
        && IsOpenRun(processor.calls[|old(processor.calls)|..], Marshalled(js), processor.params)
        && outcome == RunOutcome(processor.calls[|old(processor.calls)|..])
    {
      if processor == null {
        return Failed(NotInitialized);
      }
      var buffer := ToNativeVector(js);
      ApplySettings(settings);
      outcome := RunStages(processor, buffer);
    }

    /** `metadata()`: `undefined` without an engine, else the engine's
        description projected field by field. */
    function Metadata(): (r: Option<Meta>)
      reads this, processor
      ensures r.Some? <==> processor != null
      ensures r.Some? ==> r.value.cameraMake <= processor.info.make && '\0' !in r.value.cameraMake
      ensures r.Some? ==> r.value.cameraModel <= processor.info.model && '\0' !in r.value.cameraModel
      ensures r.Some? ==> r.value.width == processor.info.width && r.value.height == processor.info.height
      ensures r.Some? ==> r.value == Project(processor.info)
    {
      if processor == null then None
      else
        ProjectedTextIsBufferText(processor.info);
        Some(Project(processor.info))
    }

    /** `imageData()`: asks the engine for the processed image, hands back a
        view of `pixelCount` elements onto it for an 8-bit or 16-bit image,
        refuses any other depth, and releases a non-null image exactly once. */
    method ImageData() returns (r: Export)
      requires Valid()
      modifies processor
      ensures Valid()
      ensures processor == null ==> r == Exported(None)
      ensures processor != null ==>
        && processor.params == old(processor.params) && processor.info == old(processor.info)
        && |processor.calls| > |old(processor.calls)|
        && processor.calls[..|old(processor.calls)|] == old(processor.calls)
        && var made := processor.calls[|old(processor.calls)|];
           && made.MakeMemImage?
           && processor.calls[|old(processor.calls)|..] == ExportRun(made.image)
           && r == ExportOf(made.image)
    {
      if processor == null {
        return Exported(None);
      }
      var p := processor;
      ghost var before := p.calls;
      var out := p.DcrawMakeMemImage();
      if out.None? {
        assert p.calls[|before|..] == ExportRun(out);
        return Exported(None);
      }
      var image := out.value;
      var pixelCount := (image.height as nat * image.width as nat * image.colors as nat) % SizeT;
      var result: View;
      if image.bits == 8 {
        result := View(8, pixelCount, image);
      } else if image.bits == 16 {
        result := View(16, pixelCount, image);
      } else {
        p.DcrawClearMem(image);
        assert p.calls[|before|..] == ExportRun(out);
        return ExportFailed(UnsupportedBitDepth);
      }
      p.DcrawClearMem(image);
      assert p.calls[|before|..] == ExportRun(out);
      return Exported(Some(result));
    }
  }

  /** Reading a slot after writing one: the written slot holds the new value,
      every other slot is unchanged. */
  lemma SlotOfWithSlot(p: Params, s: Slot, c: CString, t: Slot)
    ensures SlotOf(WithSlot(p, s, c), t) == if t == s then c else SlotOf(p, t)
  {
  }

  /** Writing a slot twice keeps only the second write. */
  lemma WithSlotTwice(p: Params, s: Slot, a: CString, b: CString)
    ensures WithSlot(WithSlot(p, s, a), s, b) == WithSlot(p, s, b)
  {
  }

  /** Writing a slot's own value back changes nothing. */
  lemma WithSlotSame(p: Params, s: Slot)
    ensures WithSlot(p, s, SlotOf(p, s)) == p
  {
  }
}
