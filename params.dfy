/** The engine's output-parameter record (`libraw_output_params_t`) as a value,
    the settings keys the wrapper recognises, and what applying a settings
    object does to the record. */
module Params {
  import opened Host
  import opened CStrings

  /** Every field the wrapper writes, one per recognised settings key. */
  datatype Field =
    // fixed-length arrays
    | Greybox | Cropbox | Aber | Gamm | UserMul | UserCblack
    // floats
    | Bright | Threshold | AutoBrightThr | AdjustMaximumThr | ExpShift | ExpPreser
    // integers
    | HalfSize | FourColorRgb | Highlight | UseAutoWb | UseCameraWb | UseCameraMatrix
    | OutputColor | OutputBps | OutputTiff | OutputFlags | UserFlip | UserQual
    | UserBlack | UserSat | MedPasses | NoAutoBright | UseFujiRotate | GreenMatching
    | DcbIterations | DcbEnhanceFl | FbddNoiserd | ExpCorrec | NoAutoScale | NoInterpolation
    // owned strings
    | Text(slot: Slot)

  datatype Params = Params(
    greybox: seq<u32>, cropbox: seq<u32>, aber: seq<real>, gamm: seq<real>,
    userMul: seq<real>, userCblack: seq<int>,
    bright: real, threshold: real, autoBrightThr: real, adjustMaximumThr: real,
    expShift: real, expPreser: real,
    halfSize: int, fourColorRgb: int, highlight: int, useAutoWb: int, useCameraWb: int,
    useCameraMatrix: int, outputColor: int, outputBps: int, outputTiff: int, outputFlags: int,
    userFlip: int, userQual: int, userBlack: int, userSat: int, medPasses: int,
    noAutoBright: int, useFujiRotate: int, greenMatching: int, dcbIterations: int,
    dcbEnhanceFl: int, fbddNoiserd: int, expCorrec: int, noAutoScale: int, noInterpolation: int,
    outputProfile: CString, cameraProfile: CString, badPixels: CString, darkFrame: CString)

  /** The value held by one field of the record. */
  datatype FieldValue =
    | UInts(u: seq<u32>)
    | Reals(r: seq<real>)
    | Ints(n: seq<int>)
    | Real(x: real)
    | Integer(i: int)
    | Pointer(c: CString)

  function SlotKey(s: Slot): (r: string)
  {
    match s
    case OutputProfile => "output_profile"
    case CameraProfile => "camera_profile"
    case BadPixels => "bad_pixels"
    case DarkFrame => "dark_frame"
  }

  /** The settings key that writes a field. */
  function Key(f: Field): (r: string)
  {
    match f
    case Greybox => "greybox"
    case Cropbox => "cropbox"
    case Aber => "aber"
    case Gamm => "gamm"
    case UserMul => "user_mul"
    case UserCblack => "user_cblack"
    case Bright => "bright"
    case Threshold => "threshold"
    case AutoBrightThr => "auto_bright_thr"
    case AdjustMaximumThr => "adjust_maximum_thr"
    case ExpShift => "exp_shift"
    case ExpPreser => "exp_preser"
    case HalfSize => "half_size"
    case FourColorRgb => "four_color_rgb"
    case Highlight => "highlight"
    case UseAutoWb => "use_auto_wb"
    case UseCameraWb => "use_camera_wb"
    case UseCameraMatrix => "use_camera_matrix"
    case OutputColor => "output_color"
    case OutputBps => "output_bps"
    case OutputTiff => "output_tiff"
    case OutputFlags => "output_flags"
    case UserFlip => "user_flip"
    case UserQual => "user_qual"
    case UserBlack => "user_black"
    case UserSat => "user_sat"
    case MedPasses => "med_passes"
    case NoAutoBright => "no_auto_bright"
    case UseFujiRotate => "use_fuji_rotate"
    case GreenMatching => "green_matching"
    case DcbIterations => "dcb_iterations"
    case DcbEnhanceFl => "dcb_enhance_fl"
    case FbddNoiserd => "fbdd_noiserd"
    case ExpCorrec => "exp_correc"
    case NoAutoScale => "no_auto_scale"
    case NoInterpolation => "no_interpolation"
    case Text(s) => SlotKey(s)
  }

  /** The field a key writes, if the wrapper recognises the key (looked up
      by length first, then by the whole key). */
  function FieldOf(k: string): (r: Option<Field>)
  {
    if |k| == 4 then
      if k == "aber" then Some(Aber)
      else if k == "gamm" then Some(Gamm)
      else None
    else if |k| == 6 then
      if k == "bright" then Some(Bright)
      else None
    else if |k| == 7 then
      if k == "greybox" then Some(Greybox)
      else if k == "cropbox" then Some(Cropbox)
      else None
    else if |k| == 8 then
      if k == "user_mul" then Some(UserMul)
      else if k == "user_sat" then Some(UserSat)
      else None
    else if |k| == 9 then
      if k == "threshold" then Some(Threshold)
      else if k == "exp_shift" then Some(ExpShift)
      else if k == "half_size" then Some(HalfSize)
      else if k == "highlight" then Some(Highlight)
      else if k == "user_flip" then Some(UserFlip)
      else if k == "user_qual" then Some(UserQual)
      else None
    else if |k| == 10 then
      if k == "exp_preser" then Some(ExpPreser)
      else if k == "output_bps" then Some(OutputBps)
      else if k == "user_black" then Some(UserBlack)
      else if k == "med_passes" then Some(MedPasses)
      else if k == "exp_correc" then Some(ExpCorrec)
      else if k == "bad_pixels" then Some(Text(BadPixels))
      else if k == "dark_frame" then Some(Text(DarkFrame))
      else None
    else if |k| == 11 then
      if k == "user_cblack" then Some(UserCblack)
      else if k == "use_auto_wb" then Some(UseAutoWb)
      else if k == "output_tiff" then Some(OutputTiff)
      else None
    else if |k| == 12 then
      if k == "output_color" then Some(OutputColor)
      else if k == "output_flags" then Some(OutputFlags)
      else if k == "fbdd_noiserd" then Some(FbddNoiserd)
      else None
    else if |k| == 13 then
      if k == "use_camera_wb" then Some(UseCameraWb)
      else if k == "no_auto_scale" then Some(NoAutoScale)
      else None
    else if |k| == 14 then
      if k == "four_color_rgb" then Some(FourColorRgb)
      else if k == "no_auto_bright" then Some(NoAutoBright)
      else if k == "green_matching" then Some(GreenMatching)
      else if k == "dcb_iterations" then Some(DcbIterations)
      else if k == "dcb_enhance_fl" then Some(DcbEnhanceFl)
      else if k == "output_profile" then Some(Text(OutputProfile))
      else if k == "camera_profile" then Some(Text(CameraProfile))
      else None
    else if |k| == 15 then
      if k == "auto_bright_thr" then Some(AutoBrightThr)
      else if k == "use_fuji_rotate" then Some(UseFujiRotate)
      else None
    else if |k| == 16 then
      if k == "no_interpolation" then Some(NoInterpolation)
      else None
    else if |k| == 17 then
      if k == "use_camera_matrix" then Some(UseCameraMatrix)
      else None
    else if |k| == 18 then
      if k == "adjust_maximum_thr" then Some(AdjustMaximumThr)
      else None
    else None
  }

  /** Every field has its own key: the key names the field back. */
  lemma KeyNamesField(f: Field)
    ensures FieldOf(Key(f)) == Some(f)
  {
    match f
    case Greybox | Cropbox | Aber | Gamm | UserMul => KeyNamesFieldIn0(f);
    case UserCblack | Bright | Threshold | AutoBrightThr | AdjustMaximumThr => KeyNamesFieldIn1(f);
    case ExpShift | ExpPreser | HalfSize | FourColorRgb | Highlight => KeyNamesFieldIn2(f);
    case UseAutoWb | UseCameraWb | UseCameraMatrix | OutputColor | OutputBps => KeyNamesFieldIn3(f);
    case OutputTiff | OutputFlags | UserFlip | UserQual | UserBlack => KeyNamesFieldIn4(f);
    case UserSat | MedPasses | NoAutoBright | UseFujiRotate | GreenMatching => KeyNamesFieldIn5(f);
    case DcbIterations | DcbEnhanceFl | FbddNoiserd | ExpCorrec | NoAutoScale => KeyNamesFieldIn6(f);
    case NoInterpolation => KeyNamesFieldIn7(f);
    case Text(OutputProfile) | Text(CameraProfile) => KeyNamesFieldIn8(f);
    case Text(BadPixels) | Text(DarkFrame) => KeyNamesFieldIn9(f);
  }

  // The key lemma is split into groups of a few fields each only to keep every
  // proof small: one proof over all forty keys is too costly for the solver.

  lemma KeyNamesFieldIn0(f: Field)
    requires f in {Greybox, Cropbox, Aber, Gamm, UserMul}
    ensures FieldOf(Key(f)) == Some(f)
  {
  }

  lemma KeyNamesFieldIn1(f: Field)
    requires f in {UserCblack, Bright, Threshold, AutoBrightThr, AdjustMaximumThr}
    ensures FieldOf(Key(f)) == Some(f)
  {
  }

  lemma KeyNamesFieldIn2(f: Field)
    requires f in {ExpShift, ExpPreser, HalfSize, FourColorRgb, Highlight}
    ensures FieldOf(Key(f)) == Some(f)
  {
  }

  lemma KeyNamesFieldIn3(f: Field)
    requires f in {UseAutoWb, UseCameraWb, UseCameraMatrix, OutputColor, OutputBps}
    ensures FieldOf(Key(f)) == Some(f)
  {
  }

  lemma KeyNamesFieldIn4(f: Field)
    requires f in {OutputTiff, OutputFlags, UserFlip, UserQual, UserBlack}
    ensures FieldOf(Key(f)) == Some(f)
  {
  }

  lemma KeyNamesFieldIn5(f: Field)
    requires f in {UserSat, MedPasses, NoAutoBright, UseFujiRotate, GreenMatching}
    ensures FieldOf(Key(f)) == Some(f)
  {
  }

  lemma KeyNamesFieldIn6(f: Field)
    requires f in {DcbIterations, DcbEnhanceFl, FbddNoiserd, ExpCorrec, NoAutoScale}
    ensures FieldOf(Key(f)) == Some(f)
  {
  }

  lemma KeyNamesFieldIn7(f: Field)
    requires f == NoInterpolation
    ensures FieldOf(Key(f)) == Some(f)
  {
  }

  lemma KeyNamesFieldIn8(f: Field)
    requires f == Text(OutputProfile) || f == Text(CameraProfile)
    ensures FieldOf(Key(f)) == Some(f)
  {
  }

  lemma KeyNamesFieldIn9(f: Field)
    requires f == Text(BadPixels) || f == Text(DarkFrame)
    ensures FieldOf(Key(f)) == Some(f)
  {
  }

  /** Distinct fields have distinct keys. */
  lemma KeysDistinct(f: Field, g: Field)
    requires f != g
    ensures Key(f) != Key(g)
  {
    KeyNamesField(f);
    KeyNamesField(g);
  }

  predicate IsArray(f: Field)
  {
    f in {Greybox, Cropbox, Aber, Gamm, UserMul, UserCblack}
  }

  /** The declared length of an array field. */
  function ArraySize(f: Field): (r: nat)
  {
    if f == Gamm then 6 else 4
  }

  /** Every array member has its declared size, as in the C record. */
  predicate Shaped(p: Params)
  {
    && |p.greybox| == 4 && |p.cropbox| == 4 && |p.aber| == 4
    && |p.gamm| == 6 && |p.userMul| == 4 && |p.userCblack| == 4
  }

  /** Whether a present value is written: scalars always, arrays only when
      their length is exactly the declared one. */
  predicate Accepts(f: Field, v: Value)
  {
    !IsArray(f) || Length(v) == ArraySize(f)
  }

  /** The value a present, accepted setting gives its field. */
  function Coerce(f: Field, v: Value): (r: FieldValue)
  {
    match f
    case Greybox => UInts(Elements(v, 4, AsUnsigned))
    case Cropbox => UInts(Elements(v, 4, AsUnsigned))
    case Aber => Reals(Elements(v, 4, AsReal))
    case Gamm => Reals(Elements(v, 6, AsReal))
    case UserMul => Reals(Elements(v, 4, AsReal))
    case UserCblack => Ints(Elements(v, 4, AsInt))
    case Bright => Real(AsReal(v))
    case Threshold => Real(AsReal(v))
    case AutoBrightThr => Real(AsReal(v))
    case AdjustMaximumThr => Real(AsReal(v))
    case ExpShift => Real(AsReal(v))
    case ExpPreser => Real(AsReal(v))
    case Text(_) => Pointer(Stored(AsString(v)))
    case _ => Integer(AsInt(v))
  }

  function SlotOf(p: Params, s: Slot): (r: CString)
  {
    match s
    case OutputProfile => p.outputProfile
    case CameraProfile => p.cameraProfile
    case BadPixels => p.badPixels
    case DarkFrame => p.darkFrame
  }

  function WithSlot(p: Params, s: Slot, c: CString): (r: Params)
  {
    match s
    case OutputProfile => p.(outputProfile := c)
    case CameraProfile => p.(cameraProfile := c)
    case BadPixels => p.(badPixels := c)
    case DarkFrame => p.(darkFrame := c)
  }

  /** The current value of a field. */
  function Get(p: Params, f: Field): (r: FieldValue)
  {
    match f
    case Greybox => UInts(p.greybox)
    case Cropbox => UInts(p.cropbox)
    case Aber => Reals(p.aber)
    case Gamm => Reals(p.gamm)
    case UserMul => Reals(p.userMul)
    case UserCblack => Ints(p.userCblack)
    case Bright => Real(p.bright)
    case Threshold => Real(p.threshold)
    case AutoBrightThr => Real(p.autoBrightThr)
    case AdjustMaximumThr => Real(p.adjustMaximumThr)
    case ExpShift => Real(p.expShift)
    case ExpPreser => Real(p.expPreser)
    case HalfSize => Integer(p.halfSize)
    case FourColorRgb => Integer(p.fourColorRgb)
    case Highlight => Integer(p.highlight)
    case UseAutoWb => Integer(p.useAutoWb)
    case UseCameraWb => Integer(p.useCameraWb)
    case UseCameraMatrix => Integer(p.useCameraMatrix)
    case OutputColor => Integer(p.outputColor)
    case OutputBps => Integer(p.outputBps)
    case OutputTiff => Integer(p.outputTiff)
    case OutputFlags => Integer(p.outputFlags)
    case UserFlip => Integer(p.userFlip)
    case UserQual => Integer(p.userQual)
    case UserBlack => Integer(p.userBlack)
    case UserSat => Integer(p.userSat)
    case MedPasses => Integer(p.medPasses)
    case NoAutoBright => Integer(p.noAutoBright)
    case UseFujiRotate => Integer(p.useFujiRotate)
    case GreenMatching => Integer(p.greenMatching)
    case DcbIterations => Integer(p.dcbIterations)
    case DcbEnhanceFl => Integer(p.dcbEnhanceFl)
    case FbddNoiserd => Integer(p.fbddNoiserd)
    case ExpCorrec => Integer(p.expCorrec)
    case NoAutoScale => Integer(p.noAutoScale)
    case NoInterpolation => Integer(p.noInterpolation)
    case Text(s) => Pointer(SlotOf(p, s))
  }

  // One presence-checked assignment per shape of field.

  /** An array member after its setting: written in full with the coerced
      elements when the key is present with exactly `n` elements, else kept. */
  function ArraySetting<T>(m: map<string, Value>, key: string, n: nat, current: seq<T>, coerce: Value -> T): (r: seq<T>)
  {
    if key in m && Length(m[key]) == n then Elements(m[key], n, coerce) else current
  }

  function RealSetting(m: map<string, Value>, key: string, current: real): (r: real)
  {
    if key in m then AsReal(m[key]) else current
  }

  function IntSetting(m: map<string, Value>, key: string, current: int): (r: int)
  {
    if key in m then AsInt(m[key]) else current
  }

  function SlotSetting(m: map<string, Value>, key: string, current: CString): (r: CString)
  {
    if key in m then Stored(AsString(m[key])) else current
  }

  /** The "-- ARRAYS --" block of `applySettings`. */
  function AppliedArrays(p: Params, m: map<string, Value>): (r: Params)
  {
    p.(greybox := ArraySetting(m, "greybox", 4, p.greybox, AsUnsigned),
       cropbox := ArraySetting(m, "cropbox", 4, p.cropbox, AsUnsigned),
       aber := ArraySetting(m, "aber", 4, p.aber, AsReal),
       gamm := ArraySetting(m, "gamm", 6, p.gamm, AsReal),
       userMul := ArraySetting(m, "user_mul", 4, p.userMul, AsReal))
  }

  /** The "-- FLOATS --" block of `applySettings`. */
  function AppliedFloats(p: Params, m: map<string, Value>): (r: Params)
  {
    p.(bright := RealSetting(m, "bright", p.bright),
       threshold := RealSetting(m, "threshold", p.threshold),
       autoBrightThr := RealSetting(m, "auto_bright_thr", p.autoBrightThr),
       adjustMaximumThr := RealSetting(m, "adjust_maximum_thr", p.adjustMaximumThr),
       expShift := RealSetting(m, "exp_shift", p.expShift),
       expPreser := RealSetting(m, "exp_preser", p.expPreser))
  }

  /** The "-- INTEGERS --" block of `applySettings`, `user_cblack` included. */
  function AppliedInts(p: Params, m: map<string, Value>): (r: Params)
  {
    p.(halfSize := IntSetting(m, "half_size", p.halfSize),
       fourColorRgb := IntSetting(m, "four_color_rgb", p.fourColorRgb),
       highlight := IntSetting(m, "highlight", p.highlight),
       useAutoWb := IntSetting(m, "use_auto_wb", p.useAutoWb),
       useCameraWb := IntSetting(m, "use_camera_wb", p.useCameraWb),
       useCameraMatrix := IntSetting(m, "use_camera_matrix", p.useCameraMatrix),
       outputColor := IntSetting(m, "output_color", p.outputColor),
       outputBps := IntSetting(m, "output_bps", p.outputBps),
       outputTiff := IntSetting(m, "output_tiff", p.outputTiff),
       outputFlags := IntSetting(m, "output_flags", p.outputFlags),
       userFlip := IntSetting(m, "user_flip", p.userFlip),
       userQual := IntSetting(m, "user_qual", p.userQual),
       userBlack := IntSetting(m, "user_black", p.userBlack),
       userCblack := ArraySetting(m, "user_cblack", 4, p.userCblack, AsInt),
       userSat := IntSetting(m, "user_sat", p.userSat),
       medPasses := IntSetting(m, "med_passes", p.medPasses),
       noAutoBright := IntSetting(m, "no_auto_bright", p.noAutoBright),
       useFujiRotate := IntSetting(m, "use_fuji_rotate", p.useFujiRotate),
       greenMatching := IntSetting(m, "green_matching", p.greenMatching),
       dcbIterations := IntSetting(m, "dcb_iterations", p.dcbIterations),
       dcbEnhanceFl := IntSetting(m, "dcb_enhance_fl", p.dcbEnhanceFl),
       fbddNoiserd := IntSetting(m, "fbdd_noiserd", p.fbddNoiserd),
       expCorrec := IntSetting(m, "exp_correc", p.expCorrec),
       noAutoScale := IntSetting(m, "no_auto_scale", p.noAutoScale),
       noInterpolation := IntSetting(m, "no_interpolation", p.noInterpolation))
  }

  /** The "-- STRINGS --" block of `applySettings`. */
  function AppliedStrings(p: Params, m: map<string, Value>): (r: Params)
  {
    p.(outputProfile := SlotSetting(m, "output_profile", p.outputProfile),
       cameraProfile := SlotSetting(m, "camera_profile", p.cameraProfile),
       badPixels := SlotSetting(m, "bad_pixels", p.badPixels),
       darkFrame := SlotSetting(m, "dark_frame", p.darkFrame))
  }

  /** `applySettings` on a settings object with own properties `m`. */
  function Applied(p: Params, m: map<string, Value>): (r: Params)
  {
    AppliedStrings(AppliedInts(AppliedFloats(AppliedArrays(p, m), m), m), m)
  }

  /** `applySettings` on any settings argument: null and undefined change nothing. */
  function Configured(p: Params, settings: Settings): (r: Params)
    ensures !settings.Object? ==> r == p
  {
    match settings
    case Object(m) => Applied(p, m)
    case _ => p
  }

  /** Each field after `applySettings` depends only on its own key: it takes
      the coerced value when the key is present and accepted, and keeps its
      prior value otherwise. */
  lemma AppliedFieldwise(p: Params, m: map<string, Value>, f: Field)
    ensures Get(Applied(p, m), f) == Updated(p, m, f)
  {
    var q0 := AppliedArrays(p, m);
    var q1 := AppliedFloats(q0, m);
    var q2 := AppliedInts(q1, m);
    ArraysBlockFieldwise(p, m, f);
    FloatsBlockFieldwise(q0, m, f);
    IntsBlockFieldwise(q1, m, f);
    StringsBlockFieldwise(q2, m, f);
  }

  /** The value a field has after a settings object with own properties `m`
      is applied to `p`. */
  function Updated(p: Params, m: map<string, Value>, f: Field): (r: FieldValue)
  {
    if Key(f) in m && Accepts(f, m[Key(f)]) then Coerce(f, m[Key(f)]) else Get(p, f)
  }

  /** The four blocks of `applySettings`, in source order. */
  datatype Block = ArraysBlock | FloatsBlock | IntsBlock | StringsBlock

  /** The block that writes a field (`user_cblack` sits among the integers). */
  function BlockOf(f: Field): (r: Block)
  {
    match f
    case Greybox | Cropbox | Aber | Gamm | UserMul => ArraysBlock
    case Bright | Threshold | AutoBrightThr | AdjustMaximumThr | ExpShift | ExpPreser => FloatsBlock
    case Text(_) => StringsBlock
    case _ => IntsBlock
  }

  // Each block of `applySettings` writes its own fields and no others.

  lemma ArraysBlockFieldwise(p: Params, m: map<string, Value>, f: Field)
    ensures Get(AppliedArrays(p, m), f) ==
            if BlockOf(f) == ArraysBlock then Updated(p, m, f) else Get(p, f)
  {
  }

  lemma FloatsBlockFieldwise(p: Params, m: map<string, Value>, f: Field)
    ensures Get(AppliedFloats(p, m), f) ==
            if BlockOf(f) == FloatsBlock then Updated(p, m, f) else Get(p, f)
  {
  }

  lemma IntsBlockFieldwise(p: Params, m: map<string, Value>, f: Field)
    ensures Get(AppliedInts(p, m), f) ==
            if BlockOf(f) == IntsBlock then Updated(p, m, f) else Get(p, f)
  {
    if BlockOf(f) != IntsBlock {
      IntsBlockKeepsOthers(p, m, f);
    } else if f in {HalfSize, FourColorRgb, Highlight, UseAutoWb, UseCameraWb, UseCameraMatrix} {
      IntsBlockWritesHead(p, m, f);
    } else if f in {OutputColor, OutputBps, OutputTiff, OutputFlags, UserFlip, UserQual, UserBlack} {
      IntsBlockWritesMiddle(p, m, f);
    } else {
      IntsBlockWritesTail(p, m, f);
    }
  }

  // The integers block is the largest: its fieldwise lemma is split into the
  // fields it leaves alone and three runs of the fields it writes, only to keep
  // each proof small for the solver.

  lemma IntsBlockKeepsOthers(p: Params, m: map<string, Value>, f: Field)
    requires BlockOf(f) != IntsBlock
    ensures Get(AppliedInts(p, m), f) == Get(p, f)
  {
  }

  lemma IntsBlockWritesHead(p: Params, m: map<string, Value>, f: Field)
    requires f in {HalfSize, FourColorRgb, Highlight, UseAutoWb, UseCameraWb, UseCameraMatrix}
    ensures Get(AppliedInts(p, m), f) == Updated(p, m, f)
  {
  }

  lemma IntsBlockWritesMiddle(p: Params, m: map<string, Value>, f: Field)
    requires f in {OutputColor, OutputBps, OutputTiff, OutputFlags, UserFlip, UserQual, UserBlack}
    ensures Get(AppliedInts(p, m), f) == Updated(p, m, f)
  {
  }

  lemma IntsBlockWritesTail(p: Params, m: map<string, Value>, f: Field)
    requires BlockOf(f) == IntsBlock
    requires f !in {HalfSize, FourColorRgb, Highlight, UseAutoWb, UseCameraWb, UseCameraMatrix,
                    OutputColor, OutputBps, OutputTiff, OutputFlags, UserFlip, UserQual, UserBlack}
    ensures Get(AppliedInts(p, m), f) == Updated(p, m, f)
  {
  }

  lemma StringsBlockFieldwise(p: Params, m: map<string, Value>, f: Field)
    ensures Get(AppliedStrings(p, m), f) == if BlockOf(f) == StringsBlock then Updated(p, m, f) else Get(p, f)
  {
  }

  /** An absent key leaves its field at its prior value. */
  lemma AbsentKeyKeepsField(p: Params, m: map<string, Value>, f: Field)
    requires Key(f) !in m
    ensures Get(Applied(p, m), f) == Get(p, f)
  {
    AppliedFieldwise(p, m, f);
  }

  /** An array field is written in full or not at all: either it keeps its
      prior value, or its key is present with exactly the declared length and
      every element is the coerced element of the setting. */
  lemma ArrayAllOrNothing(p: Params, m: map<string, Value>, f: Field)
    requires IsArray(f)
    ensures var r := Get(Applied(p, m), f);
            r == Get(p, f) ||
            (Key(f) in m && Length(m[Key(f)]) == ArraySize(f) && r == Coerce(f, m[Key(f)]))
    ensures Key(f) in m && Length(m[Key(f)]) != ArraySize(f) ==> Get(Applied(p, m), f) == Get(p, f)
  {
    AppliedFieldwise(p, m, f);
  }

  /** A present scalar setting gives its field the coerced value. */
  lemma ScalarSettingWritten(p: Params, f: Field, v: Value)
    requires !IsArray(f)
    ensures Get(Applied(p, map[Key(f) := v]), f) == Coerce(f, v)
  {
    AppliedFieldwise(p, map[Key(f) := v], f);
  }

  /** A settings object with a single recognised key changes no field but
      that key's own. */
  lemma SingleSettingTouchesOnlyItsField(p: Params, f: Field, v: Value, g: Field)
    requires g != f
    ensures Get(Applied(p, map[Key(f) := v]), g) == Get(p, g)
  {
    AppliedFieldwise(p, map[Key(f) := v], g);
    KeysDistinct(f, g);
  }

  /** Keys the wrapper does not recognise have no effect. */
  lemma UnrecognisedKeyIgnored(p: Params, m: map<string, Value>, k: string, v: Value)
    requires FieldOf(k) == None
    ensures Applied(p, m[k := v]) == Applied(p, m)
  {
    UnrecognisedKeyIgnoredByArrays(p, m, k, v);
    var q := AppliedArrays(p, m);
    UnrecognisedKeyIgnoredByFloats(q, m, k, v);
    q := AppliedFloats(q, m);
    UnrecognisedKeyIgnoredByInts(q, m, k, v);
    q := AppliedInts(q, m);
    UnrecognisedKeyIgnoredByStrings(q, m, k, v);
  }

  lemma UnrecognisedKeyIgnoredByArrays(p: Params, m: map<string, Value>, k: string, v: Value)
    requires FieldOf(k) == None
    ensures AppliedArrays(p, m[k := v]) == AppliedArrays(p, m)
  {
  }

  lemma UnrecognisedKeyIgnoredByFloats(p: Params, m: map<string, Value>, k: string, v: Value)
    requires FieldOf(k) == None
    ensures AppliedFloats(p, m[k := v]) == AppliedFloats(p, m)
  {
  }

  lemma UnrecognisedKeyIgnoredByInts(p: Params, m: map<string, Value>, k: string, v: Value)
    requires FieldOf(k) == None
    ensures AppliedInts(p, m[k := v]) == AppliedInts(p, m)
  {
  }

  lemma UnrecognisedKeyIgnoredByStrings(p: Params, m: map<string, Value>, k: string, v: Value)
    requires FieldOf(k) == None
    ensures AppliedStrings(p, m[k := v]) == AppliedStrings(p, m)
  {
  }

  /** Applying settings never changes the size of an array member: a setting
      of the wrong length is ignored. */
  lemma AppliedKeepsShape(p: Params, m: map<string, Value>)
    requires Shaped(p)
    ensures Shaped(Applied(p, m))
  {
  }
}
