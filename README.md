# LibRaw-Wasm wrapper, modelled in Dafny

LibRaw-Wasm exposes the LibRaw raw-image decoder to JavaScript through one
Embind class, `WASMLibRaw` (seen from JavaScript as `LibRaw`). This project
models that class:

- its constructor and destructor;
- `open(buffer, settings)`, which marshals the host buffer, applies the
  settings and runs `open_buffer`, `unpack` and `dcraw_process`, failing at
  the first stage that does not return `LIBRAW_SUCCESS`;
- `metadata()`, a projection of the engine's decoded-image description;
- `imageData()`, which exports the processed image as an 8-bit or 16-bit
  typed view and releases the engine's image;
- the private helpers `applySettings`, `toNativeVector`, `setStringMember`
  and `cleanupParamsStrings`.

Modules, one per concern:

- `Host`: the host values crossing the binding (null, undefined, numbers,
  strings, arrays), the settings argument as a map of own properties, and
  the total coercions `as<int>()`, `as<unsigned>()`, `as<uint8_t>()`,
  `as<double>()` and `as<std::string>()`.
- `CStrings`: NUL-terminated text and the owned, nullable `char*` slots.
- `Params`: the output-parameter record `libraw_output_params_t` as a
  value, and `applySettings` as a function of the record and the settings,
  block by block. It also holds the field-by-field properties of that
  function.
- `Ownership`: a ghost ledger of the string buffers. Each `new char[]` takes
  a fresh id, each `delete[]` logs the id it frees, and an owner map records
  which id each slot holds. Soundness means each issued id is either freed
  once or held by exactly one slot.
- `Marshal`: `toNativeVector`, a copy loop over a native byte array.
- `Engine`: LibRaw as an opaque collaborator. It is a class holding the
  parameter record and the decoded-image description. Its stage calls
  answer statuses and images chosen nondeterministically, and each call is
  appended to a ghost call log. The module also holds the reference
  definitions of the call sequences of `open` and `imageData`, and the
  `metadata` projection.
- `Wrapper`: the class `WasmLibRaw`. It holds the nullable engine pointer
  and the ghost ledger. Each method is specified against the functions
  above. The public methods and the string helpers keep the class
  invariant `Valid()`: the ledger is sound, and the engine's string slots
  are non-null exactly where the ledger says a buffer is held. The array,
  float and integer steps of `applySettings` touch no string slot and state
  only the record they leave; `ApplySettings` re-establishes `Valid()`.

## Model

| member | source | states |
|---|---|---|
| Marshal.ToNativeVector | libraw_wrapper.cpp:305-317 | null and undefined give an empty vector; anything else gives a vector of exactly its `length`, whose element `i` is element `i` of the source coerced to a byte |
| Marshal.MarshalHostBytes | libraw_wrapper.cpp:305-317 | marshalling a `Uint8Array` built from bytes `b` gives back exactly `b` |
| Marshal.HostBytesOfMarshalled | libraw_wrapper.cpp:305-317 | a byte-valued host array is rebuilt exactly from its marshalled bytes (the other direction of the round trip) |
| CStrings.CTextIsNulFreePrefix | libraw_wrapper.cpp:323-326 | the text a `strcpy` copy reads back is a NUL-free prefix of the value, cut only at the value's end or at a NUL |
| CStrings.CTextOfNulFree | libraw_wrapper.cpp:323-326 | a value without NUL characters is copied whole |
| CStrings.CTextIgnoresTail | libraw_wrapper.cpp:71-82 | a buffer holding a text, then a NUL, then anything reads back exactly as that text does |
| CStrings.StoredCopiesValue | libraw_wrapper.cpp:318-327 | after `setStringMember` the slot is null exactly when the value is empty, and otherwise holds the value cut at its first NUL: a NUL-free prefix followed in the value by a NUL when shorter, and the whole value when it has no NUL |
| Params.KeyNamesField | libraw_wrapper.cpp:147-301 | every parameter field has a settings key, and that key names the field back |
| Params.KeysDistinct | libraw_wrapper.cpp:147-301 | distinct fields are written by distinct keys |
| Params.Configured | libraw_wrapper.cpp:134-138 | null or undefined settings leave the whole record unchanged |
| Params.AppliedFieldwise | libraw_wrapper.cpp:144-302 | after `applySettings`, each field holds the coerced setting when its key is present and accepted, and its prior value otherwise |
| Params.ArraysBlockFieldwise | libraw_wrapper.cpp:147-186 | the arrays block writes the five array fields by that rule and no other field |
| Params.FloatsBlockFieldwise | libraw_wrapper.cpp:188-206 | the floats block writes the six float fields by that rule and no other field |
| Params.IntsBlockFieldwise | libraw_wrapper.cpp:208-288 | the integers block writes its 24 integer fields and `user_cblack` by that rule and no other field |
| Params.StringsBlockFieldwise | libraw_wrapper.cpp:290-302 | the strings block writes the four string slots by that rule and no other field |
| Params.AbsentKeyKeepsField | libraw_wrapper.cpp:147-301 | a field whose key is absent keeps its prior value |
| Params.ArrayAllOrNothing | libraw_wrapper.cpp:147-255 | an array field is either kept, or overwritten in full with the coerced elements when its key is present with exactly 4 elements (6 for `gamm`); a setting of any other length leaves it unchanged |
| Params.ScalarSettingWritten | libraw_wrapper.cpp:189-287 | a present scalar setting gives its field the coerced value |
| Params.SingleSettingTouchesOnlyItsField | libraw_wrapper.cpp:189-301 | a settings object with one recognised key changes no other field |
| Params.UnrecognisedKeyIgnored | libraw_wrapper.cpp:144-302 | adding a key the wrapper does not recognise changes nothing |
| Params.AppliedKeepsShape | libraw_wrapper.cpp:147-255 | applying settings never changes the length of an array member |
| Ownership.EmptyIsSound | libraw_wrapper.cpp:17-19 | a fresh wrapper's ledger is sound and holds nothing |
| Ownership.ReleaseSound | libraw_wrapper.cpp:319-322 | `delete[]` and null on a slot frees exactly the id it held, once, leaves the other slots alone and keeps the ledger sound |
| Ownership.SetSlotSound | libraw_wrapper.cpp:318-327 | `setStringMember` frees the slot's previous buffer exactly once, holds a buffer exactly when the value is non-empty, and takes a never-used id for it; other slots are unchanged and the ledger stays sound |
| Ownership.AllocateSound | libraw_wrapper.cpp:324 | `new char[]` into a slot that holds nothing keeps the ledger sound |
| Ownership.NextIdIsFresh | libraw_wrapper.cpp:324 | a new allocation is never a buffer already freed or held |
| Ownership.CleanupEmptiesSlots | libraw_wrapper.cpp:329-348 | after `cleanupParamsStrings` no slot holds a buffer, and earlier releases are kept |
| Ownership.CleanupSound | libraw_wrapper.cpp:329-348 | `cleanupParamsStrings` keeps the ledger sound |
| Ownership.CleanupFreesHeld | libraw_wrapper.cpp:329-348 | `cleanupParamsStrings` frees exactly the buffers the slots held, each once |
| Ownership.CleanupIdempotent | libraw_wrapper.cpp:329-348 | a second `cleanupParamsStrings` frees nothing |
| Ownership.FreedAtMostOnce | libraw_wrapper.cpp:318-348 | in a sound ledger no buffer is freed twice, and none is freed while a slot still holds it |
| Ownership.NothingHeldAllFreedOnce | libraw_wrapper.cpp:21-27 | once nothing is held, every buffer ever allocated has been freed exactly once |
| Engine.OpenRunCharacterised | libraw_wrapper.cpp:39-52 | the stage-by-stage description of a run of `open` and the reference run built from the three answers agree in both directions |
| Engine.StagesInOrder | libraw_wrapper.cpp:39-52 | the stages run in the order `open_buffer`, `unpack`, `dcraw_process` |
| Engine.FirstFailureStops | libraw_wrapper.cpp:39-52 | a stage that answers other than `LIBRAW_SUCCESS` is the last one run, and `open` fails with exactly that stage and code |
| Engine.OpenedIffAllStagesSucceed | libraw_wrapper.cpp:39-52 | `open` succeeds exactly when all three stages ran and succeeded |
| Engine.PixelCountExact | libraw_wrapper.cpp:110-112 | `pixelCount`, computed in 32-bit `size_t`, is the true product `height*width*colors` when that fits |
| Engine.ExportFollowsBitDepth | libraw_wrapper.cpp:114-125 | the export succeeds exactly for 8-bit and 16-bit images, with a view of that element width and `pixelCount` elements onto the image; any other depth fails with an unsupported-bit-depth error |
| Engine.ExportReleasesOnce | libraw_wrapper.cpp:97-127 | `imageData` releases a non-null image exactly once on both the success and the unsupported-depth path, releases nothing else, and releases nothing for a null image |
| Engine.ExportedViewOutlivedByRelease | libraw_wrapper.cpp:115-127 | the view reads the image's first `pixelCount` samples while the image is held, and reads nothing once `imageData` has released it, before returning |
| Engine.ProjectedTextIsBufferText | libraw_wrapper.cpp:71-82 | each of the four text fields of `metadata` is a NUL-free prefix of the engine's buffer that stops only at the buffer's end or at its first NUL, so it is the buffer cut at its first NUL, and the whole buffer when it has none |
| Engine.ProjectIgnoresTextAfterNul | libraw_wrapper.cpp:55-90 | appending a NUL and any text to each of the four text buffers leaves the metadata unchanged: text after a buffer's first NUL never reaches it |
| Engine.LibRaw.constructor | libraw_wrapper.cpp:18 | `new LibRaw()` holds the default parameters and a blank description, and has made no call |
| Engine.LibRaw.OpenBuffer | libraw_wrapper.cpp:39 | `open_buffer` logs one call carrying the buffer, the current parameters and the status it answers, and leaves the parameters unchanged |
| Engine.LibRaw.Unpack | libraw_wrapper.cpp:44 | `unpack` logs one call carrying its status and leaves the parameters unchanged |
| Engine.LibRaw.DcrawProcess | libraw_wrapper.cpp:49 | `dcraw_process` logs one call carrying its status and leaves the parameters unchanged |
| Engine.LibRaw.DcrawMakeMemImage | libraw_wrapper.cpp:97 | `dcraw_make_mem_image` logs one call carrying the image or null it answers, and leaves the parameters and the description unchanged |
| Engine.LibRaw.DcrawClearMem | libraw_wrapper.cpp:123-127 | `dcraw_clear_mem` logs the release of exactly the image it is given, and leaves the parameters and the description unchanged |
| Wrapper.SettingsLedgerSound | libraw_wrapper.cpp:290-302 | the strings block of `applySettings`, however often repeated, keeps the ledger sound and only appends releases |
| Wrapper.ArraySettingOf | libraw_wrapper.cpp:147-154 | the presence- and length-checked loop writes the array exactly as the arrays rule says |
| Wrapper.RealSettingOf | libraw_wrapper.cpp:189-205 | a presence-checked `as<float>()` assignment gives the coerced value when the key is present and keeps the current value otherwise (`RealSetting`) |
| Wrapper.IntSettingOf | libraw_wrapper.cpp:209-287 | a presence-checked `as<int>()` assignment gives the coerced value when the key is present and keeps the current value otherwise (`IntSetting`) |
| Wrapper.RunStages | libraw_wrapper.cpp:39-52 | the engine calls are a run of `open` on the marshalled buffer with the current parameters, the parameters are left alone, and the outcome is that run's outcome |
| Wrapper.WasmLibRaw.constructor | libraw_wrapper.cpp:17-19 | a fresh engine with its default parameters and null string slots; the ledger is empty and the invariant holds |
| Wrapper.WasmLibRaw.Destroy | libraw_wrapper.cpp:21-27 | the owned strings are cleaned up and the engine pointer is nulled; afterwards every buffer ever allocated has been freed exactly once |
| Wrapper.WasmLibRaw.ReleaseSlot | libraw_wrapper.cpp:319-322 | the slot becomes null and its buffer, if any, is freed; the invariant holds |
| Wrapper.WasmLibRaw.SetStringMember | libraw_wrapper.cpp:318-327 | the slot becomes the stored copy of the value, and the ledger moves by `SetSlot`; the invariant holds |
| Wrapper.WasmLibRaw.CleanupParamsStrings | libraw_wrapper.cpp:329-348 | the four slots become null, nothing else in the record changes, and the ledger moves by `Cleanup`; the invariant holds |
| Wrapper.WasmLibRaw.ApplyArrays | libraw_wrapper.cpp:147-186 | the engine's record becomes the arrays block applied to it |
| Wrapper.WasmLibRaw.ApplyFloats | libraw_wrapper.cpp:188-206 | the engine's record becomes the floats block applied to it |
| Wrapper.WasmLibRaw.ApplyInts | libraw_wrapper.cpp:208-288 | the engine's record becomes the integers block applied to it |
| Wrapper.WasmLibRaw.ApplyString | libraw_wrapper.cpp:291-301 | one presence-checked `setStringMember` call: the slot becomes the stored copy of the coerced string when its key is present and is kept otherwise, the ledger moves by `SlotLedger`, and the invariant holds |
| Wrapper.WasmLibRaw.ApplyStrings | libraw_wrapper.cpp:290-302 | the record becomes the strings block applied to it, and each present string key moves the ledger by `SetSlot`; the invariant holds |
| Wrapper.WasmLibRaw.ApplySettings | libraw_wrapper.cpp:134-303 | the engine's record becomes `Configured(old record, settings)`, the ledger moves by the string keys, the engine is otherwise untouched, and the invariant holds |
| Wrapper.WasmLibRaw.Open | libraw_wrapper.cpp:29-53 | without an engine it fails as not initialised and changes nothing; otherwise the record is configured by the settings first, and the calls appended are a run of `open` on the marshalled buffer with the configured record, whose outcome is returned |
| Wrapper.WasmLibRaw.Metadata | libraw_wrapper.cpp:55-90 | undefined exactly when there is no engine; otherwise the projection of the engine's description, with text read up to the first NUL |
| Wrapper.WasmLibRaw.ImageData | libraw_wrapper.cpp:92-129 | undefined without an engine; otherwise the calls appended are exactly the image request followed by one release of a non-null image, and the result is the export of that image |

## Left out

- The LibRaw engine itself: `open_buffer`, `unpack`, `dcraw_process`,
  `dcraw_make_mem_image` and `dcraw_clear_mem`. They are an opaque
  collaborator whose statuses, images and decoded description are chosen
  nondeterministically. The engine's default parameters and blank
  description are constructor arguments.
- Engine.LibRaw: the stage calls are assumed to leave the parameter record
  unchanged. LibRaw's own handling of the record is not part of this model.
- Embind `val` semantics. `hasOwnProperty` is membership in the settings
  map. Each `as<T>()` is a total coercion: anything that is not a number
  reads as 0, and anything that is not a string reads as "". The exceptions
  Embind may throw on a failed conversion are not modelled. Property access
  on a settings value that is not an object is not modelled either: such a
  value is treated like null.
- Host.Value: JavaScript booleans are not modelled. Embind's integer
  conversion reads `true` and `false` as 1 and 0, and a flag setting such
  as `half_size` given as a boolean has no counterpart in the model.
- Host.AsInt: the result is not truncated to a 32-bit C `int`.
- Host.AsUnsigned, Host.AsByte: out-of-range input wraps modulo 2^32 and 2^8.
  This is a choice of the model: Embind converts an out-of-range number
  with a float-to-integer conversion, which does not reduce it modulo
  2^32 or 2^8.
- Host.Length: the `length` read through `as<unsigned>()` or `as<size_t>()`
  is not wrapped at 2^32.
- Host.AsString: host strings are sequences of characters. JavaScript's
  `length` counts UTF-16 code units and `as<std::string>()` yields UTF-8
  bytes, so `value.size() + 1` and the bytes `strcpy` copies are byte
  counts; the model does not encode strings. No stated property depends on
  the encoding.
- Host.AsReal: `float` and `double` rounding is not modelled. Numbers are
  exact reals, and `double(timestamp)` is an exact conversion.
- Params: the fixed-size array members of the record are sequences inside
  a record value held by the engine. Their element-by-element writes are
  sequence updates, and their fixed sizes are the invariant `Shaped`.
- The text of the exception messages. Errors carry the stage and the
  status code, or the unsupported-bit-depth kind.
- The contents of the view `imageData` returns after it returns. The view
  aliases the image buffer, which `imageData` releases before returning.
  The model states this (`Engine.ExportedViewOutlivedByRelease`) and
  counts releases, but does not model what the host later reads from that
  memory.
- The deletion of the engine object in the destructor. The pointer is
  nulled, and LibRaw's own teardown is not modelled.
- The copy constructor the compiler generates for `WASMLibRaw`. The
  `EMSCRIPTEN_BINDINGS` registration. The JavaScript loader, the worker
  and the build script. None of these hold wrapper logic.
- Memory allocation failure (`new` throwing).

Behaviour the model takes from the code:

- `open` marshals the buffer before it applies the settings
  (libraw_wrapper.cpp:35-37).
- `imageData` releases nothing when the engine returns a null image, because
  it returns before any release (libraw_wrapper.cpp:99-101).
- `metadata` returns a record whenever the engine exists, even before `open`
  (libraw_wrapper.cpp:55-58).
- `toNativeVector` has no failure path of its own: it returns an empty
  vector for null or undefined and otherwise copies `length` elements
  (libraw_wrapper.cpp:305-317).
