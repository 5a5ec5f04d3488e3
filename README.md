# zk-neural-rust-core in Dafny

This project models the native core of zk-neural-rust-core. The core does two jobs.

- It drives zero-knowledge witness and proof generation through two C callbacks that the host application registers.
- It picks the single face box out of a BlazeFace detector's output.

Five modules make up the model.

- `Errors` models the `ZKNeuralError` enum and the text its `Display` prints. That text is all a C caller ever sees of an error.
- `Utf8` models `String::from_utf8_lossy` exactly. Each maximal invalid subpart becomes U+FFFD. The module also gives a UTF-8 encoder to state round trips against.
- `Core` models `ZKNeuralCore`, a class with three optional slots: witness callback, proof callback and proving type.
  - Its `GenerateWitness` and `GenerateProof` methods allocate zeroed `Vec<u8>` buffers as a `ByteVec` class over an `array`. They let the callback fill the buffers, read its `i32` status and truncate in place.
  - Each method is proved equal to a specification function, `WitnessOutcome` or `ProofOutcome`. Lemmas about those functions state what the source promises.
  - The callbacks are oracles: functions from their inputs to a reply with the status, the bytes written, the reported sizes and the error-buffer bytes.
  - serde_json is a `JsonCodec` parameter: parse functions that can fail and a serialiser.
- `Ffi` models the C boundary as a `Heap` class. Maps from addresses hold the live core handles, result boxes, byte buffers and error strings.
  - Every `rs_zkneural_*` entry point is a method. Those that take a core or result handle keep its null-handle guard. The two raw-memory primitives, `rs_zkneural_alloc` and `rs_zkneural_dealloc`, have no guard; `Heap.Dealloc` requires a live buffer, so it excludes null.
  - `ZkNeuralCoreResult::from_rust_result` is modelled with its exact layout. An allocation failure is a nondeterministic choice.
  - The invariant "no core reachable through the boundary has a proving type" is kept by every entry point. So proof generation through the boundary always ends in `ProvingTypeNotSet`.
- `FaceDetection` covers what happens after inference, on reals:
  - the 16-float row split;
  - `decode_boxes`, with the anchor table as a parameter;
  - the first-maximum score scan;
  - the 0.9 threshold;
  - the scaling by 128.

## Model

| member | source | states |
|---|---|---|
| Errors.DisplayRoundTrip | src/core/errors.rs:5-24 | Every error's displayed text parses back to that same error: each fixed message is distinct and no prefixed message collides with one |
| Errors.DisplayInjective | src/core/errors.rs:5-24 | Two errors with the same displayed text are the same error, payload included |
| Errors.DisplayNul | src/ffi.rs:40 | An error's displayed text contains NUL exactly when its payload does, since no fixed message or prefix contains NUL |
| Errors.DisplayPrefixed | src/core/errors.rs:9-20 | A payload-carrying error displays as its fixed prefix followed by the payload verbatim |
| Wrappers.TrimEnd | src/core/mod.rs:76 | `trim_end_matches`: the result is a prefix of the input, does not end in the trimmed value, and everything removed was that value |
| Utf8.Step | src/core/mod.rs:75 | One decoding step consumes between 1 and all remaining bytes, only continuation bytes after the first, and yields NUL exactly for a zero byte, which it consumes alone |
| Utf8.TrimAfterDecode | src/core/mod.rs:75-77 | Decoding then trimming NULs equals trimming zero bytes then decoding |
| Utf8.NulIffZero | src/core/mod.rs:75 | Lossy decoding yields a NUL exactly when the bytes contain a zero byte |
| Utf8.LossyLength | src/core/mod.rs:75 | Lossy decoding never yields more characters than there are bytes |
| Utf8.LossyDecodesUtf8 | src/core/mod.rs:75 | Lossy decoding of well-formed UTF-8 gives back the encoded string |
| Utf8.EncodingHasNoZero | src/core/mod.rs:75-77 | A string without NUL encodes to bytes without a zero byte |
| Core.Truncated | src/core/mod.rs:82 | `Vec::truncate(n)` keeps a prefix of length `min(n, len)`, so a reported size above the length has no effect |
| Core.ErrorTextIsTrimmedBuffer | src/core/mod.rs:74-80 | The error text is the 256-byte buffer without its trailing zero bytes, decoded; it is at most 256 characters and contains a NUL exactly when the trimmed buffer contains a zero byte |
| Core.ErrorTextVerbatim | src/core/mod.rs:75-77 | A NUL-free message whose UTF-8 encoding fits the 256-byte buffer comes back exactly |
| Core.WitnessOnSuccess | src/core/mod.rs:82-83 | On status 0 the witness has `min(reported size, WITNESS_SIZE)` bytes, which are the first bytes the callback wrote (zeros where it wrote less) |
| Core.WitnessOnFailure | src/core/mod.rs:74-80 | On a nonzero status the result is `WitnessGenerationFailed` with the trimmed error text, whatever the witness buffer holds |
| Core.CallbackNotSet | src/core/mod.rs:84-86 | With the witness callback unset the result is `WitnessCallbackNotSet`; with the proving type set and the proof callback unset it is `ProofCallbackNotSet` |
| Core.ProvingTypeCheckedFirst | src/core/mod.rs:94-99 | With the proving type unset the result is `ProvingTypeNotSet`, whether or not a proof callback is registered |
| Core.ProofStatusDispatch | src/core/mod.rs:121-136 | Status 2 gives the fixed "too short" message whatever the error buffer holds; other nonzero statuses give the trimmed error text; 0 decodes both buffers truncated to their reported sizes |
| Core.AssembleProof | src/core/mod.rs:138-153 | Every failure while assembling the proof is a JSON error |
| Core.AssembleProofSchema | src/core/mod.rs:138-155 | The proof is the encoding of a document of the selected scheme built from both decoded buffers, and it is produced exactly when both buffers decode and the document encodes |
| Core.ByteVec.Zeroed | src/core/mod.rs:57 | `vec![0u8; n]` holds `n` zeros in a fresh allocation |
| Core.ByteVec.WriteFront | src/core/mod.rs:61-72 | The callback overwrites the first bytes of the buffer and nothing else, so a zeroed buffer ends up as `Filled`: the written bytes in front, zeros behind, the capacity unchanged |
| Core.ByteVec.Truncate | src/core/mod.rs:82 | Truncating in place leaves exactly `Truncated` of the old contents |
| Core.ZkNeuralCore.constructor | src/core/mod.rs:31-37 | A new core has all three slots unset |
| Core.ZkNeuralCore.SetGenerateWitnessCallback | src/core/mod.rs:39-41 | Fills the witness-callback slot and leaves the other two unchanged |
| Core.ZkNeuralCore.SetGenerateProofCallback | src/core/mod.rs:43-45 | Fills the proof-callback slot and leaves the other two unchanged |
| Core.ZkNeuralCore.SetProvingType | src/core/mod.rs:47-49 | Fills the proving-type slot and leaves the other two unchanged |
| Core.ZkNeuralCore.GenerateWitness | src/core/mod.rs:51-87 | The in-place buffer handling returns exactly `WitnessOutcome` and changes nothing in the core |
| Core.ZkNeuralCore.GenerateProof | src/core/mod.rs:89-159 | The in-place buffer handling returns exactly `ProofOutcome` and changes nothing in the core |
| Ffi.Heap.Alloc | src/ffi.rs:154-160 | Either returns null and changes nothing, or returns a fresh address owning a buffer of the requested length with unspecified contents |
| Ffi.Heap.Dealloc | src/ffi.rs:162-168 | Releases exactly the given buffer |
| Ffi.Heap.FromRustResult | src/ffi.rs:19-48 | `Ok(v)` gives a fresh box whose value is a fresh buffer holding `v`, with `value_size == len(v)` and a null error, or a null box when allocation fails; `Err(e)` gives a box with a null value, size 0 and a fresh string holding the display text of `e`; nothing existing changes |
| Ffi.Heap.BoxValue | src/ffi.rs:22-37 | The `Ok` arm: null with nothing changed when the allocation fails; otherwise a fresh box owning a fresh buffer that holds the value, with `value_size` its length and a null error |
| Ffi.Heap.BoxBuffer | src/ffi.rs:27-36 | Copying into a live buffer no result owns and boxing it: the buffer holds the value, a fresh box owns it, nothing else changes |
| Ffi.Heap.BoxError | src/ffi.rs:39-46 | The `Err` arm: a fresh NUL-free C string holding the message and a fresh box with a null value, size 0 and that string; buffers are untouched |
| Ffi.Heap.DeallocResult | src/ffi.rs:51-66 | Null does nothing; otherwise the box is released, and its value buffer only when non-null; the error string stays allocated |
| Ffi.Heap.New | src/ffi.rs:68-72 | A fresh non-null handle to a core with all slots unset |
| Ffi.Heap.Free | src/ffi.rs:74-82 | Null does nothing; otherwise exactly that handle is released |
| Ffi.Heap.SetGenerateWitnessCallback | src/ffi.rs:84-96 | Null does nothing; otherwise only that core's witness-callback slot changes |
| Ffi.Heap.SetGenerateProofCallback | src/ffi.rs:98-110 | Null does nothing; otherwise only that core's proof-callback slot changes |
| Ffi.Heap.GenerateWitness | src/ffi.rs:112-131 | A null handle gives a null result and touches nothing; otherwise the result box holds `WitnessOutcome` for that core; a null result leaves the heap as it was, and a non-null one adds exactly that new box and its one fresh value buffer or fresh error string, leaving every existing result box, buffer and string as it was |
| Ffi.Heap.GenerateProof | src/ffi.rs:133-152 | A null handle gives a null result; otherwise the box holds `ProofOutcome`, which is the `ProvingTypeNotSet` error whenever no live core has a proving type; a null result leaves the heap as it was, and a non-null one adds exactly that new box and its one fresh value buffer or fresh error string, leaving every existing result box, buffer and string as it was |
| Ffi.ProofThroughBoundary | src/ffi.rs:68-152 | A core created and driven only through the exported entry points, with both callbacks set, gets no proof value and the message of `ProvingTypeNotSet` |
| Ffi.NewSession | test.c:66-69 | A new core created and given both callbacks through the entry points has no proving type, like every core on the heap |
| Ffi.WitnessThenProof | test.c:65-101 | The harness's sequence: a witness that comes back as `Ok` stays valid while it is passed to proof generation, which then fails with the `ProvingTypeNotSet` text; a witness error stops the sequence |
| Ffi.ProveFromWitness | test.c:84-96 | Proof generation fed a live witness result yields the `ProvingTypeNotSet` text, and both results and the core can then be released |
| FaceDetection.DecodeBox | src/core/face_detection.rs:26-36 | The decoded box has four coordinates, its midpoints are the anchor-relative centre and its extents are the anchor-scaled width and height |
| FaceDetection.BoxOrderedIff | src/core/face_detection.rs:28-36 | `xmin <= xmax` exactly when the raw width times the anchor's x scale is non-negative (likewise for y); decoding does not enforce it |
| FaceDetection.DecodeBoxes | src/core/face_detection.rs:23-42 | Exactly `min(rows, anchors)` boxes, in order, box `i` decoded from row `i` and anchor `i` alone |
| FaceDetection.Chunks | src/core/face_detection.rs:78-81 | `ceil(n / 16)` rows, row `i` being the values from `16 i`; all rows are full except possibly the last, which is non-empty |
| FaceDetection.ChunksFlatten | src/core/face_detection.rs:78-81 | Concatenating the rows gives back the detections |
| FaceDetection.FirstArgMax | src/core/face_detection.rs:85-90 | The selected index holds the maximum score and every earlier score is strictly smaller, so ties keep the earliest index |
| FaceDetection.BestScoreIndex | src/core/face_detection.rs:85-90 | The scan with a strict `>` ends on `FirstArgMax` of the scores |
| FaceDetection.StrictlyBestIsSelected | src/core/face_detection.rs:85-90 | An index whose score beats every other is the one selected |
| FaceDetection.DetectFace | src/core/face_detection.rs:78-103 | `FaceNotFound` exactly when every score is below 0.9; otherwise the box decoded at the first maximum with each coordinate times 128 |

## Left out

- TFLite, the image crate and the embedded model: loading, resizing and inference are foreign libraries. `FaceDetection.DetectFace` starts from the flat detection and score sequences.
- f32 arithmetic and the sigmoid in src/core/math.rs: coordinates and scores are reals, and scores are taken after the sigmoid. No bit-exact f32 result is claimed.
- serde_json: parsing and serialising are the `JsonCodec` parameter. The proof-point types are records of strings. The UltraGroth types are not part of this model beyond their field names.
- The anchor table `BLAZE_FACE_SHORT_RANGE_ANCHORS` is not part of this model. `DetectFace` and `DecodeBoxes` take it as a sequence of anchors.
- FaceDetection.DetectFace and FaceDetection.DecodeBoxes: both require four values in every row that is paired with an anchor; DetectFace also requires a non-empty score list and a decoded box at the winning index. The source panics in those cases; the panic is not modelled.
- Raw pointers, `slice::from_raw_parts` and the `unsafe extern "C"` callback ABI: pointers are addresses in the heap maps, and caller slices are sequences.
- Core.ByteVec.WriteFront: a callback writes at most the buffer's capacity. Writing past it is undefined behaviour in the source and is not modelled.
- The callback is given no capacity for the witness, proof or public-signal buffers. The size out-parameters start at 0, and only the error buffer's length is passed (src/core/mod.rs:58, 101-103). The model follows the code, so a reported size is never read as an input capacity.
- Ffi.Heap.Alloc: an allocation of length 0 is treated like any other. In the source, `rs_zkneural_alloc(0)` for an empty `Ok` value calls the global allocator with a zero-size layout, which is undefined behaviour.
- Ffi.Heap.FromRustResult: `CString::new(...).unwrap()` panics on an interior NUL. That case is a precondition, and the panic is not modelled.
- Ffi.Heap.Dealloc: requires that the buffer is not the value buffer of a live result. The C header (headers/zk_neural_rust_core.h:179) allows releasing any buffer obtained from `rs_zkneural_alloc`, but a result's value buffer is released together with its result by `rs_zkneural_dealloc_result`, so releasing it separately as well would free it twice.
- Ffi.Heap.DeallocResult: the error string is never released, as in the source. The model keeps it allocated and reclaims nothing else.
- `ProvingTypeNotSet` and `FaceNotFound` are raised by src/core/mod.rs and src/core/face_detection.rs, but the src/core/errors.rs in this revision of the repository does not declare them. Their display text is therefore taken to be the variant name.
- Core.AssembleProof: maps every serde_json failure to `JsonError` carrying the error's text. src/core/errors.rs:14 declares `JsonError(serde_json::Error)` without `#[from]`, so the `From` conversion the `?` operators at src/core/mod.rs:140-151 rely on is not part of this model; the model assumes it wraps the error in `JsonError`.
- The payloads of `JsonError`, `TensorFlowLiteError` and `ImageProcessingError` are the text the foreign error displays, since nothing else of them is observed.
- src/core/tensor.rs, src/core/callbacks.rs and the C headers: they hold only an integration test and declarations. Of test.c only the call sequence is modelled (`Ffi.WitnessThenProof`); its stub callbacks and its output are not.
- Concurrency and thread safety of the boundary are not modelled. Each entry point is one atomic step on the heap.
