# TNN converter runtime, modelled in Dafny

This project models the runtime that TNN's model converter uses to run a converted network
once: `TnnRuntime` in `tools/converter/source/runtime/tnn_runtime.cc`. A run does the following:

- It initialises an `Instance` for the network's input shapes.
- It asks the instance for its input and output blobs and its command queue.
- It builds the three name-keyed tables for each side:
  - host mats (`CreateBlobMatMap`);
  - blob converters (`CreateBlobConverterMap`);
  - default conversion parameters (`CreateConvertParamMap`).
- It fills the input mats with random values (`InitInputMatMap`).
- It enqueues one mat-to-blob conversion per input, then forwards the instance.

If init fails, its status is returned. Otherwise Forward's status is returned (TNN_OK when
it succeeds). The statuses of the conversions are ignored.

The model is split into four modules, each in its own file:

- `TnnCore` (`tnn_core.dfy`) holds the value types:
  - status, device and data types, with element byte widths;
  - mat formats, blob descriptors, blobs and mats;
  - `MatConvertParam` with its default.
- `TnnDevice` (`tnn_device.dfy`) holds the collaborators whose code is not modelled:
  - the `Instance`, whose init and forward outcomes and whose blob tables come from a
    `Backend` value;
  - its `CommandQueue`, which records the enqueued work, in order, as a trace of `Op`s;
  - the `BlobConverter`, which is bound to one blob.
- `KeyOrder` (`key_order.dfy`) holds the order in which a range-for walks a
  `std::map<std::string, …>`:
  - it defines the string `<` and proves it a strict total order;
  - it defines the ascending enumeration of a key set;
  - its method `SortedKeys` produces that enumeration.
- `TnnRuntime` (`tnn_runtime.dfy`) holds the runtime's operations, as follows.
  - The table builders are methods whose loops insert entries into a `map`.
  - The per-entry decisions are functions: the format choice, the fill value and the
    default parameter rule.
  - `InitInputMatMap` overwrites `array` buffers in place.
  - `Run` is a method that drives the instance and returns the queue's trace.

Random numbers come from a parameter `rng: nat -> nat`, where `rng(n)` is the `n`-th value
`rand()` returns. The fill contract says which draw each element receives: mats take
their draws in ascending name order, element by element.

The default conversion parameters follow the code:

- Because a default `MatConvertParam` holds four entries, an 8-bit mat gets four scales of
  1/255 and four zero biases.
- A float mat with at most 4 channels keeps the four unit scales and zero biases.
- The run converts each input with the OUTPUT parameter table (see Findings).

## Model

| member | source | states |
|---|---|---|
| KeyOrder.BelowIrreflexive | tools/converter/source/runtime/tnn_runtime.cc:83 | no key name precedes itself in `std::string` order |
| KeyOrder.BelowTransitive | tools/converter/source/runtime/tnn_runtime.cc:83 | `std::string` order is transitive |
| KeyOrder.BelowTotal | tools/converter/source/runtime/tnn_runtime.cc:83 | any two distinct key names are ordered one way or the other |
| KeyOrder.LeastExists | tools/converter/source/runtime/tnn_runtime.cc:83 | every non-empty table has a first key |
| KeyOrder.AscendingMembers | tools/converter/source/runtime/tnn_runtime.cc:109 | the walk order lists exactly the keys of the table, as many as there are keys |
| KeyOrder.AscendingSorted | tools/converter/source/runtime/tnn_runtime.cc:109 | the walk order is strictly ascending |
| KeyOrder.KeysInOrderDistinct | tools/converter/source/runtime/tnn_runtime.cc:109 | the walk visits no key twice |
| KeyOrder.SortedKeys | tools/converter/source/runtime/tnn_runtime.cc:67 | repeatedly taking the least remaining key produces exactly the ascending walk order |
| TnnRuntime.FormatChoice | tools/converter/source/runtime/tnn_runtime.cc:88-99 | code 0 gives NCHW_FLOAT with 4-byte elements; codes 1 and 2 give N8UC3 and NGRAY with 1-byte elements; the element count times the data type's width is the mat format's buffer size; distinct codes give distinct formats |
| TnnRuntime.NewMatForBlob | tools/converter/source/runtime/tnn_runtime.cc:84-101 | a new mat, with its own new buffer, on DEVICE_NAIVE with the blob's dims, the format's mat type and a buffer of element count times the data type's element width bytes, as line 99 computes it |
| TnnRuntime.CreateBlobMatMap | tools/converter/source/runtime/tnn_runtime.cc:81-106 | exactly the blob table's keys; each mat is new, made for the blob of its name as above; no two mats share a buffer |
| TnnRuntime.FillValue | tools/converter/source/runtime/tnn_runtime.cc:116-120 | a float element lies in [-1, 127/128]; a byte element is a whole number in [0, 255] |
| TnnRuntime.FillValueRecoversDraw | tools/converter/source/runtime/tnn_runtime.cc:116-120 | the filled value determines the low byte of its draw (`v*128+128` for floats, `v` for bytes) |
| TnnRuntime.FillMat | tools/converter/source/runtime/tnn_runtime.cc:113-121 | every element index below the element count is written; element `e` holds the fill value of draw `first + e` |
| TnnRuntime.InitInputMatMap | tools/converter/source/runtime/tnn_runtime.cc:108-123 | every element of every mat is overwritten; the `j`-th mat in name order takes the draws after those of the `j` mats before it; keys, dims and types are unchanged because the table is read-only |
| TnnRuntime.CreateBlobConverterMap | tools/converter/source/runtime/tnn_runtime.cc:125-133 | exactly the blob table's keys; one new converter per blob, bound to the blob of its name |
| TnnRuntime.Copies | tools/converter/source/runtime/tnn_runtime.cc:147-148 | `n` entries, each equal to the given value |
| TnnRuntime.FillWith | tools/converter/source/runtime/tnn_runtime.cc:144-145 | same length as the vector, every entry equal to the given value |
| TnnRuntime.ConvertParamFor | tools/converter/source/runtime/tnn_runtime.cc:138-149 | not NCHW_FLOAT: default lengths, every scale 1/255, every bias 0; NCHW_FLOAT with `dims[1] > 4`: exactly `dims[1]` scales of 1 and biases of 0; otherwise the default parameters unchanged; the channel flag always keeps its default |
| TnnRuntime.ByteParamNormalises | tools/converter/source/runtime/tnn_runtime.cc:143-145 | a filled byte value, scaled and biased with an 8-bit mat's parameters on any channel, lands in [0, 1] |
| TnnRuntime.CreateConvertParamMap | tools/converter/source/runtime/tnn_runtime.cc:135-153 | exactly the mat table's keys; each entry is the parameter rule applied to that mat's format and dims |
| TnnRuntime.ConvertInputs | tools/converter/source/runtime/tnn_runtime.cc:66-71 | one conversion per converter, in ascending name order, from the mat of the same name with `params[name]`; afterwards the table holds its old keys plus every converter name, and each looked-up name missing before holds a default entry |
| TnnRuntime.ConvertEach | tools/converter/source/runtime/tnn_runtime.cc:66-71 | the loop enqueues the conversions for the given names in order and leaves the table as successive `operator[]` lookups leave it |
| TnnRuntime.ConvertNext | tools/converter/source/runtime/tnn_runtime.cc:67-70 | one turn of the loop: the lookup inserts a default entry when the name is missing, and exactly one conversion is appended |
| TnnRuntime.LookedUpValues | tools/converter/source/runtime/tnn_runtime.cc:70 | after lookups every entry is the original one or a default; every looked-up name is present; no other key appears |
| TnnRuntime.LookedUpGrows | tools/converter/source/runtime/tnn_runtime.cc:70 | lookups never remove an entry |
| TnnRuntime.LookedUpAll | tools/converter/source/runtime/tnn_runtime.cc:66-71 | after the loop the table's keys are its old keys plus the converter names, and each entry is the original or a default |
| TnnRuntime.LookedUpCovers | tools/converter/source/runtime/tnn_runtime.cc:66-71 | the same, for any name list that covers a key set |
| TnnRuntime.ConversionsPointwise | tools/converter/source/runtime/tnn_runtime.cc:66-71 | the `k`-th conversion enqueued is the one for the `k`-th name |
| TnnRuntime.DrawnMatchesBlobs | tools/converter/source/runtime/tnn_runtime.cc:58-59 | mats with their blobs' dims take as many draws as the blobs have elements |
| TnnRuntime.CreateFilledInputMats | tools/converter/source/runtime/tnn_runtime.cc:58-59 | one float mat per input blob, made for it, whose contents are the fill values of consecutive draws in name order |
| TnnRuntime.PrepareInputs | tools/converter/source/runtime/tnn_runtime.cc:58-61 | filled float mats, bound converters and derived parameters, each keyed exactly by the input blob names |
| TnnRuntime.PrepareOutputs | tools/converter/source/runtime/tnn_runtime.cc:63-65 | output parameters keyed exactly by the output blob names, each derived from a float mat of that blob's dims |
| TnnRuntime.InputMatsFilled | tools/converter/source/runtime/tnn_runtime.cc:58-71 | before any conversion, each input mat holds the values drawn for it |
| TnnRuntime.EnqueueInputsAndForward | tools/converter/source/runtime/tnn_runtime.cc:66-72 | the queue gains the conversions in name order followed by one forward; the status is the forward's |
| TnnRuntime.ConversionsThenForward | tools/converter/source/runtime/tnn_runtime.cc:66-72 | such a queue holds one conversion per input blob, in name order, each into that blob from a float mat made for it and with `params[name]`, then exactly one forward |
| TnnRuntime.ConvertAndForward | tools/converter/source/runtime/tnn_runtime.cc:66-72 | from an empty queue, the conversions and the forward as above, each conversion from the input's filled mat |
| TnnRuntime.OutputLookupAsWritten | tools/converter/source/runtime/tnn_runtime.cc:63-70 | looking an input name up in the output table yields the output's derived parameters, or the default when no output has that name |
| TnnRuntime.InputLookupFollowsMats | tools/converter/source/runtime/tnn_runtime.cc:58-70 | looking an input name up in the input table yields the parameters derived from the converted mat itself |
| TnnRuntime.Run | tools/converter/source/runtime/tnn_runtime.cc:39-79 | a failed init returns its status with nothing enqueued. Otherwise: each input is converted exactly once, in name order, from its own filled float mat, with the output table's entry for its name; then the single forward; and the forward's status is returned |
| TnnRuntime.RunWithInputParams | tools/converter/source/runtime/tnn_runtime.cc:39-79 | the same run, with each conversion using the parameters derived from its own mat |
| TnnRuntime.AsWrittenParamIgnoresInputChannels | tools/converter/source/runtime/tnn_runtime.cc:61-70 | an input with more than 4 channels and no output of the same name is converted with 4-entry parameters, not the per-channel ones derived for it |
| TnnDevice.Instance.Init | tools/converter/source/runtime/tnn_runtime.cc:45 | reports the backend's init status; the instance counts as initialised exactly when that status is OK |
| TnnDevice.Instance.Forward | tools/converter/source/runtime/tnn_runtime.cc:72 | appends one forward to the queue and reports the backend's forward status |
| TnnDevice.BlobConverter.ConvertFromMatAsync | tools/converter/source/runtime/tnn_runtime.cc:70 | appends one conversion into the bound blob, from the given mat with the given parameters |

## Left out

- The internals of `Instance` and `BlobConverter` (init, forward, blob tables, the actual
  conversion arithmetic) are abstract. Their outcomes come from a `Backend` value, and the
  work they enqueue is recorded as a trace. Stream asynchrony is not modelled; the queue's
  order is the order of enqueuing.
- The `dynamic_cast` of the interpreter and the network structure lookup (lines 41-43) are
  left out. The input-shape table is a parameter of `Run`.
- The `LOGE` calls and the constructor's configuration stores (lines 24-34) are left out.
  They have no behaviour to verify.
- `malloc` and the buffers never being freed are not modelled. A buffer is an `array<real>`
  with one slot per element, and the mat records the allocation's byte size.
- `rand()` is replaced by the parameter `rng`. Float arithmetic is modelled with reals, so
  IEEE rounding of `(r % 256 - 128) / 128.0f` and of `1.0f / 255.0f` is not modelled.
- TnnRuntime.NewMatForBlob: the byte size is an unbounded integer. The 32-bit `int bytes`
  (line 99) could overflow for very large blobs, and that is not modelled.
- TnnRuntime.FormatChoice: format codes other than 0, 1 and 2 leave `mat_type`
  uninitialised in the source. The model requires a code in 0..2. Runs only use code 0.
- TnnRuntime.InitInputMatMap: requires the mats' buffers to be distinct. The source gets
  this from separate `malloc` calls.
- TnnRuntime.Run: requires, after a successful init, that every input and output blob has
  at least two dims. The source reads `dims[1]` unchecked for float mats (line 146), which
  reads out of range for a rank-1 blob. What the code should do for such a blob is not
  evident, so the model does not define that case.
- The return status of `ConvertFromMatAsync` is ignored by the run and is not modelled.
- The default `MatConvertParam` is assumed to hold four scales of 1, four biases of 0 and
  `reverse_channel` false. The header that defines it is not part of this model.
- Mats are modelled as host buffers only, and blob contents are not modelled. A blob is
  identified by its object identity and its descriptor.
- Names are Dafny strings, ordered by character code. For byte strings this is the order
  `std::string` comparison uses.

## Findings

| source | as written | input that shows it | evidently intended | confidence | as-written member | corrected member |
|---|---|---|---|---|---|---|
| tools/converter/source/runtime/tnn_runtime.cc:70 | each input is converted with `output_params_map[name]`. The input table built at line 61 is never used, and a missing name inserts a default entry into the output table | an input blob `data` with dims [1, 8, 4, 4] and no output named `data`: it is converted with 4 unit scales and 4 zero biases instead of the 8 of each derived for it | `input_params_map[name]`, the parameters derived from the input's own mat | likely; not executed | TnnRuntime.AsWrittenParamIgnoresInputChannels | TnnRuntime.RunWithInputParams |
