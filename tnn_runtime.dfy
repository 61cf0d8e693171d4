/**
 * The converter runtime: the name-keyed tables that sit between an instance's blobs and
 * host mats (mats, converters, conversion parameters), the random input filler, and the
 * order in which a run initialises, converts its inputs and forwards.
 *
 * Every table is walked in ascending key order, as a range-for over a `std::map` does.
 */
module TnnRuntime {
  import opened TnnCore
  import opened TnnDevice
  import opened KeyOrder

  // ---------------------------------------------------------------------------------------
  // Mat table
  // ---------------------------------------------------------------------------------------

  /** Element type of the buffer for a format code: 0 is float, 1 and 2 are 8-bit. */
  function FormatDataType(formatType: int): DataType
    requires 0 <= formatType <= 2
  {
    if formatType == 0 then DataTypeFloat else DataTypeInt8
  }

  /** Mat format for a format code: 0 is NCHW_FLOAT, 1 is N8UC3, 2 is NGRAY. */
  function FormatMatType(formatType: int): MatType
    requires 0 <= formatType <= 2
  {
    if formatType == 0 then NchwFloat else if formatType == 1 then N8UC3 else NGray
  }

  /**
   * The two choices made from a format code agree: the float format goes with 4-byte
   * elements, the 8-bit formats with 1-byte elements, and distinct codes give distinct formats.
   */
  lemma FormatChoice(formatType: int)
    requires 0 <= formatType <= 2
    ensures forall count: nat :: count * BytesSize(FormatDataType(formatType)) == MatBytes(FormatMatType(formatType), count)
    ensures (FormatMatType(formatType) == NchwFloat) == (BytesSize(FormatDataType(formatType)) == 4)
    ensures forall other :: 0 <= other <= 2 && FormatMatType(other) == FormatMatType(formatType) ==> other == formatType
  {
  }

  /** `mat` is the host mat made for `blob` under format code `formatType`. */
  predicate MatForBlob(mat: Mat, blob: Blob, formatType: int)
    requires 0 <= formatType <= 2
  {
    && mat.Valid()
    && mat.deviceType == DeviceNaive
    && mat.matType == FormatMatType(formatType)
    && mat.dims == blob.desc.dims
  }

  /** No two names share a buffer. */
  predicate BuffersDistinct(mats: map<string, Mat>)
  {
    forall a, b :: a in mats && b in mats && a != b ==> mats[a].data != mats[b].data
  }

  /** A freshly allocated host mat for one blob: its dims, the format's type and element size. */
  method NewMatForBlob(blob: Blob, formatType: int) returns (mat: Mat)
    requires 0 <= formatType <= 2
    ensures MatForBlob(mat, blob, formatType)
    ensures mat.byteSize == Count(blob.desc.dims) * BytesSize(FormatDataType(formatType))
    ensures fresh(mat) && fresh(mat.data)
  {
    var dataType := FormatDataType(formatType);
    var matType := FormatMatType(formatType);
    var bytes := Count(blob.desc.dims) * BytesSize(dataType);
    var buffer := new real[Count(blob.desc.dims)];
    FormatChoice(formatType);
    mat := new Mat(DeviceNaive, matType, blob.desc.dims, buffer, bytes);
  }

  /** One freshly allocated host mat per blob, with the blob's dims and the format's element size. */
  method CreateBlobMatMap(blobs: map<string, Blob>, formatType: int) returns (mats: map<string, Mat>)
    requires 0 <= formatType <= 2
    ensures mats.Keys == blobs.Keys
    ensures forall name :: name in mats ==> MatForBlob(mats[name], blobs[name], formatType)
    ensures forall name :: name in mats ==> fresh(mats[name]) && fresh(mats[name].data)
    ensures BuffersDistinct(mats)
  {
    mats := map[];
    var rest := blobs.Keys;
    while rest != {}
      invariant rest <= blobs.Keys && mats.Keys == blobs.Keys - rest
      invariant forall name :: name in mats ==> MatForBlob(mats[name], blobs[name], formatType)
      invariant forall name :: name in mats ==> fresh(mats[name]) && fresh(mats[name].data)
      invariant BuffersDistinct(mats)
      decreases |rest|
    {
      LeastExists(rest);
      var name :| IsLeast(name, rest);
      var mat := NewMatForBlob(blobs[name], formatType);
      mats := mats[name := mat];
      rest := rest - {name};
    }
  }

  // ---------------------------------------------------------------------------------------
  // Input filler
  // ---------------------------------------------------------------------------------------

  /**
   * The value an element takes from the random draw `draw`: float elements are
   * `(draw % 256 - 128) / 128`, byte elements are `draw % 256`.
   */
  function FillValue(matType: MatType, draw: nat): (v: real)
    ensures matType == NchwFloat ==> -1.0 <= v <= 127.0 / 128.0
    ensures matType != NchwFloat ==> 0.0 <= v <= 255.0 && v == v.Floor as real
  {
    if matType == NchwFloat then ((draw % 256) - 128) as real / 128.0 else (draw % 256) as real
  }

  /** The filled value determines the low byte of the draw it came from. */
  lemma FillValueRecoversDraw(matType: MatType, draw: nat)
    ensures matType == NchwFloat ==> FillValue(matType, draw) * 128.0 + 128.0 == (draw % 256) as real
    ensures matType != NchwFloat ==> FillValue(matType, draw) == (draw % 256) as real
  {
  }

  /** Element `e` of `values` is the fill value of draw `first + e`. */
  ghost predicate FilledFrom(values: seq<real>, matType: MatType, first: nat, rng: nat -> nat)
  {
    forall e :: 0 <= e < |values| ==> values[e] == FillValue(matType, rng(first + e))
  }

  /** Every element of `mat` holds the fill value of its own draw, starting at draw `first`. */
  ghost predicate MatFilled(mat: Mat, first: nat, rng: nat -> nat)
    reads mat.data
  {
    FilledFrom(mat.data[..], mat.matType, first, rng)
  }

  /** Number of draws taken by the first `j` mats named in `names`, one per element. */
  function Drawn(mats: map<string, Mat>, names: seq<string>, j: nat): nat
    requires j <= |names|
    requires forall i :: 0 <= i < |names| ==> names[i] in mats
  {
    if j == 0 then 0 else Drawn(mats, names, j - 1) + Count(mats[names[j - 1]].dims)
  }

  /** Overwrites the elements of one mat, element `e` taking draw `first + e`. */
  method FillMat(mat: Mat, first: nat, rng: nat -> nat)
    requires mat.Valid()
    modifies mat.data
    ensures MatFilled(mat, first, rng)
  {
    var count := Count(mat.dims);
    for i := 0 to count
      invariant forall e :: 0 <= e < i ==> mat.data[e] == FillValue(mat.matType, rng(first + e))
    {
      if mat.matType == NchwFloat {
        mat.data[i] := ((rng(first + i) % 256) - 128) as real / 128.0;
      } else {
        mat.data[i] := (rng(first + i) % 256) as real;
      }
    }
  }

  /**
   * Overwrites every element of every mat with a random value. `rng(n)` is the n-th number
   * the random source returns; the mats draw in ascending name order, element by element.
   */
  method InitInputMatMap(mats: map<string, Mat>, rng: nat -> nat)
    requires forall name :: name in mats ==> mats[name].Valid()
    requires BuffersDistinct(mats)
    modifies set name | name in mats :: mats[name].data
    ensures forall j {:trigger Drawn(mats, KeysInOrder(mats), j)} :: 0 <= j < |KeysInOrder(mats)| ==>
      MatFilled(mats[KeysInOrder(mats)[j]], Drawn(mats, KeysInOrder(mats), j), rng)
  {
    var names := SortedKeys(mats.Keys);
    assert names == KeysInOrder(mats);
    KeysInOrderDistinct(mats);
    var drawn := 0;
    for j := 0 to |names|
      invariant drawn == Drawn(mats, names, j)
      invariant forall k {:trigger Drawn(mats, names, k)} :: 0 <= k < j ==> MatFilled(mats[names[k]], Drawn(mats, names, k), rng)
    {
      var mat := mats[names[j]];
      FillMat(mat, drawn, rng);
      drawn := drawn + Count(mat.dims);
    }
  }

  // ---------------------------------------------------------------------------------------
  // Converter table
  // ---------------------------------------------------------------------------------------

  /** One fresh converter per blob, bound to that blob. */
  method CreateBlobConverterMap(blobs: map<string, Blob>) returns (converters: map<string, BlobConverter>)
    ensures converters.Keys == blobs.Keys
    ensures forall name :: name in converters ==> converters[name].blob == blobs[name]
    ensures forall name :: name in converters ==> fresh(converters[name])
  {
    converters := map[];
    var rest := blobs.Keys;
    while rest != {}
      invariant rest <= blobs.Keys && converters.Keys == blobs.Keys - rest
      invariant forall name :: name in converters ==> converters[name].blob == blobs[name]
      invariant forall name :: name in converters ==> fresh(converters[name])
      decreases |rest|
    {
      LeastExists(rest);
      var name :| IsLeast(name, rest);
      var converter := new BlobConverter(blobs[name]);
      converters := converters[name := converter];
      rest := rest - {name};
    }
  }

  // ---------------------------------------------------------------------------------------
  // Default conversion parameters
  // ---------------------------------------------------------------------------------------

  /** `n` copies of `v`, as `std::vector<float>(n, v)` builds. */
  function Copies(n: nat, v: real): (r: seq<real>)
    ensures |r| == n
    ensures forall i :: 0 <= i < n ==> r[i] == v
  {
    if n == 0 then [] else Copies(n - 1, v) + [v]
  }

  /** `s` with every element replaced by `v`, as `std::fill` over the whole vector does. */
  function FillWith(s: seq<real>, v: real): (r: seq<real>)
    ensures |r| == |s|
    ensures forall i :: 0 <= i < |s| ==> r[i] == v
  {
    Copies(|s|, v)
  }

  /**
   * The default conversion parameters for a mat. An 8-bit mat keeps the default lengths with
   * scale 1/255 and bias 0; a float mat with more than 4 channels (`dims[1]`) gets one unit
   * scale and one zero bias per channel; any other float mat keeps the default parameters.
   */
  function ConvertParamFor(matType: MatType, dims: seq<nat>): (p: ConvertParam)
    requires matType == NchwFloat ==> |dims| >= 2
    ensures matType != NchwFloat ==>
      && |p.scale| == |DefaultConvertParam.scale| && |p.bias| == |DefaultConvertParam.bias|
      && (forall c :: 0 <= c < |p.scale| ==> p.scale[c] == 1.0 / 255.0)
      && (forall c :: 0 <= c < |p.bias| ==> p.bias[c] == 0.0)
    ensures matType == NchwFloat && dims[1] > 4 ==>
      && |p.scale| == dims[1] && |p.bias| == dims[1]
      && (forall c :: 0 <= c < dims[1] ==> p.scale[c] == 1.0 && p.bias[c] == 0.0)
    ensures matType == NchwFloat && dims[1] <= 4 ==> p == DefaultConvertParam
    ensures p.reverseChannel == DefaultConvertParam.reverseChannel
  {
    var param := DefaultConvertParam;
    if matType != NchwFloat then
      param.(scale := FillWith(param.scale, 1.0 / 255.0), bias := FillWith(param.bias, 0.0))
    else if dims[1] > 4 then
      param.(scale := Copies(dims[1], 1.0), bias := Copies(dims[1], 0.0))
    else
      param
  }

  /**
   * With the parameters derived for an 8-bit mat, every filled byte value, scaled and
   * biased on any channel, lands in [0, 1].
   */
  lemma ByteParamNormalises(matType: MatType, dims: seq<nat>, draw: nat, c: nat)
    requires matType != NchwFloat
    requires c < |ConvertParamFor(matType, dims).scale| && c < |ConvertParamFor(matType, dims).bias|
    ensures var p := ConvertParamFor(matType, dims);
      0.0 <= FillValue(matType, draw) * p.scale[c] + p.bias[c] <= 1.0
  {
    var p := ConvertParamFor(matType, dims);
    var v := FillValue(matType, draw);
    assert p.scale[c] == 1.0 / 255.0 && p.bias[c] == 0.0;
    assert 0.0 <= v <= 255.0;
  }

  /** Every float mat has at least a batch and a channel dimension. */
  predicate FloatMatsHaveChannels(mats: map<string, Mat>)
  {
    forall name :: name in mats && mats[name].matType == NchwFloat ==> |mats[name].dims| >= 2
  }

  /** One parameter set per mat, derived from the mat's format and dims. */
  method CreateConvertParamMap(mats: map<string, Mat>) returns (params: map<string, ConvertParam>)
    requires FloatMatsHaveChannels(mats)
    ensures params.Keys == mats.Keys
    ensures forall name :: name in params ==> params[name] == ConvertParamFor(mats[name].matType, mats[name].dims)
  {
    params := map[];
    var rest := mats.Keys;
    while rest != {}
      invariant rest <= mats.Keys && params.Keys == mats.Keys - rest
      invariant forall name :: name in params ==> params[name] == ConvertParamFor(mats[name].matType, mats[name].dims)
      decreases |rest|
    {
      LeastExists(rest);
      var name :| IsLeast(name, rest);
      var mat := mats[name];
      var param := DefaultConvertParam;
      if mat.matType != NchwFloat {
        param := param.(scale := FillWith(param.scale, 1.0 / 255.0), bias := FillWith(param.bias, 0.0));
      } else if mat.dims[1] > 4 {
        param := param.(scale := Copies(mat.dims[1], 1.0), bias := Copies(mat.dims[1], 0.0));
      }
      params := params[name := param];
      rest := rest - {name};
    }
  }

  // ---------------------------------------------------------------------------------------
  // Run ordering
  // ---------------------------------------------------------------------------------------

  /** What `params[name]` yields on a `std::map`: the stored entry, or a default one it inserts. */
  function ParamOrDefault(params: map<string, ConvertParam>, name: string): ConvertParam
  {
    if name in params then params[name] else DefaultConvertParam
  }

  /** The conversion enqueued for input `name`: its converter's blob, its mat, `params[name]`. */
  function ConversionOf(converters: map<string, BlobConverter>, mats: map<string, Mat>,
                        params: map<string, ConvertParam>, name: string): Op
    requires name in converters && name in mats
  {
    ConvertFromMat(converters[name].blob, mats[name], ParamOrDefault(params, name))
  }

  /**
   * Enqueues one conversion per converter, in name order, each from the mat of the same name
   * with `params[name]`; looking a name up inserts a default entry when it is missing.
   */
  method ConvertInputs(converters: map<string, BlobConverter>, mats: map<string, Mat>,
                       params: map<string, ConvertParam>, queue: CommandQueue)
    returns (paramsAfter: map<string, ConvertParam>)
    requires converters.Keys <= mats.Keys
    modifies queue
    ensures paramsAfter.Keys == params.Keys + converters.Keys
    ensures forall name :: name in paramsAfter ==> paramsAfter[name] == ParamOrDefault(params, name)
    ensures var names := KeysInOrder(converters);
      queue.ops == old(queue.ops) + Conversions(converters, mats, params, names, |names|)
  {
    var names := SortedKeys(converters.Keys);
    assert names == KeysInOrder(converters);
    paramsAfter := ConvertEach(converters, mats, params, names, queue);
    LookedUpAll(params, converters, names);
  }

  /** The loop of `ConvertInputs` over the names in the order given. */
  method ConvertEach(converters: map<string, BlobConverter>, mats: map<string, Mat>,
                     params: map<string, ConvertParam>, names: seq<string>, queue: CommandQueue)
    returns (paramsAfter: map<string, ConvertParam>)
    requires forall k :: 0 <= k < |names| ==> names[k] in converters && names[k] in mats
    modifies queue
    ensures paramsAfter == LookedUp(params, names, |names|)
    ensures queue.ops == old(queue.ops) + Conversions(converters, mats, params, names, |names|)
  {
    paramsAfter := params;
    for i := 0 to |names|
      invariant paramsAfter == LookedUp(params, names, i)
      invariant queue.ops == old(queue.ops) + Conversions(converters, mats, params, names, i)
    {
      paramsAfter := ConvertNext(converters, mats, params, names, i, paramsAfter, queue);
    }
  }

  /** One turn of the conversion loop: look up `params[names[i]]` and enqueue the conversion. */
  method ConvertNext(converters: map<string, BlobConverter>, mats: map<string, Mat>,
                     params: map<string, ConvertParam>, names: seq<string>, i: nat,
                     paramsBefore: map<string, ConvertParam>, queue: CommandQueue)
    returns (paramsAfter: map<string, ConvertParam>)
    requires i < |names|
    requires forall k :: 0 <= k < |names| ==> names[k] in converters && names[k] in mats
    requires paramsBefore == LookedUp(params, names, i)
    modifies queue
    ensures paramsAfter == LookedUp(params, names, i + 1)
    ensures queue.ops == old(queue.ops) + [ConversionOf(converters, mats, params, names[i])]
  {
    var name := names[i];
    paramsAfter := paramsBefore;
    if name !in paramsAfter {
      paramsAfter := paramsAfter[name := DefaultConvertParam];
    }
    LookedUpValues(params, names, i + 1);
    converters[name].ConvertFromMatAsync(mats[name], paramsAfter[name], queue);
  }

  /** The parameter table after `params[names[k]]` has been evaluated for every `k < i`. */
  function LookedUp(params: map<string, ConvertParam>, names: seq<string>, i: nat): map<string, ConvertParam>
    requires i <= |names|
  {
    if i == 0 then params
    else
      var before := LookedUp(params, names, i - 1);
      if names[i - 1] in before then before else before[names[i - 1] := DefaultConvertParam]
  }

  /** Every entry of the table is the original one or a default, and the looked-up names are in it. */
  lemma {:induction false} LookedUpValues(params: map<string, ConvertParam>, names: seq<string>, i: nat)
    requires i <= |names|
    ensures forall name :: name in LookedUp(params, names, i) ==> LookedUp(params, names, i)[name] == ParamOrDefault(params, name)
    ensures forall k :: 0 <= k < i ==> names[k] in LookedUp(params, names, i)
    ensures forall name :: name in LookedUp(params, names, i) ==> name in params || exists k :: 0 <= k < i && names[k] == name
  {
    if i > 0 {
      LookedUpValues(params, names, i - 1);
      var before := LookedUp(params, names, i - 1);
      if names[i - 1] !in before {
        LookedUpGrows(params, names, i - 1);
        assert names[i - 1] !in params;
      }
    }
  }

  /** Looking names up only ever adds entries. */
  lemma {:induction false} LookedUpGrows(params: map<string, ConvertParam>, names: seq<string>, i: nat)
    requires i <= |names|
    ensures params.Keys <= LookedUp(params, names, i).Keys
  {
    if i > 0 {
      LookedUpGrows(params, names, i - 1);
    }
  }

  /** Once every name of the table has been looked up, the original keys and the names are present. */
  lemma LookedUpAll<V>(params: map<string, ConvertParam>, m: map<string, V>, names: seq<string>)
    requires names == KeysInOrder(m)
    ensures LookedUp(params, names, |names|).Keys == params.Keys + m.Keys
    ensures forall name :: name in LookedUp(params, names, |names|) ==>
      LookedUp(params, names, |names|)[name] == ParamOrDefault(params, name)
  {
    AscendingMembers(m.Keys);
    LookedUpCovers(params, m.Keys, names);
  }

  /** A name list that covers `keys` leaves exactly the original keys and `keys` in the table. */
  lemma LookedUpCovers(params: map<string, ConvertParam>, keys: set<string>, names: seq<string>)
    requires forall k :: 0 <= k < |names| ==> names[k] in keys
    requires forall x :: x in keys ==> x in names
    ensures LookedUp(params, names, |names|).Keys == params.Keys + keys
    ensures forall name :: name in LookedUp(params, names, |names|) ==>
      LookedUp(params, names, |names|)[name] == ParamOrDefault(params, name)
  {
    LookedUpValues(params, names, |names|);
    LookedUpGrows(params, names, |names|);
  }

  /** The conversions enqueued for the first `i` of `names`, in that order. */
  function Conversions(converters: map<string, BlobConverter>, mats: map<string, Mat>,
                           params: map<string, ConvertParam>, names: seq<string>, i: nat): seq<Op>
    requires i <= |names|
    requires forall k :: 0 <= k < |names| ==> names[k] in converters && names[k] in mats
  {
    if i == 0 then []
    else Conversions(converters, mats, params, names, i - 1) + [ConversionOf(converters, mats, params, names[i - 1])]
  }

  /** The `k`-th conversion enqueued is the one for `names[k]`. */
  lemma {:induction false} ConversionsPointwise(converters: map<string, BlobConverter>, mats: map<string, Mat>,
                                                 params: map<string, ConvertParam>, names: seq<string>, i: nat)
    requires i <= |names|
    requires forall k :: 0 <= k < |names| ==> names[k] in converters && names[k] in mats
    ensures |Conversions(converters, mats, params, names, i)| == i
    ensures forall k :: 0 <= k < i ==>
      Conversions(converters, mats, params, names, i)[k] == ConversionOf(converters, mats, params, names[k])
  {
    if i > 0 {
      ConversionsPointwise(converters, mats, params, names, i - 1);
    }
  }

  /** Every blob has at least a batch and a channel dimension. */
  predicate BlobsHaveChannels(blobs: map<string, Blob>)
  {
    forall name :: name in blobs ==> |blobs[name].desc.dims| >= 2
  }

  /** Number of draws taken by the first `j` blobs named in `names`, one per element. */
  function BlobsDrawn(blobs: map<string, Blob>, names: seq<string>, j: nat): nat
    requires j <= |names|
    requires forall i :: 0 <= i < |names| ==> names[i] in blobs
  {
    if j == 0 then 0 else BlobsDrawn(blobs, names, j - 1) + Count(blobs[names[j - 1]].desc.dims)
  }

  /** Mats with their blobs' dims take as many draws as the blobs have elements. */
  lemma {:induction false} DrawnMatchesBlobs(mats: map<string, Mat>, blobs: map<string, Blob>, names: seq<string>, j: nat)
    requires j <= |names|
    requires forall i :: 0 <= i < |names| ==> names[i] in blobs
    requires forall name :: name in blobs ==> name in mats && mats[name].dims == blobs[name].desc.dims
    ensures Drawn(mats, names, j) == BlobsDrawn(blobs, names, j)
  {
    if j > 0 {
      DrawnMatchesBlobs(mats, blobs, names, j - 1);
    }
  }

  /**
   * The contents of the mats of `blobs`, taken in ascending name order, are the fill values
   * of consecutive draws: each mat starts where the previous one's elements ended.
   */
  ghost predicate InputsFilled(contents: map<string, seq<real>>, blobs: map<string, Blob>, rng: nat -> nat)
  {
    forall j {:trigger BlobsDrawn(blobs, KeysInOrder(blobs), j)} :: 0 <= j < |KeysInOrder(blobs)| ==>
      && KeysInOrder(blobs)[j] in contents
      && FilledFrom(contents[KeysInOrder(blobs)[j]], NchwFloat, BlobsDrawn(blobs, KeysInOrder(blobs), j), rng)
  }

  /**
   * The input mats of a run: one float mat per input blob, filled with random values;
   * `contents` records what the buffers hold afterwards.
   */
  method CreateFilledInputMats(inputBlobs: map<string, Blob>, rng: nat -> nat)
    returns (inputMats: map<string, Mat>, ghost contents: map<string, seq<real>>)
    ensures inputMats.Keys == inputBlobs.Keys
    ensures forall name :: name in inputMats ==> MatForBlob(inputMats[name], inputBlobs[name], 0)
    ensures forall name :: name in inputMats ==> fresh(inputMats[name].data)
    ensures forall name :: name in inputMats ==> name in contents && inputMats[name].data[..] == contents[name]
    ensures InputsFilled(contents, inputBlobs, rng)
  {
    inputMats := CreateBlobMatMap(inputBlobs, 0);
    InitInputMatMap(inputMats, rng);
    contents := map name | name in inputMats :: inputMats[name].data[..];
    ghost var names := KeysInOrder(inputBlobs);
    assert names == KeysInOrder(inputMats);
    assert forall name :: name in inputBlobs ==> name in inputMats && inputMats[name].dims == inputBlobs[name].desc.dims;
    forall j | 0 <= j < |names|
      ensures names[j] in contents && FilledFrom(contents[names[j]], NchwFloat, BlobsDrawn(inputBlobs, names, j), rng)
    {
      DrawnMatchesBlobs(inputMats, inputBlobs, names, j);
      assert MatFilled(inputMats[names[j]], Drawn(inputMats, names, j), rng);
    }
  }

  /** The input side of a run: per input blob a converter bound to it and a float mat made for it. */
  predicate InputsReady(blobs: map<string, Blob>, converters: map<string, BlobConverter>, mats: map<string, Mat>)
  {
    && converters.Keys == blobs.Keys && mats.Keys == blobs.Keys
    && (forall name :: name in converters ==> converters[name].blob == blobs[name])
    && (forall name :: name in mats ==> MatForBlob(mats[name], blobs[name], 0))
  }

  /**
   * The input side of a run: filled float mats, converters and derived parameters for the
   * input blobs; `contents` records what the mats hold.
   */
  method PrepareInputs(inputBlobs: map<string, Blob>, rng: nat -> nat)
    returns (inputMats: map<string, Mat>, inputConverters: map<string, BlobConverter>,
             inputParams: map<string, ConvertParam>, ghost contents: map<string, seq<real>>)
    requires BlobsHaveChannels(inputBlobs)
    ensures InputsReady(inputBlobs, inputConverters, inputMats)
    ensures forall name :: name in inputMats ==> name in contents && inputMats[name].data[..] == contents[name]
    ensures InputsFilled(contents, inputBlobs, rng)
    ensures inputParams.Keys == inputBlobs.Keys
    ensures forall name :: name in inputParams ==> inputParams[name] == ConvertParamFor(NchwFloat, inputBlobs[name].desc.dims)
  {
    inputMats, contents := CreateFilledInputMats(inputBlobs, rng);
    inputConverters := CreateBlobConverterMap(inputBlobs);
    inputParams := CreateConvertParamMap(inputMats);
  }

  /** The output side of a run: float mats, converters and derived parameters for the output blobs. */
  method PrepareOutputs(outputBlobs: map<string, Blob>) returns (outputParams: map<string, ConvertParam>)
    requires BlobsHaveChannels(outputBlobs)
    ensures outputParams.Keys == outputBlobs.Keys
    ensures forall name :: name in outputParams ==> outputParams[name] == ConvertParamFor(NchwFloat, outputBlobs[name].desc.dims)
  {
    var outputMats := CreateBlobMatMap(outputBlobs, 0);
    var outputConverters := CreateBlobConverterMap(outputBlobs);
    outputParams := CreateConvertParamMap(outputMats);
  }

  /**
   * The tail of a run, from an empty queue: the conversions of the inputs, in name order, each
   * with `params[name]`, then the forward. The queue ends up as `ConvertsThenForwards`
   * describes, each conversion from the mat of its input, filled as the draws dictate.
   */
  method ConvertAndForward(instance: Instance, converters: map<string, BlobConverter>, mats: map<string, Mat>,
                           params: map<string, ConvertParam>, ghost contents: map<string, seq<real>>,
                           ghost rng: nat -> nat)
    returns (status: Status)
    requires instance.initialized && instance.queue.ops == []
    requires InputsReady(instance.backend.inputBlobs, converters, mats)
    requires forall name :: name in mats ==> name in contents && mats[name].data[..] == contents[name]
    requires InputsFilled(contents, instance.backend.inputBlobs, rng)
    modifies instance.queue
    ensures status == instance.backend.forwardStatus
    ensures ConvertsThenForwards(instance.queue.ops, instance.backend)
    ensures var names := KeysInOrder(instance.backend.inputBlobs);
      forall i {:trigger instance.queue.ops[i]} :: 0 <= i < |names| ==>
        && instance.queue.ops[i].param == ParamOrDefault(params, names[i])
        && MatFilled(instance.queue.ops[i].mat, BlobsDrawn(instance.backend.inputBlobs, names, i), rng)
  {
    InputMatsFilled(instance.backend.inputBlobs, mats, contents, rng);
    status := EnqueueInputsAndForward(instance, converters, mats, params);
    ConversionsThenForward(instance.backend, converters, mats, params, instance.queue.ops);
  }

  /** Before any conversion, the mat of each input holds the values drawn for it. */
  lemma InputMatsFilled(blobs: map<string, Blob>, mats: map<string, Mat>, contents: map<string, seq<real>>, rng: nat -> nat)
    requires mats.Keys == blobs.Keys
    requires forall name :: name in mats ==> MatForBlob(mats[name], blobs[name], 0)
    requires forall name :: name in mats ==> name in contents && mats[name].data[..] == contents[name]
    requires InputsFilled(contents, blobs, rng)
    ensures var names := KeysInOrder(blobs);
      forall j {:trigger BlobsDrawn(blobs, names, j)} :: 0 <= j < |names| ==> MatFilled(mats[names[j]], BlobsDrawn(blobs, names, j), rng)
  {
    var names := KeysInOrder(blobs);
    forall j | 0 <= j < |names|
      ensures MatFilled(mats[names[j]], BlobsDrawn(blobs, names, j), rng)
    {
      assert FilledFrom(contents[names[j]], NchwFloat, BlobsDrawn(blobs, names, j), rng);
    }
  }

  /**
   * The statements of a run after the tables are built: each input converter, in name order,
   * enqueues the conversion of the input mat of its name with `params[name]`; then the forward.
   */
  method EnqueueInputsAndForward(instance: Instance, converters: map<string, BlobConverter>, mats: map<string, Mat>,
                                  params: map<string, ConvertParam>)
    returns (status: Status)
    requires instance.initialized
    requires converters.Keys <= mats.Keys
    modifies instance.queue
    ensures status == instance.backend.forwardStatus
    ensures var names := KeysInOrder(converters);
      instance.queue.ops == old(instance.queue.ops) + Conversions(converters, mats, params, names, |names|) + [Op.Forward]
  {
    var paramsAfter := ConvertInputs(converters, mats, params, instance.queue);
    status := instance.Forward();
  }

  /**
   * The queue a run leaves behind when it converts the inputs with `params` and forwards:
   * one conversion per input, in name order, each from that input's mat, then the forward.
   */
  lemma ConversionsThenForward(backend: Backend, converters: map<string, BlobConverter>,
                               mats: map<string, Mat>, params: map<string, ConvertParam>, ops: seq<Op>)
    requires InputsReady(backend.inputBlobs, converters, mats)
    requires var names := KeysInOrder(converters);
      ops == Conversions(converters, mats, params, names, |names|) + [Op.Forward]
    ensures ConvertsThenForwards(ops, backend)
    ensures var names := KeysInOrder(backend.inputBlobs);
      forall i {:trigger ops[i]} :: 0 <= i < |names| ==>
        && ops[i].mat == mats[names[i]]
        && ops[i].param == ParamOrDefault(params, names[i])
  {
    var names := KeysInOrder(converters);
    assert names == KeysInOrder(backend.inputBlobs);
    ConversionsPointwise(converters, mats, params, names, |names|);
  }

  /** With the output table in hand, the conversion of input `name` gets the as-written parameters. */
  lemma OutputLookupAsWritten(ops: seq<Op>, backend: Backend, params: map<string, ConvertParam>)
    requires BlobsHaveChannels(backend.outputBlobs)
    requires params.Keys == backend.outputBlobs.Keys
    requires forall name :: name in params ==> params[name] == ConvertParamFor(NchwFloat, backend.outputBlobs[name].desc.dims)
    requires var names := KeysInOrder(backend.inputBlobs);
      |ops| >= |names| && forall i {:trigger ops[i]} :: 0 <= i < |names| ==> ops[i].ConvertFromMat? && ops[i].param == ParamOrDefault(params, names[i])
    ensures var names := KeysInOrder(backend.inputBlobs);
      forall i {:trigger ops[i]} :: 0 <= i < |names| ==> ops[i].param == AsWrittenParam(backend, names[i])
  {
  }

  /** With the input table in hand, each conversion gets the parameters derived from its own mat. */
  lemma InputLookupFollowsMats(ops: seq<Op>, backend: Backend, params: map<string, ConvertParam>)
    requires BlobsHaveChannels(backend.inputBlobs)
    requires ConvertsThenForwards(ops, backend)
    requires params.Keys == backend.inputBlobs.Keys
    requires forall name :: name in params ==> params[name] == ConvertParamFor(NchwFloat, backend.inputBlobs[name].desc.dims)
    requires var names := KeysInOrder(backend.inputBlobs);
      forall i {:trigger ops[i]} :: 0 <= i < |names| ==> ops[i].param == ParamOrDefault(params, names[i])
    ensures var names := KeysInOrder(backend.inputBlobs);
      forall i {:trigger ops[i]} :: 0 <= i < |names| ==> ops[i].param == ConvertParamFor(NchwFloat, ops[i].mat.dims)
  {
  }

  /** The parameters the as-written run hands to the conversion of input `name`. */
  function AsWrittenParam(backend: Backend, name: string): ConvertParam
    requires BlobsHaveChannels(backend.outputBlobs)
  {
    if name in backend.outputBlobs then ConvertParamFor(NchwFloat, backend.outputBlobs[name].desc.dims)
    else DefaultConvertParam
  }

  /**
   * After a successful init a run enqueues exactly one conversion per input blob, in name
   * order, each from a float mat made for that blob, and then one forward.
   */
  ghost predicate ConvertsThenForwards(ops: seq<Op>, backend: Backend)
  {
    var names := KeysInOrder(backend.inputBlobs);
    && |ops| == |names| + 1
    && ops[|names|] == Op.Forward
    && forall i {:trigger ops[i]} :: 0 <= i < |names| ==>
         && ops[i].ConvertFromMat?
         && ops[i].blob == backend.inputBlobs[names[i]]
         && MatForBlob(ops[i].mat, ops[i].blob, 0)
  }

  /**
   * One converter run. A failed init is reported at once with nothing enqueued; otherwise the
   * inputs are converted, each once, before the single forward, whose status is returned.
   * The conversion of input `name` uses the parameters the OUTPUT table holds for `name`
   * (a default entry when no output has that name).
   */
  method Run(inputShapes: map<string, seq<nat>>, backend: Backend, rng: nat -> nat)
    returns (status: Status, ops: seq<Op>)
    requires backend.initStatus == Ok ==> BlobsHaveChannels(backend.inputBlobs) && BlobsHaveChannels(backend.outputBlobs)
    ensures backend.initStatus != Ok ==> status == backend.initStatus && ops == []
    ensures backend.initStatus == Ok ==> status == backend.forwardStatus && ConvertsThenForwards(ops, backend)
    ensures backend.initStatus == Ok ==>
      var names := KeysInOrder(backend.inputBlobs);
      forall i {:trigger ops[i]} :: 0 <= i < |names| ==>
        && ops[i].param == AsWrittenParam(backend, names[i])
        && MatFilled(ops[i].mat, BlobsDrawn(backend.inputBlobs, names, i), rng)
  {
    var instance := new Instance(backend);
    status := instance.Init(inputShapes);
    if status != Ok {
      ops := instance.queue.ops;
      return;
    }
    var inputBlobs := instance.GetAllInputBlobs();
    var outputBlobs := instance.GetAllOutputBlobs();
    var queue := instance.GetCommandQueue();
    var inputMats, inputConverters, inputParams, contents := PrepareInputs(inputBlobs, rng);
    var outputParams := PrepareOutputs(outputBlobs);
    status := ConvertAndForward(instance, inputConverters, inputMats, outputParams, contents, rng);
    ops := queue.ops;
    OutputLookupAsWritten(ops, backend, outputParams);
    if status != Ok {
      return;
    }
    status := Ok;
  }

  /**
   * The run with each input converted using the parameters derived from its own mat, which
   * the input table holds: a float input with more than 4 channels gets one unit scale and
   * one zero bias per channel.
   */
  method RunWithInputParams(inputShapes: map<string, seq<nat>>, backend: Backend, rng: nat -> nat)
    returns (status: Status, ops: seq<Op>)
    requires backend.initStatus == Ok ==> BlobsHaveChannels(backend.inputBlobs) && BlobsHaveChannels(backend.outputBlobs)
    ensures backend.initStatus != Ok ==> status == backend.initStatus && ops == []
    ensures backend.initStatus == Ok ==> status == backend.forwardStatus && ConvertsThenForwards(ops, backend)
    ensures backend.initStatus == Ok ==>
      var names := KeysInOrder(backend.inputBlobs);
      forall i {:trigger ops[i]} :: 0 <= i < |names| ==>
        && ops[i].param == ConvertParamFor(NchwFloat, ops[i].mat.dims)
        && MatFilled(ops[i].mat, BlobsDrawn(backend.inputBlobs, names, i), rng)
  {
    var instance := new Instance(backend);
    status := instance.Init(inputShapes);
    if status != Ok {
      ops := instance.queue.ops;
      return;
    }
    var inputBlobs := instance.GetAllInputBlobs();
    var outputBlobs := instance.GetAllOutputBlobs();
    var queue := instance.GetCommandQueue();
    var inputMats, inputConverters, inputParams, contents := PrepareInputs(inputBlobs, rng);
    var outputParams := PrepareOutputs(outputBlobs);
    status := ConvertAndForward(instance, inputConverters, inputMats, inputParams, contents, rng);
    ops := queue.ops;
    InputLookupFollowsMats(ops, backend, inputParams);
    if status != Ok {
      return;
    }
    status := Ok;
  }

  /**
   * As written, an input whose name no output shares and which has more than 4 channels is
   * converted with the four-entry default parameters instead of one entry per channel.
   */
  lemma AsWrittenParamIgnoresInputChannels(backend: Backend, name: string)
    requires BlobsHaveChannels(backend.inputBlobs) && BlobsHaveChannels(backend.outputBlobs)
    requires name in backend.inputBlobs && name !in backend.outputBlobs
    requires backend.inputBlobs[name].desc.dims[1] > 4
    ensures |AsWrittenParam(backend, name).scale| == 4 < backend.inputBlobs[name].desc.dims[1]
    ensures AsWrittenParam(backend, name) != ConvertParamFor(NchwFloat, backend.inputBlobs[name].desc.dims)
  {
    var own := ConvertParamFor(NchwFloat, backend.inputBlobs[name].desc.dims);
    assert |own.scale| == backend.inputBlobs[name].desc.dims[1];
  }
}
