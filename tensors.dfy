/** Tensors, contexts and errors as seen by the PyTorch-function bridge.

    A tensor is a record: `id` stands for the Python object's identity (`is`, `id()`),
    `storage` for `data_ptr()`, `meta` for device/dtype/shape. Two records with the same
    `id` are the same Python object; two with the same `storage` share one buffer.
    Tensor contents are an opaque token: the bridge only ever moves them around. */
module Tensors {

  datatype Option<+T> = None | Some(value: T)

  datatype Result<+T, +E> = Success(value: T) | Failure(error: E)

  datatype Outcome<+E> = Pass | Fail(error: E)

  /** device, dtype and shape of a tensor (torch.device, torch.dtype, torch.Size) */
  datatype Meta = Meta(device: nat, dtype: nat, shape: seq<nat>)

  /** What a buffer holds: all zeros, or some opaque data. */
  datatype Content = Zeros | Data(token: nat)

  /** The autograd context (the `grad_fn` node) an autograd.Function leaves on its outputs.
      `key` stands for `id(ctx)`; `fwKernelInvokeId` is the attribute the forward bridge sets. */
  datatype Context = Context(
    key: nat,
    savedTensors: seq<Option<Tensor>>,
    materializeGrads: bool,
    fwKernelInvokeId: Option<string>)

  datatype Tensor = Tensor(
    id: nat,
    storage: nat,
    meta: Meta,
    requiresGrad: bool,
    gradFn: Option<Context>,
    content: Content)

  /** Any Python value crossing the bridge: a tensor (or DLPack capsule of one), a context,
      None, or some other Python object passed through untouched. */
  datatype Value = TensorValue(tensor: Tensor) | CtxValue(ctx: Context) | NoneValue | Opaque(token: nat)

  /** What the opaque forward/backward function gave back. */
  datatype FnResult =
    | ReturnedTensor(t: Tensor)
    | ReturnedSequence(items: seq<Value>)
    | ReturnedOther
    | Raised(exception: nat)

  datatype Error =
    | AliasMapLengthMismatch          // assertion: inplace_map and detected map differ in length
    | DeclaredAliasNotDetected(output: nat)
    | DeclaredAliasDiffers(output: nat)
    | NotATensor                      // a tensor operation applied to None or a non-tensor
    | IndexOutOfRange
    | KeyNotFound
    | WriteBackAddressMismatch        // assertion: outputs reusing one input must share storage
    | UnsupportedOutputType           // ORTModuleIOError wrapping a TypeError
    | BackwardInputRequiresGrad       // assertion: backward inputs never require grad
    | AttributeMissing                // ctx.fw_kernel_invoke_id read on a value without it
    | FunctionRaised(exception: nat)  // whatever the opaque function raised
    | Fallback(cause: Error)          // ORTModuleFallbackException raised by the bridges

  /** `t.detach().clone()` into a buffer and object both named by `token`. */
  function Cloned(t: Tensor, token: nat): (c: Tensor)
  {
    Tensor(token, token, t.meta, false, None, t.content)
  }

  /** `from_dlpack(capsule)`: a new Python object over the same buffer. */
  function FromDlpack(t: Tensor, id: nat): (v: Tensor)
  {
    Tensor(id, t.storage, t.meta, false, None, t.content)
  }

  /** `torch.zeros(shape, device=device, dtype=dtype)` in a buffer named by `token`. */
  function ZerosOf(meta: Meta, token: nat): (z: Tensor)
  {
    Tensor(token, token, meta, false, None, Zeros)
  }

  /** The tensor and every tensor its autograd context saved were allocated below `bound`. */
  ghost predicate TensorBelow(t: Tensor, bound: nat)
    decreases t
  {
    && t.id < bound && t.storage < bound
    && (t.gradFn.Some? ==> ContextBelow(t.gradFn.value, bound))
  }

  /** Every tensor saved in the context was allocated below `bound`. */
  ghost predicate ContextBelow(c: Context, bound: nat)
    decreases c
  {
    forall i :: 0 <= i < |c.savedTensors| && c.savedTensors[i].Some? ==> TensorBelow(c.savedTensors[i].value, bound)
  }

  /** Every tensor reachable from `vs`, directly, through a context argument or through a
      tensor's grad_fn, was allocated below `bound`. */
  ghost predicate TokensBelow(vs: seq<Value>, bound: nat)
  {
    forall i :: 0 <= i < |vs| ==>
      match vs[i]
      case TensorValue(t) => TensorBelow(t, bound)
      case CtxValue(c) => ContextBelow(c, bound)
      case _ => true
  }

  /** Every tensor directly in `vs` has its object and buffer below `bound`. */
  ghost predicate StoragesBelow(vs: seq<Value>, bound: nat)
  {
    forall i :: 0 <= i < |vs| && vs[i].TensorValue? ==>
      vs[i].tensor.id < bound && vs[i].tensor.storage < bound
  }

  /** A token above every tensor id and storage directly among `vs`. */
  function TokenBound(vs: seq<Value>): (b: nat)
    ensures StoragesBelow(vs, b)
  {
    if |vs| == 0 then 0
    else
      var rest := TokenBound(vs[1..]);
      assert forall i :: 1 <= i < |vs| ==> vs[i] == vs[1..][i - 1];
      if vs[0].TensorValue? then
        var t := vs[0].tensor;
        var m := if t.id < t.storage then t.storage else t.id;
        if m + 1 < rest then rest else m + 1
      else rest
  }

  /** Python truthiness of an optional list: set and non-empty. */
  predicate NonEmpty<T>(s: Option<seq<T>>)
  {
    s.Some? && |s.value| > 0
  }

  /** Number of arguments the bridges walk: `zip` stops at the shortest list. */
  function ArgCount(requiresGradFlags: seq<bool>, tensorTypeFlags: seq<bool>, args: seq<Value>): (n: nat)
    ensures n <= |requiresGradFlags| && n <= |tensorTypeFlags| && n <= |args|
    ensures n == |requiresGradFlags| || n == |tensorTypeFlags| || n == |args|
  {
    var m := if |requiresGradFlags| < |tensorTypeFlags| then |requiresGradFlags| else |tensorTypeFlags|;
    if m < |args| then m else |args|
  }

  /** How many of the first `j` arguments are tensors: the running `tensor_input_index`. */
  function TensorCount(tensorTypeFlags: seq<bool>, j: nat): (c: nat)
    requires j <= |tensorTypeFlags|
    ensures c <= j
  {
    if j == 0 then 0
    else TensorCount(tensorTypeFlags, j - 1) + (if tensorTypeFlags[j - 1] then 1 else 0)
  }

  /** Distinct tensor arguments get distinct tensor input indices, in argument order. */
  lemma {:induction false} TensorCountIncreases(tensorTypeFlags: seq<bool>, i: nat, j: nat)
    requires i < j <= |tensorTypeFlags| && tensorTypeFlags[i]
    ensures TensorCount(tensorTypeFlags, i) < TensorCount(tensorTypeFlags, j)
  {
    if j > i + 1 {
      TensorCountIncreases(tensorTypeFlags, i, j - 1);
    }
  }

  /** Every tensor input index below the tensor count belongs to some tensor argument. */
  lemma {:induction false} TensorCountOnto(tensorTypeFlags: seq<bool>, j: nat, k: nat)
    requires j <= |tensorTypeFlags| && k < TensorCount(tensorTypeFlags, j)
    ensures exists i :: 0 <= i < j && tensorTypeFlags[i] && TensorCount(tensorTypeFlags, i) == k
  {
    if k < TensorCount(tensorTypeFlags, j - 1) {
      TensorCountOnto(tensorTypeFlags, j - 1, k);
    } else {
      assert tensorTypeFlags[j - 1] && TensorCount(tensorTypeFlags, j - 1) == k;
    }
  }
}
