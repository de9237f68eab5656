/** `call_python_forward_function` and its epilogue: how ORT's arguments are turned into the
    tensors the autograd.Function runs on, how the autograd context is found and kept, what
    the kernel learns on its first training run, and how outputs are handed back. */
module ForwardBridge {
  import opened Tensors
  import opened KernelInfoStore
  import opened Aliasing

  /** Tensor input `k` is copied before the run: in training, on the first run (nothing
      learned yet) or when the first run saw the function save that input in its context. */
  predicate CopiesInput(isTrainingMode: bool, capture: Option<seq<nat>>, k: nat)
  {
    isTrainingMode && (capture.None? || k in capture.value)
  }

  /** What the forward wrapping loop produces: the argument list for the function, the tensor
      inputs used for the run (by tensor input index) and the raw tensors kept for inputs that
      `inplace_map` names. */
  datatype ForwardInputs = ForwardInputs(wrapped: seq<Value>, used: seq<Tensor>, raw: map<nat, Tensor>)

  /** `u` is what the function receives for tensor argument `arg`: a detached view of ORT's
      buffer, or, when `copy`, a clone of it in a buffer of its own; either way a new Python
      object, with requires_grad as given. */
  ghost predicate WrappedInput(arg: Tensor, u: Tensor, requiresGrad: bool, copy: bool, next: nat, bound: nat)
  {
    && u.meta == arg.meta && u.content == arg.content && u.gradFn.None?
    && u.requiresGrad == requiresGrad
    && next <= u.id < bound
    && if copy then next <= u.storage < bound else u.storage == arg.storage
  }

  /** The raw tensor kept for an input used in place: the tensor used for the run itself when
      no copy was made, otherwise the view of ORT's buffer taken before the copy. */
  ghost predicate RawInput(arg: Tensor, u: Tensor, raw: Tensor, copy: bool, next: nat, bound: nat)
  {
    if copy then raw == FromDlpack(arg, raw.id) && next <= raw.id < bound && raw.id != u.id
    else raw == u
  }

  /** Argument `j` is wrapped as the forward loop does: a non-tensor passes through; a
      tensor argument gets the next tensor input index `k`, and the function receives `used[k]`,
      copied when CopiesInput says so, with `raw[k]` kept exactly when `inplace_map` names `k`. */
  ghost predicate ArgWrapped(
    requiresGradFlags: seq<bool>, tensorTypeFlags: seq<bool>, args: seq<Value>,
    isTrainingMode: bool, inplaceMap: seq<int>, capture: Option<seq<nat>>,
    wrapped: seq<Value>, used: seq<Tensor>, raw: map<nat, Tensor>, next: nat, bound: nat, j: nat)
    requires j < |requiresGradFlags| && j < |tensorTypeFlags| && j < |args| && j < |wrapped|
  {
    if !tensorTypeFlags[j] then wrapped[j] == args[j]
    else
      var k := TensorCount(tensorTypeFlags, j);
      var copy := CopiesInput(isTrainingMode, capture, k);
      && args[j].TensorValue?
      && k < |used|
      && wrapped[j] == TensorValue(used[k])
      && WrappedInput(args[j].tensor, used[k], isTrainingMode && requiresGradFlags[j], copy, next, bound)
      && (k in raw <==> k in inplaceMap)
      && (k in raw ==> RawInput(args[j].tensor, used[k], raw[k], copy, next, bound))
  }

  /** Appending the next argument and raising the allocation bound keep earlier arguments wrapped. */
  lemma ArgWrappedStep(
    requiresGradFlags: seq<bool>, tensorTypeFlags: seq<bool>, args: seq<Value>,
    isTrainingMode: bool, inplaceMap: seq<int>, capture: Option<seq<nat>>,
    wrapped: seq<Value>, used: seq<Tensor>, raw: map<nat, Tensor>, next: nat, bound: nat,
    wrapped': seq<Value>, used': seq<Tensor>, raw': map<nat, Tensor>, bound': nat, j: nat)
    requires j < |requiresGradFlags| && j < |tensorTypeFlags| && j < |args| && j < |wrapped|
    requires ArgWrapped(requiresGradFlags, tensorTypeFlags, args, isTrainingMode, inplaceMap, capture,
      wrapped, used, raw, next, bound, j)
    requires tensorTypeFlags[j] ==> TensorCount(tensorTypeFlags, j) < |used|
    requires wrapped <= wrapped' && used <= used' && bound <= bound'
    requires forall k :: k < |used| ==> (k in raw' <==> k in raw) && (k in raw ==> raw'[k] == raw[k])
    ensures ArgWrapped(requiresGradFlags, tensorTypeFlags, args, isTrainingMode, inplaceMap, capture,
      wrapped', used', raw', next, bound', j)
  {
  }

  /** Some argument the zipped walk reaches is flagged as a tensor but is not one. */
  ghost predicate WrapFails(requiresGradFlags: seq<bool>, tensorTypeFlags: seq<bool>, args: seq<Value>)
  {
    var n := ArgCount(requiresGradFlags, tensorTypeFlags, args);
    exists j :: 0 <= j < n && tensorTypeFlags[j] && !args[j].TensorValue?
  }

  /** The first `j` arguments are wrapped as ArgWrapped says, with fresh objects and buffers
      drawn from [next, bound): tensor inputs numbered in order, new objects in increasing
      order, and every copy in a buffer of its own. */
  ghost predicate ArgsWrappedUpTo(
    requiresGradFlags: seq<bool>, tensorTypeFlags: seq<bool>, args: seq<Value>,
    isTrainingMode: bool, inplaceMap: seq<int>, capture: Option<seq<nat>>,
    wrapped: seq<Value>, used: seq<Tensor>, raw: map<nat, Tensor>, next: nat, bound: nat, j: nat)
  {
    && j <= |requiresGradFlags| && j <= |tensorTypeFlags| && j <= |args| && |wrapped| == j
    && |used| == TensorCount(tensorTypeFlags, j)
    && (forall i :: 0 <= i < j ==> ArgWrapped(requiresGradFlags, tensorTypeFlags, args, isTrainingMode,
          inplaceMap, capture, wrapped, used, raw, next, bound, i))
    && (forall k :: k in raw ==> k < |used|)
    && FreshInOrder(isTrainingMode, capture, used, next, bound)
  }

  /** `w` is what the forward wrapping loop produces from `args`: every argument the zipped
      walk reaches wrapped as ArgsWrappedUpTo says. */
  ghost predicate ForwardWrapped(
    requiresGradFlags: seq<bool>, tensorTypeFlags: seq<bool>, args: seq<Value>,
    isTrainingMode: bool, inplaceMap: seq<int>, capture: Option<seq<nat>>, w: ForwardInputs, next: nat, bound: nat)
  {
    ArgsWrappedUpTo(requiresGradFlags, tensorTypeFlags, args, isTrainingMode, inplaceMap, capture,
      w.wrapped, w.used, w.raw, next, bound, ArgCount(requiresGradFlags, tensorTypeFlags, args))
  }

  /** Appending argument `j` and raising the allocation bound keep every earlier argument wrapped. */
  lemma ArgWrappedPrefix(
    requiresGradFlags: seq<bool>, tensorTypeFlags: seq<bool>, args: seq<Value>,
    isTrainingMode: bool, inplaceMap: seq<int>, capture: Option<seq<nat>>,
    wrapped: seq<Value>, used: seq<Tensor>, raw: map<nat, Tensor>, next: nat, bound: nat,
    wrapped': seq<Value>, used': seq<Tensor>, raw': map<nat, Tensor>, bound': nat, j: nat)
    requires j < |requiresGradFlags| && j < |tensorTypeFlags| && j < |args| && j <= |wrapped|
    requires |used| == TensorCount(tensorTypeFlags, j)
    requires forall i :: 0 <= i < j ==> ArgWrapped(requiresGradFlags, tensorTypeFlags, args, isTrainingMode,
      inplaceMap, capture, wrapped, used, raw, next, bound, i)
    requires wrapped <= wrapped' && used <= used' && bound <= bound'
    requires forall k :: k < |used| ==> (k in raw' <==> k in raw) && (k in raw ==> raw'[k] == raw[k])
    ensures forall i :: 0 <= i < j ==> ArgWrapped(requiresGradFlags, tensorTypeFlags, args, isTrainingMode,
      inplaceMap, capture, wrapped', used', raw', next, bound', i)
  {
    forall i | 0 <= i < j
      ensures ArgWrapped(requiresGradFlags, tensorTypeFlags, args, isTrainingMode,
        inplaceMap, capture, wrapped', used', raw', next, bound', i)
    {
      if tensorTypeFlags[i] {
        TensorCountIncreases(tensorTypeFlags, i, j);
      }
      ArgWrappedStep(requiresGradFlags, tensorTypeFlags, args, isTrainingMode, inplaceMap, capture,
        wrapped, used, raw, next, bound, wrapped', used', raw', bound', i);
    }
  }

  /** The tensor the function receives for ORT tensor `t`: a view (object `token`) over ORT's
      buffer, or, when `copy`, a clone of that view (object and buffer `token + 1`), with
      requires_grad as given. */
  function ForwardArg(t: Tensor, token: nat, copy: bool, requiresGrad: bool): (u: Tensor)
    ensures u.meta == t.meta && u.content == t.content && u.requiresGrad == requiresGrad && u.gradFn.None?
    ensures copy ==> u.id == u.storage == token + 1
    ensures !copy ==> u.id == token && u.storage == t.storage
  {
    var view := FromDlpack(t, token);
    (if copy then Cloned(view, token + 1) else view).(requiresGrad := requiresGrad)
  }

  /** The new objects, and the copies' buffers, stay in increasing order below `bound`. */
  ghost predicate FreshInOrder(isTrainingMode: bool, capture: Option<seq<nat>>, used: seq<Tensor>, next: nat, bound: nat)
  {
    && (forall k :: 0 <= k < |used| ==> next <= used[k].id < bound)
    && (forall k1, k2 :: 0 <= k1 < k2 < |used| ==> used[k1].id < used[k2].id)
    && (forall k :: 0 <= k < |used| && CopiesInput(isTrainingMode, capture, k) ==> used[k].storage < bound)
    && (forall k1, k2 :: 0 <= k1 < k2 < |used| && CopiesInput(isTrainingMode, capture, k1) && CopiesInput(isTrainingMode, capture, k2)
          ==> used[k1].storage < used[k2].storage)
  }

  /** Appending a tensor drawn from [bound, bound') keeps the fresh objects and buffers in order. */
  lemma FreshInOrderStep(isTrainingMode: bool, capture: Option<seq<nat>>, used: seq<Tensor>, u: Tensor, next: nat, bound: nat, bound': nat)
    requires FreshInOrder(isTrainingMode, capture, used, next, bound)
    requires next <= bound <= u.id < bound'
    requires CopiesInput(isTrainingMode, capture, |used|) ==> bound <= u.storage < bound'
    ensures FreshInOrder(isTrainingMode, capture, used + [u], next, bound')
  {
    var used' := used + [u];
    forall k1, k2 | 0 <= k1 < k2 < |used'| && CopiesInput(isTrainingMode, capture, k1) && CopiesInput(isTrainingMode, capture, k2)
      ensures used'[k1].storage < used'[k2].storage
    {
      assert used'[k1] == used[k1];
    }
  }

  /** One step of the forward wrapping loop keeps the first `j + 1` arguments wrapped. */
  lemma ArgStep(
    requiresGradFlags: seq<bool>, tensorTypeFlags: seq<bool>, args: seq<Value>,
    isTrainingMode: bool, inplaceMap: seq<int>, capture: Option<seq<nat>>,
    wrapped: seq<Value>, used: seq<Tensor>, raw: map<nat, Tensor>, next: nat, bound: nat,
    wrapped': seq<Value>, used': seq<Tensor>, raw': map<nat, Tensor>, bound': nat, j: nat)
    requires j < |requiresGradFlags| && j < |tensorTypeFlags| && j < |args| && next <= bound
    requires ArgsWrappedUpTo(requiresGradFlags, tensorTypeFlags, args, isTrainingMode, inplaceMap, capture,
      wrapped, used, raw, next, bound, j)
    requires tensorTypeFlags[j] ==>
      && args[j].TensorValue?
      && var k := |used|;
      && var copy := CopiesInput(isTrainingMode, capture, k);
      && var u := ForwardArg(args[j].tensor, bound, copy, isTrainingMode && requiresGradFlags[j]);
      && wrapped' == wrapped + [TensorValue(u)]
      && used' == used + [u]
      && raw' == (if k in inplaceMap then raw[k := if copy then FromDlpack(args[j].tensor, bound) else u] else raw)
      && bound' == bound + (if copy then 2 else 1)
    requires !tensorTypeFlags[j] ==> wrapped' == wrapped + [args[j]] && used' == used && raw' == raw && bound' == bound
    ensures ArgsWrappedUpTo(requiresGradFlags, tensorTypeFlags, args, isTrainingMode, inplaceMap, capture,
      wrapped', used', raw', next, bound', j + 1)
  {
    ArgWrappedPrefix(requiresGradFlags, tensorTypeFlags, args, isTrainingMode, inplaceMap, capture,
      wrapped, used, raw, next, bound, wrapped', used', raw', bound', j);
    if tensorTypeFlags[j] {
      FreshInOrderStep(isTrainingMode, capture, used, used'[|used|], next, bound, bound');
      assert used' == used + [used'[|used|]];
    }
  }

  /** A higher allocation bound still bounds the wrapped arguments. */
  lemma ForwardWrappedRaise(
    requiresGradFlags: seq<bool>, tensorTypeFlags: seq<bool>, args: seq<Value>,
    isTrainingMode: bool, inplaceMap: seq<int>, capture: Option<seq<nat>>, w: ForwardInputs, next: nat, bound: nat, bound': nat)
    requires bound <= bound'
    requires ForwardWrapped(requiresGradFlags, tensorTypeFlags, args, isTrainingMode, inplaceMap, capture, w, next, bound)
    ensures ForwardWrapped(requiresGradFlags, tensorTypeFlags, args, isTrainingMode, inplaceMap, capture, w, next, bound')
  {
    var n := ArgCount(requiresGradFlags, tensorTypeFlags, args);
    forall j | 0 <= j < n
      ensures ArgWrapped(requiresGradFlags, tensorTypeFlags, args, isTrainingMode,
        inplaceMap, capture, w.wrapped, w.used, w.raw, next, bound', j)
    {
      ArgWrappedStep(requiresGradFlags, tensorTypeFlags, args, isTrainingMode, inplaceMap, capture,
        w.wrapped, w.used, w.raw, next, bound, w.wrapped, w.used, w.raw, bound', j);
    }
  }

  /** The forward wrapping loop (lines 351-389). Walks the zipped flags and arguments; tensor
      arguments are numbered in order, converted, copied when CopiesInput says so and given
      requires_grad only in training; other arguments pass through. Fails when an argument
      flagged as a tensor is not one. Fresh objects and buffers are drawn from `next`. */
  method WrapForwardArgs(
    requiresGradFlags: seq<bool>, tensorTypeFlags: seq<bool>, args: seq<Value>,
    isTrainingMode: bool, inplaceMap: seq<int>, capture: Option<seq<nat>>, next: nat)
    returns (r: Result<ForwardInputs, Error>, next': nat)
    ensures next <= next'
    ensures r.Failure? <==> WrapFails(requiresGradFlags, tensorTypeFlags, args)
    ensures r.Failure? ==> r.error == NotATensor
    ensures r.Success? ==>
      ForwardWrapped(requiresGradFlags, tensorTypeFlags, args, isTrainingMode, inplaceMap, capture, r.value, next, next')
  {
    var n := ArgCount(requiresGradFlags, tensorTypeFlags, args);
    var wrapped: seq<Value> := [];
    var used: seq<Tensor> := [];
    var raw: map<nat, Tensor> := map[];
    next' := next;
    var j := 0;
    while j < n
      invariant 0 <= j <= n && next <= next'
      invariant ArgsWrappedUpTo(requiresGradFlags, tensorTypeFlags, args, isTrainingMode, inplaceMap, capture,
        wrapped, used, raw, next, next', j)
    {
      ghost var (wrapped0, used0, raw0, next0) := (wrapped, used, raw, next');
      if tensorTypeFlags[j] {
        if !args[j].TensorValue? {
          return Failure(NotATensor), next';
        }
        var k := |used|;
        var view := FromDlpack(args[j].tensor, next');
        next' := next' + 1;
        var arg := view;
        var copy := CopiesInput(isTrainingMode, capture, k);
        if copy {
          arg := Cloned(view, next');
          next' := next' + 1;
        }
        arg := arg.(requiresGrad := isTrainingMode && requiresGradFlags[j]);
        if k in inplaceMap {
          raw := raw[k := if copy then view else arg];
        }
        wrapped := wrapped + [TensorValue(arg)];
        used := used + [arg];
      } else {
        wrapped := wrapped + [args[j]];
      }
      ArgStep(requiresGradFlags, tensorTypeFlags, args, isTrainingMode, inplaceMap, capture,
        wrapped0, used0, raw0, next, next0, wrapped, used, raw, next', j);
      j := j + 1;
    }
    forall i | 0 <= i < n && tensorTypeFlags[i] ensures args[i].TensorValue? {
      assert ArgWrapped(requiresGradFlags, tensorTypeFlags, args, isTrainingMode,
        inplaceMap, capture, wrapped, used, raw, next, next', i);
    }
    r := Success(ForwardInputs(wrapped, used, raw));
  }

  /** The function's result as a list: a tensor becomes a one-element list, a tuple or list
      is taken as it is; anything else, or an exception, is an error. */
  function NormalizeResult(result: FnResult): (r: Result<seq<Value>, Error>)
    ensures r.Success? <==> result.ReturnedTensor? || result.ReturnedSequence?
    ensures result.ReturnedTensor? ==> r.value == [TensorValue(result.t)]
    ensures result.ReturnedSequence? ==> r.value == result.items
    ensures result.Raised? ==> r.error == FunctionRaised(result.exception)
  {
    match result
    case ReturnedTensor(t) => Success([TensorValue(t)])
    case ReturnedSequence(items) => Success(items)
    case ReturnedOther => Failure(UnsupportedOutputType)
    case Raised(e) => Failure(FunctionRaised(e))
  }

  /** Every value can go through `to_dlpack`: a tensor, or None. */
  predicate Exportable(vs: seq<Value>)
  {
    forall i :: 0 <= i < |vs| ==> vs[i].TensorValue? || vs[i].NoneValue?
  }

  /** `to_dlpack` over the outputs: tensors and None pass, anything else cannot be exported. */
  function ExportOutputs(vs: seq<Value>): (r: Result<seq<Value>, Error>)
    ensures r.Success? <==> Exportable(vs)
    ensures r.Success? ==> r.value == vs
    ensures r.Failure? ==> r.error == NotATensor
  {
    if Exportable(vs) then Success(vs) else Failure(NotATensor)
  }

  // ---------------------------------------------------------------------------
  // The autograd context

  /** An output carrying the autograd context: a tensor whose grad_fn is set. */
  predicate OwnsContext(v: Value)
  {
    v.TensorValue? && v.tensor.gradFn.Some?
  }

  /** `_get_context`: the first output that carries a context, which owns it; None when no
      output does (the function is not differentiable). */
  function GetContext(outputs: seq<Value>): (owner: Option<Tensor>)
    ensures owner.None? <==> forall i :: 0 <= i < |outputs| ==> !OwnsContext(outputs[i])
    ensures owner.Some? ==>
      exists i :: 0 <= i < |outputs| && outputs[i] == TensorValue(owner.value) && OwnsContext(outputs[i])
        && forall j :: 0 <= j < i ==> !OwnsContext(outputs[j])
  {
    if |outputs| == 0 then None
    else if OwnsContext(outputs[0]) then Some(outputs[0].tensor)
    else
      var owner := GetContext(outputs[1..]);
      assert forall i :: 1 <= i < |outputs| ==> outputs[i] == outputs[1..][i - 1];
      if owner.Some? then
        var i :| 0 <= i < |outputs[1..]| && outputs[1..][i] == TensorValue(owner.value) && OwnsContext(outputs[1..][i])
          && forall j :: 0 <= j < i ==> !OwnsContext(outputs[1..][j]);
        assert outputs[i + 1] == TensorValue(owner.value);
        owner
      else owner
  }

  /** The context's saved tensors without the None entries. */
  function PresentTensors(saved: seq<Option<Tensor>>): (present: seq<Tensor>)
  {
    if |saved| == 0 then []
    else
      var n := |saved| - 1;
      PresentTensors(saved[..n]) + (if saved[n].Some? then [saved[n].value] else [])
  }

  lemma {:induction false} PresentTensorsExact(saved: seq<Option<Tensor>>)
    ensures forall t :: t in PresentTensors(saved) <==> Some(t) in saved
  {
    if |saved| > 0 {
      var n := |saved| - 1;
      PresentTensorsExact(saved[..n]);
      assert saved == saved[..n] + [saved[n]];
    }
  }

  /** `t` is one of the saved tensors: the same Python object (`is`). */
  predicate IsSavedIn(t: Tensor, saved: seq<Tensor>)
  {
    exists i :: 0 <= i < |saved| && saved[i].id == t.id
  }

  /** The tensor input indices whose tensor the context saved, in index order. */
  function CapturedIndices(used: seq<Tensor>, saved: seq<Tensor>): (indices: seq<nat>)
  {
    if |used| == 0 then []
    else
      var n := |used| - 1;
      CapturedIndices(used[..n], saved) + (if IsSavedIn(used[n], saved) then [n] else [])
  }

  /** The learned capture list holds exactly the inputs the context saved, in increasing order. */
  lemma {:induction false} CapturedIndicesExact(used: seq<Tensor>, saved: seq<Tensor>)
    ensures var r := CapturedIndices(used, saved);
      && (forall k: nat :: k in r <==> k < |used| && IsSavedIn(used[k], saved))
      && (forall i, j :: 0 <= i < j < |r| ==> r[i] < r[j])
  {
    if |used| > 0 {
      var n := |used| - 1;
      CapturedIndicesExact(used[..n], saved);
      assert forall k :: 0 <= k < n ==> used[..n][k] == used[k];
      var prefix := CapturedIndices(used[..n], saved);
      assert forall i :: 0 <= i < |prefix| ==> prefix[i] in prefix;
    }
  }

  /** The per-output metadata recorded when the context materializes gradients: every tensor
      output's device, dtype and shape, keyed by output index. */
  method RecordMaterializeConfig(outputs: seq<Value>) returns (config: map<nat, Meta>)
    ensures forall i: nat :: i in config <==> i < |outputs| && outputs[i].TensorValue?
    ensures forall i: nat :: i in config ==> i < |outputs| && config[i] == outputs[i].tensor.meta
  {
    config := map[];
    var i := 0;
    while i < |outputs|
      invariant 0 <= i <= |outputs|
      invariant forall o: nat :: o in config <==> o < i && outputs[o].TensorValue?
      invariant forall o: nat :: o in config ==> o < |outputs| && config[o] == outputs[o].tensor.meta
    {
      if outputs[i].TensorValue? {
        config := config[i := outputs[i].tensor.meta];
      }
      i := i + 1;
    }
  }

  /** What the first training run learns from the context `c` it found. */
  ghost predicate LearnedFromContext(info: KernelInfo, c: Context, used: seq<Tensor>, outputs: seq<Value>)
    reads info
  {
    var saved := PresentTensors(c.savedTensors);
    && info.tensorInputIndicesToSaveInCtx == Some(if |saved| > 0 then CapturedIndices(used, saved) else [])
    && info.materializeGrads == c.materializeGrads
    && info.materializeGradsConfig.Some?
    && (forall i: nat :: i in info.materializeGradsConfig.value <==>
          c.materializeGrads && i < |outputs| && outputs[i].TensorValue?)
    && (forall i: nat :: i in info.materializeGradsConfig.value ==>
          i < |outputs| && info.materializeGradsConfig.value[i] == outputs[i].tensor.meta)
  }

  /** What a first training run learns from its outputs: everything LearnedFromContext says
      when an output carries a context, and otherwise only that no input needs a copy. */
  ghost predicate LearnedFromOutputs(info: KernelInfo, used: seq<Tensor>, outputs: seq<Value>)
    reads info
  {
    var owner := GetContext(outputs);
    if owner.Some? then LearnedFromContext(info, owner.value.gradFn.value, used, outputs)
    else info.tensorInputIndicesToSaveInCtx == Some([])
  }

  /** `_finalize_training_mode_forward`. With no context the function is not differentiable:
      the first run learns that no input needs a copy. Otherwise the context is tagged with
      the kernel's id and kept alive in the pool, and the first run learns the capture list
      and the gradient-materialization policy. */
  method FinalizeTrainingModeForward(
    info: KernelInfo, pool: ContextPool, kernelInvokeId: string, used: seq<Tensor>, outputs: seq<Value>)
    returns (ctx: Option<Context>)
    modifies info, pool
    ensures info.outputIndicesForClone == old(info.outputIndicesForClone)
    ensures GetContext(outputs).None? ==>
      && ctx.None?
      && pool.registered == old(pool.registered)
      && info.tensorInputIndicesToSaveInCtx == (if old(info.tensorInputIndicesToSaveInCtx).None? then Some([]) else old(info.tensorInputIndicesToSaveInCtx))
      && info.materializeGrads == old(info.materializeGrads)
      && info.materializeGradsConfig == old(info.materializeGradsConfig)
    ensures GetContext(outputs).Some? ==>
      var c := GetContext(outputs).value.gradFn.value;
      && ctx == Some(c.(fwKernelInvokeId := Some(kernelInvokeId)))
      && pool.registered == old(pool.registered) + {c.key}
      && if old(info.tensorInputIndicesToSaveInCtx).None? then LearnedFromContext(info, c, used, outputs)
         else
           && info.tensorInputIndicesToSaveInCtx == old(info.tensorInputIndicesToSaveInCtx)
           && info.materializeGrads == old(info.materializeGrads)
           && info.materializeGradsConfig == old(info.materializeGradsConfig)
  {
    var owner := GetContext(outputs);
    if owner.None? {
      if info.tensorInputIndicesToSaveInCtx.None? {
        info.tensorInputIndicesToSaveInCtx := Some([]);
      }
      return None;
    }
    var c := owner.value.gradFn.value;
    var saved := PresentTensors(c.savedTensors);
    ctx := Some(c.(fwKernelInvokeId := Some(kernelInvokeId)));
    if info.tensorInputIndicesToSaveInCtx.None? {
      info.tensorInputIndicesToSaveInCtx := Some([]);
      if |saved| > 0 {
        info.tensorInputIndicesToSaveInCtx := Some(CapturedIndices(used, saved));
      }
      info.materializeGrads := c.materializeGrads;
      var config: map<nat, Meta> := map[];
      if info.materializeGrads {
        config := RecordMaterializeConfig(outputs);
      }
      info.materializeGradsConfig := Some(config);
    }
    pool.Register(c.key);
  }

  /** Every context a training run keeps alive has its saved tensors exactly captured: on
      the first run the learned list names precisely the inputs the context saved. */
  lemma CaptureListNamesSavedInputs(info: KernelInfo, c: Context, used: seq<Tensor>, outputs: seq<Value>, k: nat)
    requires LearnedFromContext(info, c, used, outputs)
    ensures k in info.tensorInputIndicesToSaveInCtx.value <==>
      k < |used| && exists t :: Some(t) in c.savedTensors && t.id == used[k].id
  {
    var saved := PresentTensors(c.savedTensors);
    PresentTensorsExact(c.savedTensors);
    CapturedIndicesExact(used, saved);
    if k < |used| && IsSavedIn(used[k], saved) {
      var i :| 0 <= i < |saved| && saved[i].id == used[k].id;
      assert saved[i] in saved;
    }
    if k < |used| && exists t :: Some(t) in c.savedTensors && t.id == used[k].id {
      var t :| Some(t) in c.savedTensors && t.id == used[k].id;
      assert t in saved;
      var i :| 0 <= i < |saved| && saved[i] == t;
      assert IsSavedIn(used[k], saved);
    }
  }

  // ---------------------------------------------------------------------------
  // The bridge

  /** Slot 0 of the forward result: the context, or None. */
  function ContextOrNone(ctx: Option<Context>): (v: Value)
    ensures v.CtxValue? <==> ctx.Some?
  {
    if ctx.Some? then CtxValue(ctx.value) else NoneValue
  }

  /** The context `_finalize_training_mode_forward` returns for the outputs: the first
      output's grad_fn tagged with the kernel id, in training only. */
  function ForwardContext(isTrainingMode: bool, results: seq<Value>, kernelInvokeId: string): (ctx: Option<Context>)
    ensures ctx.Some? ==> isTrainingMode && ctx.value.fwKernelInvokeId == Some(kernelInvokeId)
  {
    if isTrainingMode && GetContext(results).Some? then
      Some(GetContext(results).value.gradFn.value.(fwKernelInvokeId := Some(kernelInvokeId)))
    else None
  }

  /** The forward inputs used for the run, as `_process_inplace_outputs` takes them. */
  function UsedInputs(used: seq<Tensor>): seq<Option<Tensor>>
  {
    seq(|used|, k requires 0 <= k < |used| => Some(used[k]))
  }

  /** The raw forward inputs kept for in-place use, as `_process_inplace_outputs` takes them. */
  function RawInputs(raw: map<nat, Tensor>): map<nat, Option<Tensor>>
  {
    map k | k in raw :: Some(raw[k])
  }

  /** `final_rets`: the context slot followed by the function's outputs. */
  function OutputsWithContext(isTrainingMode: bool, results: seq<Value>, kernelInvokeId: string): (outs: seq<Value>)
    ensures |outs| == 1 + |results| && outs[1..] == results
    ensures outs[0].CtxValue? ==> isTrainingMode && outs[0].ctx.fwKernelInvokeId == Some(kernelInvokeId)
  {
    [ContextOrNone(ForwardContext(isTrainingMode, results, kernelInvokeId))] + results
  }

  /** What a bridge hands back once the function returned and its results were laid out as
      `before` (in forward, after the context slot): the list goes through
      `_process_inplace_outputs`, which leaves `cloned` after the clone step and `processed`
      at the end; the call succeeds exactly when that processing passes and every result
      can be exported, and then returns `processed`; every failure is a Fallback. */
  ghost predicate HandedBack(
    before: seq<Value>, cloned: seq<Value>, processed: seq<Value>, r: Result<seq<Value>, Error>,
    clone: Option<seq<nat>>, capture: Option<seq<nat>>, declared: seq<int>,
    used: seq<Option<Tensor>>, raw: map<nat, Option<Tensor>>, isBackward: bool, next: nat)
  {
    var skip := if isBackward then 0 else 1;
    && |processed| == |before| >= skip
    && InplaceProcessed(before, cloned, processed, clone, capture, declared, used, raw, isBackward, next)
    && (r.Success? <==>
          InplacePasses(before, cloned, clone, capture, declared, used, raw, isBackward) && Exportable(processed[skip..]))
    && (r.Success? ==> r.value == processed)
    && (r.Failure? ==> r.error.Fallback?)
  }

  /** A lower allocation bound still bounds the clones. */
  lemma HandedBackLower(
    before: seq<Value>, cloned: seq<Value>, processed: seq<Value>, r: Result<seq<Value>, Error>,
    clone: Option<seq<nat>>, capture: Option<seq<nat>>, declared: seq<int>,
    used: seq<Option<Tensor>>, raw: map<nat, Option<Tensor>>, isBackward: bool, next: nat, lower: nat)
    requires lower <= next
    requires HandedBack(before, cloned, processed, r, clone, capture, declared, used, raw, isBackward, next)
    ensures HandedBack(before, cloned, processed, r, clone, capture, declared, used, raw, isBackward, lower)
  {
    InplaceProcessedLower(before, cloned, processed, clone, capture, declared, used, raw, isBackward, next, lower);
  }

  /** `written` lists exactly the raw inputs whose ORT buffers received a copy_: none unless
      the write-back runs, and then every raw input that was copied. */
  ghost predicate WrittenInputs(written: seq<nat>, runs: bool, raw: map<nat, Option<Tensor>>, addresses: seq<int>)
  {
    forall k: nat :: k in written <==> runs && Copied(raw, addresses, k)
  }

  /** The run after the kernel's entry is found: wrap, call, then FinishForward. Only the
      entry `info` and the pool change. `w` is what the function received; `cloned` and
      `processed` are the output list after the clone step and after the whole of
      `_process_inplace_outputs`. */
  method ForwardOnEntry(
    info: KernelInfo, pool: ContextPool, forwardFunction: (seq<Value>, bool) -> FnResult,
    requiresGradFlags: seq<bool>, tensorTypeFlags: seq<bool>, isTrainingMode: bool,
    inplaceMap: seq<int>, kernelInvokeId: string, args: seq<Value>, next: nat)
    returns (r: Result<seq<Value>, Error>, written: seq<nat>, next': nat,
      ghost w: ForwardInputs, ghost cloned: seq<Value>, ghost processed: seq<Value>)
    requires TokensBelow(args, next)
    modifies info, pool
    ensures next <= next'
    ensures old(info.outputIndicesForClone).Some? ==> info.outputIndicesForClone == old(info.outputIndicesForClone)
    ensures old(info.tensorInputIndicesToSaveInCtx).Some? || !isTrainingMode ==>
      && info.tensorInputIndicesToSaveInCtx == old(info.tensorInputIndicesToSaveInCtx)
      && info.materializeGrads == old(info.materializeGrads)
      && info.materializeGradsConfig == old(info.materializeGradsConfig)
    ensures !isTrainingMode ==> pool.registered == old(pool.registered)
    ensures old(pool.registered) <= pool.registered
    ensures forall k1, k2 :: k1 in pool.registered - old(pool.registered) && k2 in pool.registered - old(pool.registered) ==> k1 == k2
    ensures r.Failure? ==> r.error.Fallback?
    // the arguments the function received
    ensures WrapFails(requiresGradFlags, tensorTypeFlags, args) ==>
      r == Failure(Fallback(NotATensor)) && unchanged(info) && pool.registered == old(pool.registered)
    ensures !WrapFails(requiresGradFlags, tensorTypeFlags, args) ==>
      ForwardWrapped(requiresGradFlags, tensorTypeFlags, args, isTrainingMode, inplaceMap,
        old(info.tensorInputIndicesToSaveInCtx), w, next, next')
    // what it returned, what a first run learns from it, and what is handed back
    ensures !WrapFails(requiresGradFlags, tensorTypeFlags, args) ==>
      var results := NormalizeResult(forwardFunction(w.wrapped, isTrainingMode));
      && (results.Failure? ==>
            r == Failure(Fallback(results.error)) && unchanged(info) && pool.registered == old(pool.registered))
      && (results.Success? ==>
            var ctx := ForwardContext(isTrainingMode, results.value, kernelInvokeId);
            var used, raw := UsedInputs(w.used), RawInputs(w.raw);
            && (isTrainingMode && old(info.tensorInputIndicesToSaveInCtx).None? ==> LearnedFromOutputs(info, w.used, results.value))
            && info.outputIndicesForClone == LearnedClones(OutputsWithContext(isTrainingMode, results.value, kernelInvokeId),
                 old(info.outputIndicesForClone), inplaceMap, AddressList(used, false))
            && HandedBack(OutputsWithContext(isTrainingMode, results.value, kernelInvokeId), cloned, processed, r,
                 old(info.outputIndicesForClone), info.tensorInputIndicesToSaveInCtx, inplaceMap, used, raw, false, next)
            && (r.Success? ==>
                  && (ctx.Some? ==> ctx.value.key in pool.registered)
                  && WrittenInputs(written,
                       WriteBackRuns(false, old(info.outputIndicesForClone).None?, info.tensorInputIndicesToSaveInCtx),
                       raw, AddressList(used, false))))
    ensures r.Success? ==>
      && info.outputIndicesForClone.Some?
      && (isTrainingMode ==> info.tensorInputIndicesToSaveInCtx.Some?)
  {
    written, next' := [], next;
    w, cloned, processed := ForwardInputs([], [], map[]), [], [];
    var capture := info.tensorInputIndicesToSaveInCtx;
    var inputs;
    inputs, next' := WrapForwardArgs(requiresGradFlags, tensorTypeFlags, args, isTrainingMode, inplaceMap,
      capture, next);
    if inputs.Failure? {
      return Failure(Fallback(inputs.error)), written, next', w, cloned, processed;
    }
    var wrapped := inputs.value;
    w := wrapped;
    forall k | 0 <= k < |wrapped.used| ensures wrapped.used[k].storage < next' {
      var n := ArgCount(requiresGradFlags, tensorTypeFlags, args);
      TensorCountOnto(tensorTypeFlags, n, k);
      var j :| 0 <= j < n && tensorTypeFlags[j] && TensorCount(tensorTypeFlags, j) == k;
      assert ArgWrapped(requiresGradFlags, tensorTypeFlags, args, isTrainingMode,
        inplaceMap, capture, wrapped.wrapped, wrapped.used, wrapped.raw, next, next', j);
    }
    var results := NormalizeResult(forwardFunction(wrapped.wrapped, isTrainingMode));
    if results.Failure? {
      return Failure(Fallback(results.error)), written, next', w, cloned, processed;
    }
    ghost var wrapBound := next';
    r, written, next', cloned, processed := FinishForward(info, pool, results.value, wrapped, isTrainingMode,
      inplaceMap, kernelInvokeId, next');
    HandedBackLower(OutputsWithContext(isTrainingMode, results.value, kernelInvokeId), cloned, processed, r,
      old(info.outputIndicesForClone), info.tensorInputIndicesToSaveInCtx, inplaceMap,
      UsedInputs(wrapped.used), RawInputs(wrapped.raw), false, wrapBound, next);
    ForwardWrappedRaise(requiresGradFlags, tensorTypeFlags, args, isTrainingMode, inplaceMap, capture, wrapped,
      next, wrapBound, next');
  }

  /** Everything after the forward function returned `results`: finalize the context in
      training, then process in-place outputs and export. */
  method FinishForward(
    info: KernelInfo, pool: ContextPool, results: seq<Value>, w: ForwardInputs, isTrainingMode: bool,
    inplaceMap: seq<int>, kernelInvokeId: string, next: nat)
    returns (r: Result<seq<Value>, Error>, written: seq<nat>, next': nat, ghost cloned: seq<Value>, ghost processed: seq<Value>)
    requires forall k :: 0 <= k < |w.used| ==> w.used[k].storage < next
    requires forall k :: k in w.raw ==> k < |w.used|
    modifies info, pool
    ensures next <= next'
    ensures old(info.outputIndicesForClone).Some? ==> info.outputIndicesForClone == old(info.outputIndicesForClone)
    ensures old(info.tensorInputIndicesToSaveInCtx).Some? || !isTrainingMode ==>
      && info.tensorInputIndicesToSaveInCtx == old(info.tensorInputIndicesToSaveInCtx)
      && info.materializeGrads == old(info.materializeGrads)
      && info.materializeGradsConfig == old(info.materializeGradsConfig)
    ensures !isTrainingMode ==> pool.registered == old(pool.registered)
    ensures old(pool.registered) <= pool.registered
    ensures forall k1, k2 :: k1 in pool.registered - old(pool.registered) && k2 in pool.registered - old(pool.registered) ==> k1 == k2
    // what a first run learns
    ensures isTrainingMode && old(info.tensorInputIndicesToSaveInCtx).None? ==>
      && LearnedFromOutputs(info, w.used, results)
      && (GetContext(results).None? ==>
            info.materializeGrads == old(info.materializeGrads) && info.materializeGradsConfig == old(info.materializeGradsConfig))
    ensures info.outputIndicesForClone == LearnedClones(OutputsWithContext(isTrainingMode, results, kernelInvokeId),
      old(info.outputIndicesForClone), inplaceMap, AddressList(UsedInputs(w.used), false))
    ensures HandedBack(OutputsWithContext(isTrainingMode, results, kernelInvokeId), cloned, processed, r,
      old(info.outputIndicesForClone), info.tensorInputIndicesToSaveInCtx, inplaceMap,
      UsedInputs(w.used), RawInputs(w.raw), false, next)
    ensures r.Success? ==>
      var ctx := ForwardContext(isTrainingMode, results, kernelInvokeId);
      && info.outputIndicesForClone.Some?
      && (isTrainingMode ==> info.tensorInputIndicesToSaveInCtx.Some?)
      && (ctx.Some? ==> ctx.value.key in pool.registered)
      && WrittenInputs(written,
           WriteBackRuns(false, old(info.outputIndicesForClone).None?, info.tensorInputIndicesToSaveInCtx),
           RawInputs(w.raw), AddressList(UsedInputs(w.used), false))
  {
    next' := next;
    var bound := TokenBound(results);
    if next' < bound {
      next' := bound;
    }
    var ctx: Option<Context> := None;
    if isTrainingMode {
      ctx := FinalizeTrainingModeForward(info, pool, kernelInvokeId, w.used, results);
    }
    assert ctx == ForwardContext(isTrainingMode, results, kernelInvokeId);
    ghost var cloneBase := next';
    var used := UsedInputs(w.used);
    r, written, next', cloned, processed := ExportForwardOutputs(info, ctx, results, inplaceMap, used,
      RawInputs(w.raw), next');
    HandedBackLower(OutputsWithContext(isTrainingMode, results, kernelInvokeId), cloned, processed, r,
      old(info.outputIndicesForClone), info.tensorInputIndicesToSaveInCtx, inplaceMap, used, RawInputs(w.raw),
      false, cloneBase, next);
  }

  /** The tail of the forward bridge: the context (or None) followed by the outputs goes
      through `_process_inplace_outputs`, then every output is exported. `cloned` and
      `processed` are the list after the clone step and after the whole processing. */
  method ExportForwardOutputs(
    info: KernelInfo, ctx: Option<Context>, results: seq<Value>, inplaceMap: seq<int>,
    used: seq<Option<Tensor>>, raw: map<nat, Option<Tensor>>, next: nat)
    returns (r: Result<seq<Value>, Error>, written: seq<nat>, next': nat, ghost cloned: seq<Value>, ghost processed: seq<Value>)
    requires forall k :: k in raw ==> k < |used|
    requires forall k :: 0 <= k < |used| && used[k].Some? ==> used[k].value.storage < next
    modifies info
    ensures next <= next'
    ensures info.tensorInputIndicesToSaveInCtx == old(info.tensorInputIndicesToSaveInCtx)
    ensures info.materializeGrads == old(info.materializeGrads)
    ensures info.materializeGradsConfig == old(info.materializeGradsConfig)
    ensures old(info.outputIndicesForClone).Some? ==> info.outputIndicesForClone == old(info.outputIndicesForClone)
    ensures info.outputIndicesForClone ==
      LearnedClones([ContextOrNone(ctx)] + results, old(info.outputIndicesForClone), inplaceMap, AddressList(used, false))
    ensures HandedBack([ContextOrNone(ctx)] + results, cloned, processed, r, old(info.outputIndicesForClone),
      info.tensorInputIndicesToSaveInCtx, inplaceMap, used, raw, false, next)
    ensures r.Success? ==>
      && info.outputIndicesForClone.Some?
      && r.value[0] == ContextOrNone(ctx)
      && WrittenInputs(written,
           WriteBackRuns(false, old(info.outputIndicesForClone).None?, info.tensorInputIndicesToSaveInCtx),
           raw, AddressList(used, false))
  {
    var head := ContextOrNone(ctx);
    var finalRets := new Value[1 + |results|](i requires 0 <= i < 1 + |results| =>
      if i == 0 then head else results[i - 1]);
    ghost var before := finalRets[..];
    assert before == [head] + results;
    var outcome;
    outcome, written, next', cloned := ProcessInplaceOutputs(info, finalRets, inplaceMap, used, raw, false, next);
    processed := finalRets[..];
    if outcome.Fail? {
      return Failure(Fallback(outcome.error)), written, next', cloned, processed;
    }
    var exported := ExportOutputs(finalRets[1..]);
    if exported.Failure? {
      return Failure(Fallback(exported.error)), written, next', cloned, processed;
    }
    NonTensorOutputKept(before, cloned, processed, inplaceMap, raw, AddressList(used, false),
      info.outputIndicesForClone.value, next, 0);
    assert processed == [finalRets[0]] + exported.value;
    r := Success([finalRets[0]] + exported.value);
  }

  /** `call_python_forward_function`. Looks up (or creates) the kernel's entry, wraps the
      arguments, runs the function with autograd on only in training, finalizes the context
      in training, post-processes in-place outputs and returns the context (or None) followed
      by the outputs. Any failure surfaces as a Fallback. Only this kernel's entry changes,
      and what it learned before is kept. `written` lists the raw inputs whose ORT buffers
      received a copy_. */
  method CallPythonForwardFunction(
    store: KernelInfoMap, pool: ContextPool, forwardFunction: (seq<Value>, bool) -> FnResult,
    requiresGradFlags: seq<bool>, tensorTypeFlags: seq<bool>, isTrainingMode: bool,
    inplaceMap: seq<int>, kernelInvokeId: string, args: seq<Value>, next: nat)
    returns (r: Result<seq<Value>, Error>, written: seq<nat>, next': nat,
      ghost w: ForwardInputs, ghost cloned: seq<Value>, ghost processed: seq<Value>)
    requires store.Valid()
    requires TokensBelow(args, next)
    modifies store, store.entries.Values, pool
    ensures next <= next'
    ensures store.Valid() && kernelInvokeId in store.entries
    ensures forall id :: id in old(store.entries) ==> id in store.entries && store.entries[id] == old(store.entries[id])
    ensures forall id :: id in old(store.entries) && id != kernelInvokeId ==> unchanged(store.entries[id])
    ensures kernelInvokeId in old(store.entries) && old(store.entries[kernelInvokeId].outputIndicesForClone).Some? ==>
      store.entries[kernelInvokeId].outputIndicesForClone == old(store.entries[kernelInvokeId].outputIndicesForClone)
    ensures (kernelInvokeId in old(store.entries) &&
      (old(store.entries[kernelInvokeId].tensorInputIndicesToSaveInCtx).Some? || !isTrainingMode)) ==>
      && store.entries[kernelInvokeId].tensorInputIndicesToSaveInCtx == old(store.entries[kernelInvokeId].tensorInputIndicesToSaveInCtx)
      && store.entries[kernelInvokeId].materializeGrads == old(store.entries[kernelInvokeId].materializeGrads)
      && store.entries[kernelInvokeId].materializeGradsConfig == old(store.entries[kernelInvokeId].materializeGradsConfig)
    ensures !isTrainingMode && kernelInvokeId !in old(store.entries) ==>
      store.entries[kernelInvokeId].tensorInputIndicesToSaveInCtx.None?
    ensures !isTrainingMode ==> pool.registered == old(pool.registered)
    ensures old(pool.registered) <= pool.registered
    ensures forall k1, k2 :: k1 in pool.registered - old(pool.registered) && k2 in pool.registered - old(pool.registered) ==> k1 == k2
    ensures r.Failure? ==> r.error.Fallback?
    // the arguments the function received
    ensures WrapFails(requiresGradFlags, tensorTypeFlags, args) ==>
      r == Failure(Fallback(NotATensor)) && pool.registered == old(pool.registered)
    ensures !WrapFails(requiresGradFlags, tensorTypeFlags, args) ==>
      ForwardWrapped(requiresGradFlags, tensorTypeFlags, args, isTrainingMode, inplaceMap,
        old(store.LearnedCaptureList(kernelInvokeId)), w, next, next')
    // what it returned, what a first run learns from it, and what is handed back
    ensures !WrapFails(requiresGradFlags, tensorTypeFlags, args) ==>
      var results := NormalizeResult(forwardFunction(w.wrapped, isTrainingMode));
      var entry := store.entries[kernelInvokeId];
      && (results.Failure? ==> r == Failure(Fallback(results.error)) && pool.registered == old(pool.registered))
      && (results.Success? ==>
            var ctx := ForwardContext(isTrainingMode, results.value, kernelInvokeId);
            var used, raw := UsedInputs(w.used), RawInputs(w.raw);
            var capture := entry.tensorInputIndicesToSaveInCtx;
            && (isTrainingMode && old(store.LearnedCaptureList(kernelInvokeId)).None? ==>
                  LearnedFromOutputs(entry, w.used, results.value))
            && entry.outputIndicesForClone == LearnedClones(OutputsWithContext(isTrainingMode, results.value, kernelInvokeId),
                 old(store.LearnedCloneList(kernelInvokeId)), inplaceMap, AddressList(used, false))
            && HandedBack(OutputsWithContext(isTrainingMode, results.value, kernelInvokeId), cloned, processed, r,
                 old(store.LearnedCloneList(kernelInvokeId)), capture, inplaceMap, used, raw, false, next)
            && (r.Success? ==>
                  && (ctx.Some? ==> ctx.value.key in pool.registered)
                  && WrittenInputs(written, WriteBackRuns(false, old(store.LearnedCloneList(kernelInvokeId)).None?, capture),
                       raw, AddressList(used, false))))
    ensures r.Success? ==>
      && store.entries[kernelInvokeId].outputIndicesForClone.Some?
      && (isTrainingMode ==> store.entries[kernelInvokeId].tensorInputIndicesToSaveInCtx.Some?)
  {
    var info := store.GetOrCreate(kernelInvokeId);
    r, written, next', w, cloned, processed := ForwardOnEntry(info, pool, forwardFunction, requiresGradFlags, tensorTypeFlags,
      isTrainingMode, inplaceMap, kernelInvokeId, args, next);
  }
}
