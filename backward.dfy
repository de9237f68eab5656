/** `call_python_backward_function`: how ORT's gradient arguments are turned into what the
    autograd.Function's backward receives (absent gradients materialized as zeros when the
    forward context asked for it), and how its results are handed back and the context
    released. */
module BackwardBridge {
  import opened Tensors
  import opened KernelInfoStore
  import opened Aliasing
  import opened ForwardBridge

  /** The forward kernel's gradient policy as the backward bridge reads it from that
      kernel's entry. */
  datatype MaterializePolicy = MaterializePolicy(materializeGrads: bool, config: Option<map<nat, Meta>>)

  /** The policy stored in a kernel entry. */
  function PolicyOf(info: KernelInfo): (p: MaterializePolicy)
    reads info
  {
    MaterializePolicy(info.materializeGrads, info.materializeGradsConfig)
  }

  /** The policy the backward bridge reads for forward kernel `id`: that kernel's entry's, or
      none when the kernel has no entry. */
  function PolicyIn(store: KernelInfoMap, id: string): (p: Option<MaterializePolicy>)
    reads store, store.entries.Values
    ensures p.Some? <==> id in store.entries
  {
    if id in store.entries then Some(PolicyOf(store.entries[id])) else None
  }

  /** The tensor (or None) the backward function receives for tensor argument `j`: a present
      gradient is converted to a new object over the same buffer; an absent one stays None,
      or, when the forward context materializes gradients, becomes zeros shaped like forward
      output `j - 1` (argument 0 is the context). Reading the policy of a forward kernel that
      has no entry, or the shape of an output it did not record, is an error. */
  function GradInput(arg: Value, j: nat, policy: Option<MaterializePolicy>, token: nat): (g: Result<Option<Tensor>, Error>)
  {
    if arg.NoneValue? then
      if policy.None? then Failure(KeyNotFound)
      else if !policy.value.materializeGrads then Success(None)
      else if policy.value.config.None? || j == 0 || (j - 1) !in policy.value.config.value then Failure(KeyNotFound)
      else Success(Some(ZerosOf(policy.value.config.value[j - 1], token)))
    else if arg.TensorValue? then Success(Some(FromDlpack(arg.tensor, token)))
    else Failure(NotATensor)
  }

  /** `u` is what backward argument `arg` (at position `j`) becomes: a new object drawn from
      [next, bound), over the gradient's own buffer, or over a fresh zero buffer shaped by the
      recorded policy, or None for an absent gradient that is not materialized. */
  ghost predicate GradReceived(arg: Value, j: nat, policy: Option<MaterializePolicy>, u: Option<Tensor>,
    requiresGrad: bool, next: nat, bound: nat)
  {
    && (u.Some? ==> u.value.requiresGrad == requiresGrad && u.value.gradFn.None? && next <= u.value.id < bound)
    && match arg
       case TensorValue(t) =>
         u.Some? && u.value.storage == t.storage && u.value.meta == t.meta && u.value.content == t.content
       case NoneValue =>
         && policy.Some?
         && if !policy.value.materializeGrads then u.None?
            else
              && policy.value.config.Some? && j >= 1 && j - 1 in policy.value.config.value
              && u.Some? && u.value.content == Zeros && u.value.meta == policy.value.config.value[j - 1]
              && next <= u.value.storage < bound
       case _ => false
  }

  /** What the backward wrapping loop produces: the argument list for the function, the tensor
      inputs used for the run (None for an absent gradient) by tensor input index, and the raw
      inputs kept for arguments that `inplace_map` names, keyed by tensor input index + 1. */
  datatype BackwardInputs = BackwardInputs(wrapped: seq<Value>, used: seq<Option<Tensor>>, raw: map<nat, Option<Tensor>>)

  /** Argument `j` is wrapped as the backward loop does. The raw inputs are keyed by the
      running tensor input index, which starts at 1 to skip the context, while `inplace_map`
      is tested with the argument position `j`. */
  ghost predicate GradWrapped(
    requiresGradFlags: seq<bool>, tensorTypeFlags: seq<bool>, args: seq<Value>,
    isTrainingMode: bool, inplaceMap: seq<int>, policy: Option<MaterializePolicy>,
    wrapped: seq<Value>, used: seq<Option<Tensor>>, raw: map<nat, Option<Tensor>>, next: nat, bound: nat, j: nat)
    requires j < |requiresGradFlags| && j < |tensorTypeFlags| && j < |args| && j < |wrapped|
  {
    if !tensorTypeFlags[j] then wrapped[j] == args[j]
    else
      var k := TensorCount(tensorTypeFlags, j);
      && k < |used|
      && wrapped[j] == (if used[k].Some? then TensorValue(used[k].value) else NoneValue)
      && GradReceived(args[j], j, policy, used[k], isTrainingMode && requiresGradFlags[j], next, bound)
      && (k + 1 in raw <==> j in inplaceMap)
      && (k + 1 in raw ==> raw[k + 1] == used[k])
  }

  /** Appending the next argument and raising the allocation bound keep earlier arguments wrapped. */
  lemma GradWrappedStep(
    requiresGradFlags: seq<bool>, tensorTypeFlags: seq<bool>, args: seq<Value>,
    isTrainingMode: bool, inplaceMap: seq<int>, policy: Option<MaterializePolicy>,
    wrapped: seq<Value>, used: seq<Option<Tensor>>, raw: map<nat, Option<Tensor>>, next: nat, bound: nat,
    wrapped': seq<Value>, used': seq<Option<Tensor>>, raw': map<nat, Option<Tensor>>, bound': nat, j: nat)
    requires j < |requiresGradFlags| && j < |tensorTypeFlags| && j < |args| && j < |wrapped|
    requires GradWrapped(requiresGradFlags, tensorTypeFlags, args, isTrainingMode, inplaceMap, policy,
      wrapped, used, raw, next, bound, j)
    requires tensorTypeFlags[j] ==> TensorCount(tensorTypeFlags, j) < |used|
    requires wrapped <= wrapped' && used <= used' && bound <= bound'
    requires forall k :: 1 <= k <= |used| ==> (k in raw' <==> k in raw) && (k in raw ==> raw'[k] == raw[k])
    ensures GradWrapped(requiresGradFlags, tensorTypeFlags, args, isTrainingMode, inplaceMap, policy,
      wrapped', used', raw', next, bound', j)
  {
  }

  /** Appending argument `j` and raising the allocation bound keep every earlier argument wrapped. */
  lemma GradWrappedPrefix(
    requiresGradFlags: seq<bool>, tensorTypeFlags: seq<bool>, args: seq<Value>,
    isTrainingMode: bool, inplaceMap: seq<int>, policy: Option<MaterializePolicy>,
    wrapped: seq<Value>, used: seq<Option<Tensor>>, raw: map<nat, Option<Tensor>>, next: nat, bound: nat,
    wrapped': seq<Value>, used': seq<Option<Tensor>>, raw': map<nat, Option<Tensor>>, bound': nat, j: nat)
    requires j < |requiresGradFlags| && j < |tensorTypeFlags| && j < |args| && j <= |wrapped|
    requires |used| == TensorCount(tensorTypeFlags, j)
    requires forall i :: 0 <= i < j ==> GradWrapped(requiresGradFlags, tensorTypeFlags, args, isTrainingMode,
      inplaceMap, policy, wrapped, used, raw, next, bound, i)
    requires wrapped <= wrapped' && used <= used' && bound <= bound'
    requires forall k :: 1 <= k <= |used| ==> (k in raw' <==> k in raw) && (k in raw ==> raw'[k] == raw[k])
    ensures forall i :: 0 <= i < j ==> GradWrapped(requiresGradFlags, tensorTypeFlags, args, isTrainingMode,
      inplaceMap, policy, wrapped', used', raw', next, bound', i)
  {
    forall i | 0 <= i < j
      ensures GradWrapped(requiresGradFlags, tensorTypeFlags, args, isTrainingMode,
        inplaceMap, policy, wrapped', used', raw', next, bound', i)
    {
      if tensorTypeFlags[i] {
        TensorCountIncreases(tensorTypeFlags, i, j);
      }
      GradWrappedStep(requiresGradFlags, tensorTypeFlags, args, isTrainingMode, inplaceMap, policy,
        wrapped, used, raw, next, bound, wrapped', used', raw', bound', i);
    }
  }

  /** One argument's conversion meets GradReceived, with requires_grad set on a present tensor. */
  lemma GradInputReceived(arg: Value, j: nat, policy: Option<MaterializePolicy>, token: nat, requiresGrad: bool)
    requires GradInput(arg, j, policy, token).Success?
    ensures var u := GradInput(arg, j, policy, token).value;
      GradReceived(arg, j, policy, WithGradFlag(u, requiresGrad), requiresGrad, token, token + 1)
  {
  }

  /** Argument `j` is an absent gradient that was materialized as zeros in `used`. */
  ghost predicate ZeroedAt(tensorTypeFlags: seq<bool>, args: seq<Value>, used: seq<Option<Tensor>>, j: nat)
  {
    && j < |tensorTypeFlags| && j < |args| && tensorTypeFlags[j] && args[j].NoneValue?
    && TensorCount(tensorTypeFlags, j) < |used| && used[TensorCount(tensorTypeFlags, j)].Some?
  }

  /** The zeros materialized for two different absent gradients lie in different buffers,
      allocated in argument order. */
  ghost predicate ZerosApart(tensorTypeFlags: seq<bool>, args: seq<Value>, used: seq<Option<Tensor>>, n: nat)
  {
    forall j1, j2 :: 0 <= j1 < j2 < n && ZeroedAt(tensorTypeFlags, args, used, j1) && ZeroedAt(tensorTypeFlags, args, used, j2)
      ==> used[TensorCount(tensorTypeFlags, j1)].value.storage < used[TensorCount(tensorTypeFlags, j2)].value.storage
  }

  /** The first `j` arguments are wrapped as GradWrapped says, with raw inputs keyed from 1,
      new objects drawn from [next, bound) and the materialized zeros apart. */
  ghost predicate GradsWrappedUpTo(
    requiresGradFlags: seq<bool>, tensorTypeFlags: seq<bool>, args: seq<Value>,
    isTrainingMode: bool, inplaceMap: seq<int>, policy: Option<MaterializePolicy>,
    wrapped: seq<Value>, used: seq<Option<Tensor>>, raw: map<nat, Option<Tensor>>, next: nat, bound: nat, j: nat)
  {
    && j <= |requiresGradFlags| && j <= |tensorTypeFlags| && j <= |args| && |wrapped| == j
    && |used| == TensorCount(tensorTypeFlags, j)
    && (forall i :: 0 <= i < j ==> GradWrapped(requiresGradFlags, tensorTypeFlags, args, isTrainingMode,
          inplaceMap, policy, wrapped, used, raw, next, bound, i))
    && (forall k :: k in raw ==> 1 <= k <= |used|)
    && (forall k :: 0 <= k < |used| && used[k].Some? ==> next <= used[k].value.id < bound)
    && ZerosApart(tensorTypeFlags, args, used, j)
  }

  /** A converted gradient with requires_grad set as given. */
  function WithGradFlag(g: Option<Tensor>, requiresGrad: bool): (u: Option<Tensor>)
    ensures u.Some? <==> g.Some?
    ensures u.Some? ==> u.value.requiresGrad == requiresGrad
  {
    if g.Some? then Some(g.value.(requiresGrad := requiresGrad)) else None
  }

  /** One step of the backward wrapping loop keeps the first `j + 1` arguments wrapped. */
  lemma GradStep(
    requiresGradFlags: seq<bool>, tensorTypeFlags: seq<bool>, args: seq<Value>,
    isTrainingMode: bool, inplaceMap: seq<int>, policy: Option<MaterializePolicy>,
    wrapped: seq<Value>, used: seq<Option<Tensor>>, raw: map<nat, Option<Tensor>>, next: nat, bound: nat,
    wrapped': seq<Value>, used': seq<Option<Tensor>>, raw': map<nat, Option<Tensor>>, bound': nat, j: nat)
    requires j < |requiresGradFlags| && j < |tensorTypeFlags| && j < |args| && next <= bound
    requires GradsWrappedUpTo(requiresGradFlags, tensorTypeFlags, args, isTrainingMode, inplaceMap, policy,
      wrapped, used, raw, next, bound, j)
    requires tensorTypeFlags[j] ==>
      && GradInput(args[j], j, policy, bound).Success?
      && var u := WithGradFlag(GradInput(args[j], j, policy, bound).value, isTrainingMode && requiresGradFlags[j]);
      && wrapped' == wrapped + [if u.Some? then TensorValue(u.value) else NoneValue]
      && used' == used + [u]
      && raw' == (if j in inplaceMap then raw[|used| + 1 := u] else raw)
      && bound' == bound + 1
    requires !tensorTypeFlags[j] ==> wrapped' == wrapped + [args[j]] && used' == used && raw' == raw && bound' == bound
    ensures GradsWrappedUpTo(requiresGradFlags, tensorTypeFlags, args, isTrainingMode, inplaceMap, policy,
      wrapped', used', raw', next, bound', j + 1)
  {
    ZerosBelow(requiresGradFlags, tensorTypeFlags, args, isTrainingMode, inplaceMap, policy,
      wrapped, used, raw, next, bound, j);
    ZerosApartStep(tensorTypeFlags, args, used, used', j, bound);
    GradWrappedPrefix(requiresGradFlags, tensorTypeFlags, args, isTrainingMode, inplaceMap, policy,
      wrapped, used, raw, next, bound, wrapped', used', raw', bound', j);
    if tensorTypeFlags[j] {
      GradInputReceived(args[j], j, policy, bound, isTrainingMode && requiresGradFlags[j]);
    }
  }

  /** The zeros materialized for the first `j` arguments lie below the allocation bound. */
  lemma ZerosBelow(
    requiresGradFlags: seq<bool>, tensorTypeFlags: seq<bool>, args: seq<Value>,
    isTrainingMode: bool, inplaceMap: seq<int>, policy: Option<MaterializePolicy>,
    wrapped: seq<Value>, used: seq<Option<Tensor>>, raw: map<nat, Option<Tensor>>, next: nat, bound: nat, j: nat)
    requires j <= |requiresGradFlags| && j <= |tensorTypeFlags| && j <= |args| && j <= |wrapped|
    requires forall i :: 0 <= i < j ==> GradWrapped(requiresGradFlags, tensorTypeFlags, args, isTrainingMode,
      inplaceMap, policy, wrapped, used, raw, next, bound, i)
    ensures forall i :: 0 <= i < j && ZeroedAt(tensorTypeFlags, args, used, i) ==>
      used[TensorCount(tensorTypeFlags, i)].value.storage < bound
  {
    forall i | 0 <= i < j && ZeroedAt(tensorTypeFlags, args, used, i)
      ensures used[TensorCount(tensorTypeFlags, i)].value.storage < bound
    {
      assert GradWrapped(requiresGradFlags, tensorTypeFlags, args, isTrainingMode,
        inplaceMap, policy, wrapped, used, raw, next, bound, i);
    }
  }

  /** Appending argument `j`'s input keeps the zeros apart when earlier zeros lie below
      `bound` and a zero for `j` does not. */
  lemma ZerosApartStep(tensorTypeFlags: seq<bool>, args: seq<Value>, used: seq<Option<Tensor>>, used': seq<Option<Tensor>>,
    j: nat, bound: nat)
    requires j < |tensorTypeFlags| && j < |args|
    requires ZerosApart(tensorTypeFlags, args, used, j)
    requires |used| == TensorCount(tensorTypeFlags, j) && used <= used'
    requires forall i :: 0 <= i < j && ZeroedAt(tensorTypeFlags, args, used, i) ==>
      used[TensorCount(tensorTypeFlags, i)].value.storage < bound
    requires ZeroedAt(tensorTypeFlags, args, used', j) ==> bound <= used'[TensorCount(tensorTypeFlags, j)].value.storage
    ensures ZerosApart(tensorTypeFlags, args, used', j + 1)
  {
    forall j1, j2 | 0 <= j1 < j2 < j + 1 && ZeroedAt(tensorTypeFlags, args, used', j1) && ZeroedAt(tensorTypeFlags, args, used', j2)
      ensures used'[TensorCount(tensorTypeFlags, j1)].value.storage < used'[TensorCount(tensorTypeFlags, j2)].value.storage
    {
      TensorCountIncreases(tensorTypeFlags, j1, j);
      assert ZeroedAt(tensorTypeFlags, args, used, j1);
      if j2 < j {
        TensorCountIncreases(tensorTypeFlags, j2, j);
        assert ZeroedAt(tensorTypeFlags, args, used, j2);
      }
    }
  }

  /** Some tensor argument the zipped walk reaches cannot be converted under `policy`. */
  ghost predicate GradWrapFails(
    requiresGradFlags: seq<bool>, tensorTypeFlags: seq<bool>, args: seq<Value>, policy: Option<MaterializePolicy>)
  {
    var n := ArgCount(requiresGradFlags, tensorTypeFlags, args);
    exists j :: 0 <= j < n && tensorTypeFlags[j] && GradInput(args[j], j, policy, 0).Failure?
  }

  /** `w` is what the backward wrapping loop produces from `args` under `policy`, with fresh
      objects and buffers drawn from [next, bound): every argument wrapped as GradWrapped
      says, raw inputs keyed from 1, and every materialized zero gradient in a buffer of its own. */
  ghost predicate BackwardWrapped(
    requiresGradFlags: seq<bool>, tensorTypeFlags: seq<bool>, args: seq<Value>,
    isTrainingMode: bool, inplaceMap: seq<int>, policy: Option<MaterializePolicy>, w: BackwardInputs, next: nat, bound: nat)
  {
    GradsWrappedUpTo(requiresGradFlags, tensorTypeFlags, args, isTrainingMode, inplaceMap, policy,
      w.wrapped, w.used, w.raw, next, bound, ArgCount(requiresGradFlags, tensorTypeFlags, args))
  }

  /** A higher allocation bound still bounds the wrapped arguments. */
  lemma BackwardWrappedRaise(
    requiresGradFlags: seq<bool>, tensorTypeFlags: seq<bool>, args: seq<Value>,
    isTrainingMode: bool, inplaceMap: seq<int>, policy: Option<MaterializePolicy>, w: BackwardInputs,
    next: nat, bound: nat, bound': nat)
    requires bound <= bound'
    requires BackwardWrapped(requiresGradFlags, tensorTypeFlags, args, isTrainingMode, inplaceMap, policy, w, next, bound)
    ensures BackwardWrapped(requiresGradFlags, tensorTypeFlags, args, isTrainingMode, inplaceMap, policy, w, next, bound')
  {
    var n := ArgCount(requiresGradFlags, tensorTypeFlags, args);
    forall j | 0 <= j < n
      ensures GradWrapped(requiresGradFlags, tensorTypeFlags, args, isTrainingMode,
        inplaceMap, policy, w.wrapped, w.used, w.raw, next, bound', j)
    {
      GradWrappedStep(requiresGradFlags, tensorTypeFlags, args, isTrainingMode, inplaceMap, policy,
        w.wrapped, w.used, w.raw, next, bound, w.wrapped, w.used, w.raw, bound', j);
    }
  }

  /** The backward wrapping loop (lines 493-532): tensor arguments are numbered from 1 and
      converted by GradInput, given requires_grad only in training; other arguments pass
      through. Fails exactly when some tensor argument cannot be converted. */
  method PrepareBackwardArgs(
    requiresGradFlags: seq<bool>, tensorTypeFlags: seq<bool>, args: seq<Value>,
    isTrainingMode: bool, inplaceMap: seq<int>, policy: Option<MaterializePolicy>, next: nat)
    returns (r: Result<BackwardInputs, Error>, next': nat)
    ensures next <= next'
    ensures r.Failure? <==> GradWrapFails(requiresGradFlags, tensorTypeFlags, args, policy)
    ensures r.Failure? ==> r.error == KeyNotFound || r.error == NotATensor
    ensures r.Success? ==>
      BackwardWrapped(requiresGradFlags, tensorTypeFlags, args, isTrainingMode, inplaceMap, policy, r.value, next, next')
  {
    var n := ArgCount(requiresGradFlags, tensorTypeFlags, args);
    var wrapped: seq<Value> := [];
    var used: seq<Option<Tensor>> := [];
    var raw: map<nat, Option<Tensor>> := map[];
    next' := next;
    var j := 0;
    while j < n
      invariant 0 <= j <= n && next <= next'
      invariant forall i :: 0 <= i < j && tensorTypeFlags[i] ==> GradInput(args[i], i, policy, 0).Success?
      invariant GradsWrappedUpTo(requiresGradFlags, tensorTypeFlags, args, isTrainingMode, inplaceMap, policy,
        wrapped, used, raw, next, next', j)
    {
      ghost var (wrapped0, used0, raw0, next0) := (wrapped, used, raw, next');
      if tensorTypeFlags[j] {
        var converted := GradInput(args[j], j, policy, next');
        if converted.Failure? {
          return Failure(converted.error), next';
        }
        var arg := WithGradFlag(converted.value, isTrainingMode && requiresGradFlags[j]);
        if j in inplaceMap {
          raw := raw[|used| + 1 := arg];
        }
        wrapped := wrapped + [if arg.Some? then TensorValue(arg.value) else NoneValue];
        used := used + [arg];
        next' := next' + 1;
      } else {
        wrapped := wrapped + [args[j]];
      }
      GradStep(requiresGradFlags, tensorTypeFlags, args, isTrainingMode, inplaceMap, policy,
        wrapped0, used0, raw0, next, next0, wrapped, used, raw, next', j);
      j := j + 1;
    }
    r := Success(BackwardInputs(wrapped, used, raw));
  }

  /** Pairing of the two bridges: with the policy a first training forward run learned from
      its context, an absent gradient for forward output `j - 1` stays None when the context
      does not materialize gradients, and otherwise becomes zeros with exactly that output's
      device, dtype and shape; only a gradient for something that was not a tensor output
      fails. */
  lemma MaterializedGradientMatchesForwardOutput(
    info: KernelInfo, c: Context, used: seq<Tensor>, outputs: seq<Value>, j: nat, token: nat)
    requires LearnedFromContext(info, c, used, outputs)
    ensures GradInput(NoneValue, j, Some(PolicyOf(info)), token) ==
      if !c.materializeGrads then Success(None)
      else if 1 <= j <= |outputs| && outputs[j - 1].TensorValue? then Success(Some(ZerosOf(outputs[j - 1].tensor.meta, token)))
      else Failure(KeyNotFound)
  {
  }

  /** The policy the backward bridge reads for a forward kernel (PolicyIn) is the one that
      kernel's first training run learned from its context: an absent gradient for forward
      output `j - 1` stays None or becomes zeros shaped like that output, as the context says. */
  lemma BackwardReadsForwardPolicy(
    store: KernelInfoMap, fwId: string, c: Context, used: seq<Tensor>, outputs: seq<Value>, j: nat, token: nat)
    requires fwId in store.entries && LearnedFromOutputs(store.entries[fwId], used, outputs)
    requires GetContext(outputs).Some? && c == GetContext(outputs).value.gradFn.value
    ensures PolicyIn(store, fwId) == Some(MaterializePolicy(c.materializeGrads, store.entries[fwId].materializeGradsConfig))
    ensures GradInput(NoneValue, j, PolicyIn(store, fwId), token) ==
      if !c.materializeGrads then Success(None)
      else if 1 <= j <= |outputs| && outputs[j - 1].TensorValue? then Success(Some(ZerosOf(outputs[j - 1].tensor.meta, token)))
      else Failure(KeyNotFound)
  {
    MaterializedGradientMatchesForwardOutput(store.entries[fwId], c, used, outputs, j, token);
  }

  /** A zero gradient materialized for an absent argument lives in a buffer of its own: it
      never shares storage with a tensor the context (argument 0) saved in forward, so no
      output can be detected as reusing the one through the other. */
  lemma ZeroGradientNotSaved(
    requiresGradFlags: seq<bool>, tensorTypeFlags: seq<bool>, args: seq<Value>,
    isTrainingMode: bool, inplaceMap: seq<int>, policy: Option<MaterializePolicy>,
    w: BackwardInputs, next: nat, bound: nat, j: nat, i: nat)
    requires TokensBelow(args, next)
    requires BackwardWrapped(requiresGradFlags, tensorTypeFlags, args, isTrainingMode, inplaceMap, policy, w, next, bound)
    requires TaggedContext(args)
    requires j < ArgCount(requiresGradFlags, tensorTypeFlags, args) && tensorTypeFlags[j] && args[j] == NoneValue
    requires i < |args[0].ctx.savedTensors| && args[0].ctx.savedTensors[i].Some?
    ensures var k := TensorCount(tensorTypeFlags, j);
      k < |w.used| && (w.used[k].Some? ==> w.used[k].value.storage != args[0].ctx.savedTensors[i].value.storage)
  {
    var k := TensorCount(tensorTypeFlags, j);
    assert GradWrapped(requiresGradFlags, tensorTypeFlags, args, isTrainingMode, inplaceMap, policy,
      w.wrapped, w.used, w.raw, next, bound, j);
    assert ContextBelow(args[0].ctx, next);
    assert TensorBelow(args[0].ctx.savedTensors[i].value, next);
  }

  /** The path to the address-list defect: an absent gradient whose forward context does
      not materialize gradients is passed on as None and recorded as a used input, so the
      address list as `_process_inplace_outputs` builds it fails (the corrected one gives that position
      the NoAlias placeholder, as AddressList states). */
  lemma AbsentGradientReachesAddressList(
    requiresGradFlags: seq<bool>, tensorTypeFlags: seq<bool>, args: seq<Value>,
    isTrainingMode: bool, inplaceMap: seq<int>, config: Option<map<nat, Meta>>,
    w: BackwardInputs, next: nat, bound: nat, j: nat)
    requires j < |requiresGradFlags| && j < |tensorTypeFlags| && j < |args| && j < |w.wrapped|
    requires tensorTypeFlags[j] && args[j] == NoneValue
    requires GradWrapped(requiresGradFlags, tensorTypeFlags, args, isTrainingMode, inplaceMap,
      Some(MaterializePolicy(false, config)), w.wrapped, w.used, w.raw, next, bound, j)
    ensures w.wrapped[j] == NoneValue
    ensures AddressListAsWritten(w.used, true).Failure?
    ensures TensorCount(tensorTypeFlags, j) < |w.used| && w.used[TensorCount(tensorTypeFlags, j)].None?
  {
    var k := TensorCount(tensorTypeFlags, j);
    var policy := Some(MaterializePolicy(false, config));
    assert GradReceived(args[j], j, policy, w.used[k], isTrainingMode && requiresGradFlags[j], next, bound);
    assert w.used[k].None?;
    AbsentInputBreaksAddressList(w.used, true, k);
  }

  /** The tail of the backward bridge: the results go through `_process_inplace_outputs`,
      where the write-back never runs, then every result is exported. `cloned` and
      `processed` are the list after the clone step and after the whole processing. */
  method ExportBackwardOutputs(
    info: KernelInfo, results: seq<Value>, inplaceMap: seq<int>,
    used: seq<Option<Tensor>>, raw: map<nat, Option<Tensor>>, next: nat)
    returns (r: Result<seq<Value>, Error>, next': nat, ghost cloned: seq<Value>, ghost processed: seq<Value>)
    requires forall k :: k in raw ==> k < |used| + 1
    requires forall k :: 0 <= k < |used| && used[k].Some? ==> used[k].value.storage < next
    modifies info
    ensures next <= next'
    ensures info.tensorInputIndicesToSaveInCtx == old(info.tensorInputIndicesToSaveInCtx)
    ensures info.materializeGrads == old(info.materializeGrads)
    ensures info.materializeGradsConfig == old(info.materializeGradsConfig)
    ensures old(info.outputIndicesForClone).Some? ==> info.outputIndicesForClone == old(info.outputIndicesForClone)
    ensures info.outputIndicesForClone ==
      LearnedClones(results, old(info.outputIndicesForClone), inplaceMap, AddressList(used, true))
    ensures HandedBack(results, cloned, processed, r, old(info.outputIndicesForClone),
      info.tensorInputIndicesToSaveInCtx, inplaceMap, used, raw, true, next)
    // no write-back in backward: the results are the cloned ones, and non-tensors are kept
    ensures r.Success? ==>
      && info.outputIndicesForClone.Some?
      && r.value == cloned
      && (forall i :: 0 <= i < |r.value| && !results[i].TensorValue? ==> r.value[i] == results[i])
  {
    var outputs := new Value[|results|](i requires 0 <= i < |results| => results[i]);
    ghost var before := outputs[..];
    assert before == results;
    var outcome, written;
    outcome, written, next', cloned := ProcessInplaceOutputs(info, outputs, inplaceMap, used, raw, true, next);
    processed := outputs[..];
    if outcome.Fail? {
      return Failure(Fallback(outcome.error)), next', cloned, processed;
    }
    var exported := ExportOutputs(outputs[..]);
    if exported.Failure? {
      return Failure(Fallback(exported.error)), next', cloned, processed;
    }
    forall i | 0 <= i < |results| && !results[i].TensorValue? ensures outputs[i] == results[i] {
      NonTensorOutputKept(before, cloned, outputs[..], inplaceMap, raw, AddressList(used, true),
        info.outputIndicesForClone.value, next, i);
    }
    r := Success(exported.value);
  }

  /** The run once the context and its forward kernel's policy are known: wrap, call, process
      and export, then release the context `ctxKey`. `w` is what the function received. */
  method BackwardOnEntry(
    info: KernelInfo, pool: ContextPool, backwardFunction: seq<Value> -> FnResult,
    requiresGradFlags: seq<bool>, tensorTypeFlags: seq<bool>, isTrainingMode: bool,
    inplaceMap: seq<int>, policy: Option<MaterializePolicy>, ctxKey: nat, args: seq<Value>, next: nat)
    returns (r: Result<seq<Value>, Error>, next': nat,
      ghost w: BackwardInputs, ghost cloned: seq<Value>, ghost processed: seq<Value>)
    requires TokensBelow(args, next)
    modifies info, pool
    ensures next <= next'
    ensures info.tensorInputIndicesToSaveInCtx == old(info.tensorInputIndicesToSaveInCtx)
    ensures info.materializeGrads == old(info.materializeGrads)
    ensures info.materializeGradsConfig == old(info.materializeGradsConfig)
    ensures old(info.outputIndicesForClone).Some? ==> info.outputIndicesForClone == old(info.outputIndicesForClone)
    ensures r.Failure? ==> r.error.Fallback? && pool.registered == old(pool.registered)
    ensures r.Success? ==> pool.registered == old(pool.registered) - {ctxKey} && info.outputIndicesForClone.Some?
    // the arguments the function received
    ensures GradWrapFails(requiresGradFlags, tensorTypeFlags, args, policy) ==> r.Failure? && unchanged(info)
    ensures !GradWrapFails(requiresGradFlags, tensorTypeFlags, args, policy) ==>
      BackwardWrapped(requiresGradFlags, tensorTypeFlags, args, isTrainingMode, inplaceMap, policy, w, next, next')
    // what it returned, and what is handed back
    ensures !GradWrapFails(requiresGradFlags, tensorTypeFlags, args, policy) ==>
      var results := NormalizeResult(backwardFunction(w.wrapped));
      && (results.Failure? ==> r == Failure(Fallback(results.error)) && unchanged(info))
      && (results.Success? ==>
            && info.outputIndicesForClone ==
                 LearnedClones(results.value, old(info.outputIndicesForClone), inplaceMap, AddressList(w.used, true))
            && HandedBack(results.value, cloned, processed, r, old(info.outputIndicesForClone),
                 info.tensorInputIndicesToSaveInCtx, inplaceMap, w.used, w.raw, true, next)
            && (r.Success? ==> r.value == cloned))
  {
    w, cloned, processed := BackwardInputs([], [], map[]), [], [];
    var inputs;
    inputs, next' := PrepareBackwardArgs(requiresGradFlags, tensorTypeFlags, args, isTrainingMode, inplaceMap, policy, next);
    if inputs.Failure? {
      return Failure(Fallback(inputs.error)), next', w, cloned, processed;
    }
    var wrapped := inputs.value;
    w := wrapped;
    forall k | 0 <= k < |wrapped.used| && wrapped.used[k].Some? ensures wrapped.used[k].value.storage < next' {
      var n := ArgCount(requiresGradFlags, tensorTypeFlags, args);
      TensorCountOnto(tensorTypeFlags, n, k);
      var j :| 0 <= j < n && tensorTypeFlags[j] && TensorCount(tensorTypeFlags, j) == k;
      assert GradWrapped(requiresGradFlags, tensorTypeFlags, args, isTrainingMode,
        inplaceMap, policy, wrapped.wrapped, wrapped.used, wrapped.raw, next, next', j);
    }
    var results := NormalizeResult(backwardFunction(wrapped.wrapped));
    if results.Failure? {
      return Failure(Fallback(results.error)), next', w, cloned, processed;
    }
    ghost var wrapBound := next';
    var bound := TokenBound(results.value);
    if next' < bound {
      next' := bound;
    }
    ghost var cloneBase := next';
    r, next', cloned, processed := ExportBackwardOutputs(info, results.value, inplaceMap, wrapped.used, wrapped.raw, next');
    HandedBackLower(results.value, cloned, processed, r, old(info.outputIndicesForClone),
      info.tensorInputIndicesToSaveInCtx, inplaceMap, wrapped.used, wrapped.raw, true, cloneBase, next);
    BackwardWrappedRaise(requiresGradFlags, tensorTypeFlags, args, isTrainingMode, inplaceMap, policy, wrapped,
      next, wrapBound, next');
    if r.Success? {
      pool.Unregister(ctxKey);
    }
  }

  /** Argument 0 of a backward call is a context the forward bridge tagged. */
  predicate TaggedContext(args: seq<Value>)
  {
    |args| > 0 && args[0].CtxValue? && args[0].ctx.fwKernelInvokeId.Some?
  }

  /** `call_python_backward_function`. Looks up (or creates) the kernel's entry, checks that
      no backward input requires grad, reads the context's forward kernel id and that
      kernel's gradient policy, wraps the arguments, runs the function, post-processes
      in-place outputs, exports the results and releases the context from the pool. Any
      failure surfaces as a Fallback and leaves the context in the pool. Backward never
      changes what the forward kernel learned, nor its own capture list or policy. */
  method CallPythonBackwardFunction(
    store: KernelInfoMap, pool: ContextPool, backwardFunction: seq<Value> -> FnResult,
    requiresGradFlags: seq<bool>, tensorTypeFlags: seq<bool>, isTrainingMode: bool,
    inplaceMap: seq<int>, kernelInvokeId: string, args: seq<Value>, next: nat)
    returns (r: Result<seq<Value>, Error>, next': nat,
      ghost w: BackwardInputs, ghost cloned: seq<Value>, ghost processed: seq<Value>)
    requires store.Valid()
    requires TokensBelow(args, next)
    modifies store, store.entries.Values, pool
    ensures next <= next'
    ensures store.Valid() && kernelInvokeId in store.entries
    ensures forall id :: id in old(store.entries) ==> id in store.entries && store.entries[id] == old(store.entries[id])
    ensures forall id :: id in old(store.entries) && id != kernelInvokeId ==> unchanged(store.entries[id])
    ensures kernelInvokeId in old(store.entries) ==>
      && store.entries[kernelInvokeId].tensorInputIndicesToSaveInCtx == old(store.entries[kernelInvokeId].tensorInputIndicesToSaveInCtx)
      && store.entries[kernelInvokeId].materializeGrads == old(store.entries[kernelInvokeId].materializeGrads)
      && store.entries[kernelInvokeId].materializeGradsConfig == old(store.entries[kernelInvokeId].materializeGradsConfig)
    ensures kernelInvokeId in old(store.entries) && old(store.entries[kernelInvokeId].outputIndicesForClone).Some? ==>
      store.entries[kernelInvokeId].outputIndicesForClone == old(store.entries[kernelInvokeId].outputIndicesForClone)
    ensures r.Failure? ==> r.error.Fallback? && pool.registered == old(pool.registered)
    ensures r.Success? ==>
      && TaggedContext(args)
      && pool.registered == old(pool.registered) - {args[0].ctx.key}
      && store.entries[kernelInvokeId].outputIndicesForClone.Some?
    // the checks before wrapping, in the order the bridge makes them
    ensures (exists i :: 0 <= i < |requiresGradFlags| && requiresGradFlags[i]) ==>
      r == Failure(Fallback(BackwardInputRequiresGrad))
    ensures (forall i :: 0 <= i < |requiresGradFlags| ==> !requiresGradFlags[i]) && !TaggedContext(args) ==>
      r == Failure(Fallback(if |args| == 0 then IndexOutOfRange else AttributeMissing))
    // the policy read from the forward kernel's entry, the arguments the function received,
    // what it returned and what is handed back
    ensures (forall i :: 0 <= i < |requiresGradFlags| ==> !requiresGradFlags[i]) && TaggedContext(args) ==>
      var policy := PolicyIn(store, args[0].ctx.fwKernelInvokeId.value);
      && (GradWrapFails(requiresGradFlags, tensorTypeFlags, args, policy) ==> r.Failure?)
      && (!GradWrapFails(requiresGradFlags, tensorTypeFlags, args, policy) ==>
            && BackwardWrapped(requiresGradFlags, tensorTypeFlags, args, isTrainingMode, inplaceMap, policy, w, next, next')
            && var results := NormalizeResult(backwardFunction(w.wrapped));
            && (results.Failure? ==> r == Failure(Fallback(results.error)))
            && (results.Success? ==>
                  && store.entries[kernelInvokeId].outputIndicesForClone ==
                       LearnedClones(results.value, old(store.LearnedCloneList(kernelInvokeId)), inplaceMap, AddressList(w.used, true))
                  && HandedBack(results.value, cloned, processed, r, old(store.LearnedCloneList(kernelInvokeId)),
                       store.entries[kernelInvokeId].tensorInputIndicesToSaveInCtx, inplaceMap, w.used, w.raw, true, next)
                  && (r.Success? ==> r.value == cloned)))
  {
    next' := next;
    w, cloned, processed := BackwardInputs([], [], map[]), [], [];
    ghost var clone := store.LearnedCloneList(kernelInvokeId);
    var info := store.GetOrCreate(kernelInvokeId);
    assert info.outputIndicesForClone == clone;
    if exists i :: 0 <= i < |requiresGradFlags| && requiresGradFlags[i] {
      return Failure(Fallback(BackwardInputRequiresGrad)), next', w, cloned, processed;
    }
    if |args| == 0 {
      return Failure(Fallback(IndexOutOfRange)), next', w, cloned, processed;
    }
    if !args[0].CtxValue? || args[0].ctx.fwKernelInvokeId.None? {
      return Failure(Fallback(AttributeMissing)), next', w, cloned, processed;
    }
    var ctx := args[0].ctx;
    var fwKernelInvokeId := ctx.fwKernelInvokeId.value;
    var policy := PolicyIn(store, fwKernelInvokeId);
    r, next', w, cloned, processed := BackwardOnEntry(info, pool, backwardFunction, requiresGradFlags, tensorTypeFlags,
      isTrainingMode, inplaceMap, policy, ctx.key, args, next);
    assert policy == PolicyIn(store, fwKernelInvokeId);
  }
}
