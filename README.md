# A verified model of ORTModule's PyTorch-function bridge

ONNX Runtime's training front end (ORTModule) runs a user's `torch.autograd.Function` inside an
ONNX graph as a `PythonOp` kernel, and runs its backward as a `PythonOpGrad` kernel. Both kernels
call into `_custom_autograd_function_runner.py`, which bridges ORT's buffers and PyTorch tensors.
This project models the bookkeeping at the centre of that bridge:

- **Per-kernel learned state.** `CustomFuncOpKernelInfo` is modelled as the class
  `KernelInfoStore.KernelInfo`. The process-wide `_GlobalOpKernelInfoMap` is
  `KernelInfoStore.KernelInfoMap`. A kernel's first run learns three things, and later runs
  trust them:
  - which inputs the function saves in its context (those inputs are copied on later runs);
  - the gradient-materialization policy;
  - which outputs must be cloned.
- **In-place reuse analysis.** `_process_inplace_outputs` is modelled in module `Aliasing`. It
  detects which output shares a buffer with which input, and reconciles that with the
  `inplace_map` the graph declares. Outputs with an undeclared reuse are cloned. Raw ORT input
  buffers that were replaced by a copy get the output's data written back.
- **The forward bridge.** `call_python_forward_function`, `_get_context` and
  `_finalize_training_mode_forward` are modelled in module `ForwardBridge`. They cover the
  argument wrapping (which inputs are copied, which require grad), result normalisation, the
  search for the autograd context, what the first training run learns from it, and keeping the
  context alive.
- **The backward bridge.** `call_python_backward_function` is modelled in module
  `BackwardBridge`. It covers the "no input requires grad" check, zero-filling absent gradients
  from the paired forward kernel's policy, tensor indices offset by the leading context, and
  releasing the context.

## How the model works

- Tensors are values (`Tensors.Tensor`):
  - `id` stands for Python object identity (`is`, `id()`);
  - `storage` stands for `data_ptr()`;
  - `meta` holds device, dtype and shape;
  - `content` is an opaque token, or `Zeros`.
- New objects and buffers (`from_dlpack`, `clone`, `torch.zeros`) take tokens from a counter
  `next`. Every method threads `next` through. Callers pass a `next` above every token already
  in use (`TokensBelow`). That covers tensors passed directly, tensors saved in a context passed
  as an argument, and tensors saved in the context of a tensor's `grad_fn`.
- The list `_process_inplace_outputs` mutates is an `array<Value>`. The learned state lives in
  class fields that methods update in place.
- The forward and backward functions of the autograd.Function are parameters of function type.
  They return a tensor, a sequence, some other object, or raise.
- A failure is a `Result`/`Outcome` error value. The bridges wrap every failure in
  `Fallback`, as the Python code wraps exceptions in `ORTModuleFallbackException`.

## Model

| member | source | states |
|---|---|---|
| KernelInfoStore.KernelInfo.constructor | orttraining/orttraining/python/training/ortmodule/_custom_autograd_function_runner.py:22-44 | a new entry has every learned field unset and `materialize_grads` false |
| KernelInfoStore.KernelInfoMap.constructor | orttraining/orttraining/python/training/ortmodule/_custom_autograd_function_runner.py:51 | the global map starts empty and keyed consistently |
| KernelInfoStore.KernelInfoMap.GetOrCreate | orttraining/orttraining/python/training/ortmodule/_custom_autograd_function_runner.py:341-346 | an existing entry is returned and the map is unchanged; otherwise a fresh default entry is added under the id; every entry stays stored under its own id |
| KernelInfoStore.ContextPool.Register | orttraining/orttraining/python/training/ortmodule/_custom_autograd_function_runner.py:306 | the context key is added to the pool |
| KernelInfoStore.ContextPool.Unregister | orttraining/orttraining/python/training/ortmodule/_custom_autograd_function_runner.py:560 | the context key is removed from the pool |
| Tensors.TensorCountIncreases | orttraining/orttraining/python/training/ortmodule/_custom_autograd_function_runner.py:357-386 | tensor input indices count only tensor-flagged arguments, so later tensor arguments get strictly larger indices |
| Tensors.TensorCountOnto | orttraining/orttraining/python/training/ortmodule/_custom_autograd_function_runner.py:357-386 | every tensor input index below the count belongs to some tensor-flagged argument |
| Aliasing.FirstIndexOf | orttraining/orttraining/python/training/ortmodule/_custom_autograd_function_runner.py:76-78 | the result is -1 exactly when the value is absent; otherwise it is the first position that holds the value |
| Aliasing.Addresses | orttraining/orttraining/python/training/ortmodule/_custom_autograd_function_runner.py:66 | one address per used input, in input order; an absent input gets -1 |
| Aliasing.AddressList | orttraining/orttraining/python/training/ortmodule/_custom_autograd_function_runner.py:66-68 | in backward the list starts with the -1 context placeholder, and input `k` sits at position `k + 1`; each position holds its input's storage, or -1 when the input is absent |
| Aliasing.AbsentInputBreaksAddressList | orttraining/orttraining/python/training/ortmodule/_custom_autograd_function_runner.py:66 | as written, a single None among the used inputs makes building the address list fail |
| Aliasing.AddressListAgreesWhenPresent | orttraining/orttraining/python/training/ortmodule/_custom_autograd_function_runner.py:66-68 | when every input is present, the list as written and the corrected list are equal |
| Aliasing.AbsentInputNeverAliased | orttraining/orttraining/python/training/ortmodule/_custom_autograd_function_runner.py:66-79 | a detected alias always names a present input with the output's buffer, never the context placeholder or an absent input |
| Aliasing.DetectAliases | orttraining/orttraining/python/training/ortmodule/_custom_autograd_function_runner.py:70-79 | a tensor output maps to the first input whose address equals its storage, and to -1 if there is none; non-tensor outputs (the context slot) stay -1 |
| Aliasing.CloneIndicesExact | orttraining/orttraining/python/training/ortmodule/_custom_autograd_function_runner.py:81-122 | the clone list holds exactly the outputs that are declared -1 but detected as reusing an input, each once, in increasing order |
| Aliasing.ReconcileAliases | orttraining/orttraining/python/training/ortmodule/_custom_autograd_function_runner.py:81-122 | succeeds iff every declared alias equals the detected one, returning the clone list; otherwise the error names the first mismatching output, "not detected" or "differs" |
| Aliasing.CloneOutputs | orttraining/orttraining/python/training/ortmodule/_custom_autograd_function_runner.py:126-132 | each listed output becomes a detached clone with the same meta and data in a fresh buffer, distinct from every other clone; all other slots are untouched; fails if a listed slot is missing or not a tensor |
| Aliasing.ReusingOutputsExact | orttraining/orttraining/python/training/ortmodule/_custom_autograd_function_runner.py:145-149 | the comprehension keeps exactly the outputs declared to reuse the input, each once, in order |
| Aliasing.ReplaceGroup | orttraining/orttraining/python/training/ortmodule/_custom_autograd_function_runner.py:150-165 | succeeds iff every listed output still shares the first one's buffer; the raw tensor takes the first output's data once and fills every listed slot |
| Aliasing.WriteBackOne | orttraining/orttraining/python/training/ortmodule/_custom_autograd_function_runner.py:140-165 | for one copied raw input: succeeds iff the outputs declared to reuse it exist, are tensors and share one buffer; each becomes the raw tensor holding the first one's data; no other slot changes |
| Aliasing.WriteBack | orttraining/orttraining/python/training/ortmodule/_custom_autograd_function_runner.py:134-165 | only raw inputs that were copied (buffer differs from the one used) are written, each exactly once, in increasing order; every output reusing one becomes that raw tensor; other outputs are unchanged |
| Aliasing.ProcessInplaceOutputs | orttraining/orttraining/python/training/ortmodule/_custom_autograd_function_runner.py:54-165 | succeeds iff the clone step passes (first run: the detected map has the declared map's length and reconciles with it; later runs: every learned clone index names a tensor output) and, when the write-back runs, it is possible; on the first run that condition is stated over the outputs as returned; the result is the input list with the clone list's outputs cloned into fresh buffers unlike every input, then written back only in forward on the first run or when the capture list is non-empty; `written` names exactly the copied raw inputs; the clone list afterwards is the learned one unchanged, or, on a first run whose clone step passes, exactly the clone indices of the aliasing detected in the outputs as returned, and unset when it fails; the other learned fields are untouched |
| Aliasing.CloneKeepsWriteBackGroups | orttraining/orttraining/python/training/ortmodule/_custom_autograd_function_runner.py:81-165 | on the first run, cloning never touches an output declared to reuse an input, so the write-back is possible after cloning exactly when it is possible on the outputs the function returned |
| Aliasing.NonTensorOutputKept | orttraining/orttraining/python/training/ortmodule/_custom_autograd_function_runner.py:126-165 | clones and write-backs never replace an output that is not a tensor, such as the context slot or None |
| ForwardBridge.WrapForwardArgs | orttraining/orttraining/python/training/ortmodule/_custom_autograd_function_runner.py:351-389 | walks the zipped lists to the shortest length; tensor indices count tensor arguments only; input `k` is copied iff training and the capture list is unset or contains `k`; every copy gets a new buffer, distinct from every other copy's and in increasing input order, and every wrapped input is a new object; `requires_grad` is training and the grad flag; a raw tensor is kept iff `k` is in `inplace_map`, and it is the pre-copy view when copied; fails iff a tensor-flagged argument is not a tensor |
| ForwardBridge.GetContext | orttraining/orttraining/python/training/ortmodule/_custom_autograd_function_runner.py:199-223 | returns the first output that is a tensor with a grad_fn, or None iff there is no such output |
| ForwardBridge.PresentTensorsExact | orttraining/orttraining/python/training/ortmodule/_custom_autograd_function_runner.py:260 | the filtered saved tensors are exactly the non-None ones |
| ForwardBridge.CapturedIndicesExact | orttraining/orttraining/python/training/ortmodule/_custom_autograd_function_runner.py:270-274 | the capture list holds exactly the input indices whose tensor is one of the saved tensors (by identity), in increasing order |
| ForwardBridge.RecordMaterializeConfig | orttraining/orttraining/python/training/ortmodule/_custom_autograd_function_runner.py:281-287 | the config's keys are exactly the tensor outputs' indices, each mapped to that output's device, dtype and shape |
| ForwardBridge.FinalizeTrainingModeForward | orttraining/orttraining/python/training/ortmodule/_custom_autograd_function_runner.py:226-308 | with no context, an unset capture list becomes `[]` and nothing else changes; otherwise the context is tagged with the kernel id and registered in the pool, and on the first run the capture list, `materialize_grads` and the config are learned (config empty unless materializing); learned values are never overwritten |
| ForwardBridge.CaptureListNamesSavedInputs | orttraining/orttraining/python/training/ortmodule/_custom_autograd_function_runner.py:260-274 | after a first run, input `k` is in the capture list iff some non-None saved tensor is the same object as input `k` |
| ForwardBridge.ExportForwardOutputs | orttraining/orttraining/python/training/ortmodule/_custom_autograd_function_runner.py:415-432 | the context (or None) followed by the outputs goes through `_process_inplace_outputs`; the call succeeds iff that processing succeeds and every output after it is a tensor or None, and then returns exactly the processed list, with the context slot untouched; a first run leaves as clone list exactly the clone indices of the aliasing detected in that list (unset if reconciling fails), a later run the learned list; `written` names exactly the copied raw inputs when the write-back runs; every failure is a Fallback |
| ForwardBridge.OutputsWithContext | orttraining/orttraining/python/training/ortmodule/_custom_autograd_function_runner.py:408-416 | `final_rets` is the context found among the outputs, tagged with this kernel's id, and only in training (None otherwise), followed by the outputs unchanged |
| ForwardBridge.FinishForward | orttraining/orttraining/python/training/ortmodule/_custom_autograd_function_runner.py:408-432 | after the function returned, the result is the processed `final_rets` as ExportForwardOutputs states, and the clone list is learned from it as there; a first training run learns from the context the outputs carry the capture list (exactly the inputs it saved), `materialize_grads` and the per-output config (LearnedFromContext), or, with no context, the empty capture list; a returned context is in the pool; evaluation leaves the pool and the capture list alone |
| ForwardBridge.ForwardOnEntry | orttraining/orttraining/python/training/ortmodule/_custom_autograd_function_runner.py:348-432 | a non-tensor in a tensor slot fails before the call and changes nothing; otherwise the function receives the arguments wrapped as WrapForwardArgs states, with the capture list learned before the call; an exception or an unsupported result type is a Fallback of that error and changes nothing; otherwise the result is the processed `final_rets` of what the function returned, the call succeeds iff that processing succeeds and every output is a tensor or None, and the clone list and, on a first training run, the capture list and gradient policy are learned from those outputs as FinishForward states; a returned context is in the pool |
| ForwardBridge.CallPythonForwardFunction | orttraining/orttraining/python/training/ortmodule/_custom_autograd_function_runner.py:311-438 | the kernel's entry is created if missing; the function receives the wrapped arguments under the entry's earlier capture list; the result is the processed `final_rets` of what it returned, under the entry's earlier clone list, with the success and failure conditions of ForwardOnEntry; the entry then holds the clone list learned from those outputs and, after a first training run, the capture list and gradient policy learned from their context; only this kernel's entry changes and entries are never removed; learned fields are written once; evaluation returns None as the context and leaves the pool alone |
| BackwardBridge.GradInputReceived | orttraining/orttraining/python/training/ortmodule/_custom_autograd_function_runner.py:505-521 | a present gradient becomes a new object over its own buffer; an absent one stays None unless materializing, and then becomes zeros with the meta recorded under `config[j-1]`; `requires_grad` is set only on a tensor |
| BackwardBridge.PrepareBackwardArgs | orttraining/orttraining/python/training/ortmodule/_custom_autograd_function_runner.py:493-532 | tensor inputs are counted from the context on, raw inputs are keyed by tensor index + 1 when the argument position is in `inplace_map`, every argument is converted as GradInputReceived says, each materialized zero gradient gets a buffer of its own, distinct from every other one's, and the call fails iff some tensor argument cannot be converted |
| BackwardBridge.MaterializedGradientMatchesForwardOutput | orttraining/orttraining/python/training/ortmodule/_custom_autograd_function_runner.py:278-287 | with the policy a first forward run learned, an absent gradient for forward output `j-1` stays None when not materializing, and otherwise is zeros with exactly that output's meta; it fails only when that output was not a tensor |
| BackwardBridge.BackwardReadsForwardPolicy | orttraining/orttraining/python/training/ortmodule/_custom_autograd_function_runner.py:278-287 | the policy the backward bridge reads for a forward kernel whose first training run learned from context `c` is `c`'s: an absent gradient for forward output `j-1` stays None when `c` does not materialize gradients, and otherwise is zeros with exactly that output's meta |
| BackwardBridge.AbsentGradientReachesAddressList | orttraining/orttraining/python/training/ortmodule/_custom_autograd_function_runner.py:505-527 | an absent, non-materialized gradient is passed on as None and recorded as a used input, so the address list as written fails |
| BackwardBridge.ZeroGradientNotSaved | orttraining/orttraining/python/training/ortmodule/_custom_autograd_function_runner.py:505-521 | a zero gradient materialized for an absent argument never shares a buffer with a tensor saved in the context argument |
| BackwardBridge.ExportBackwardOutputs | orttraining/orttraining/python/training/ortmodule/_custom_autograd_function_runner.py:548-558 | the results go through `_process_inplace_outputs` with no write-back: on success the returned list is the results with the clone list's outputs cloned, and nothing else; a first run leaves as clone list exactly the clone indices of the aliasing detected in the results (unset if reconciling fails), a later run the learned list; the call succeeds iff that processing succeeds and every result is a tensor or None; non-tensor results are untouched; every failure is a Fallback |
| BackwardBridge.BackwardOnEntry | orttraining/orttraining/python/training/ortmodule/_custom_autograd_function_runner.py:493-562 | fails iff some argument cannot be converted, or else as ExportBackwardOutputs says, or with the function's own error; a failure before the function returns changes no entry; the function receives the arguments converted under the given policy; the clone list is learned from what it returned as ExportBackwardOutputs states; on success exactly the context is released from the pool, and on failure the pool is unchanged |
| BackwardBridge.CallPythonBackwardFunction | orttraining/orttraining/python/training/ortmodule/_custom_autograd_function_runner.py:441-568 | fails with the assertion if any grad flag is set, then if argument 0 is missing or carries no forward kernel id; otherwise the arguments are converted under the policy stored in the forward kernel's entry; the result is the processed results of the function under this kernel's earlier clone list, with the success and failure conditions of BackwardOnEntry, and the entry then holds the clone list learned from them; success releases exactly that context, failure leaves the pool alone; backward never changes any other entry, nor its own capture list or policy |

## Left out

- DLPack conversion and real tensor data are opaque. `from_dlpack` makes a new object over the same buffer. `clone` and `torch.zeros` make a new object over a new buffer. `copy_` moves the data token. A `data_ptr()` of 0 shared by empty tensors is not modelled: every buffer has its own token.
- `torch_interop_utils` is native code:
  - `get_materialize_grads` reads the context's `materializeGrads` field;
  - `register_grad_fn_and_remove_from_autograd` and `unregister_grad_fn` are set updates on `ContextPool`;
  - `clear_grad_fns_for_next_edges` is not part of this model, because it only edits PyTorch's autograd graph.
- The forward and backward functions are parameters, and `torch.set_grad_enabled` / `torch.no_grad` are not modelled. The grad-mode flag is passed to the forward function as an argument.
- Messages, `print`, `warnings.warn` and stream flushing are left out. Exception classes appear only as the `Error` constructors, including `Fallback` for the final wrap.
- Thread safety of the global map is not modelled, because the Python code has no locking.
- Setting `ctx.fw_kernel_invoke_id` is modelled on the returned context value only. The model does not update the same context as seen through the outputs' `grad_fn`, because contexts are values here, not shared objects.
- ForwardBridge.CallPythonForwardFunction: on a failure, the contract says nothing about how far the output list had been mutated, because the bridge discards that list when it raises. Its pool contract says that at most one new key appears; it does not tie that key to the context on a failed call, which leaves the context registered.
- ForwardBridge.ForwardOnEntry: the same pool contract, at most one new key.
- ForwardBridge.FinishForward: the same pool contract, at most one new key.
- BackwardBridge.CallPythonBackwardFunction: on a failure, the contract says nothing about how far the output list had been mutated, because the bridge discards that list when it raises.
- BackwardBridge.CallPythonBackwardFunction: it uses the corrected address list. An absent, non-materialized gradient therefore gets the -1 placeholder, and the call can succeed. The code as written raises at line 66 and falls back (see Findings).
- BackwardBridge.ExportBackwardOutputs: it uses the corrected address list, so an absent gradient gets the -1 placeholder where the code as written raises at line 66 (see Findings).
- BackwardBridge.BackwardOnEntry: the same corrected address list, for the same reason.
- Aliasing.ProcessInplaceOutputs: it builds the corrected address list. An absent input gets -1 instead of raising at line 66 (see Findings). On later runs, the write-back condition is stated over the cloned list. The contract does not fix which fresh tokens the clones take.
- `next` stands for the allocator. Each bridge requires it to be above every token in its arguments. In the Python code this freshness comes from PyTorch's allocator.

## Findings

| source | as written | input that shows it | evidently intended | confidence | as-written member | corrected member |
|---|---|---|---|---|---|---|
| orttraining/orttraining/python/training/ortmodule/_custom_autograd_function_runner.py:66 | the address list calls `data_ptr()` on every used input; in backward, an absent gradient with `materialize_grads` off is stored as None (lines 505-527), so `None.data_ptr()` raises and the whole backward call falls back | a `PythonOpGrad` call whose gradient argument 1 is None, for a forward kernel whose context did not materialize gradients | an absent input has no address: give it the -1 placeholder, so that no output can be detected as reusing it | not executed | Aliasing.AbsentInputBreaksAddressList | Aliasing.AbsentInputNeverAliased |

The rest of the model uses the corrected `Aliasing.AddressList`. `Aliasing.AddressListAgreesWhenPresent` shows it agrees with the list as written whenever no input is absent. `BackwardBridge.AbsentGradientReachesAddressList` shows the backward bridge does produce such a None.
