/** The per-kernel metadata learned on a kernel's first run (CustomFuncOpKernelInfo), the
    process-wide map from kernel_invoke_id to it (_GlobalOpKernelInfoMap), and the pool that
    keeps autograd contexts alive between forward and backward. */
module KernelInfoStore {
  import opened Tensors

  /** What the bridge learns about one PythonOp/PythonOpGrad kernel instance. Every optional
      field starts unset, is written on the first run and is trusted on every later run. */
  class KernelInfo {
    const kernelInvokeId: string
    /** input indices whose tensors the autograd.Function saved in its context */
    var tensorInputIndicesToSaveInCtx: Option<seq<nat>>
    /** ctx.set_materialize_grads(...) as seen on the first run, and the device/dtype/shape of
        every tensor output, used to build zero gradients in backward */
    var materializeGrads: bool
    var materializeGradsConfig: Option<map<nat, Meta>>
    /** outputs that reuse an input buffer without declaring it, and so are cloned */
    var outputIndicesForClone: Option<seq<nat>>

    constructor (kernelInvokeId: string)
      ensures this.kernelInvokeId == kernelInvokeId
      ensures tensorInputIndicesToSaveInCtx.None? && outputIndicesForClone.None?
      ensures !materializeGrads && materializeGradsConfig.None?
    {
      this.kernelInvokeId := kernelInvokeId;
      tensorInputIndicesToSaveInCtx := None;
      materializeGrads := false;
      materializeGradsConfig := None;
      outputIndicesForClone := None;
    }
  }

  /** _GlobalOpKernelInfoMap: key kernel_invoke_id, value the kernel's learned metadata. */
  class KernelInfoMap {
    var entries: map<string, KernelInfo>

    /** Each entry is stored under its own kernel_invoke_id; so distinct keys hold distinct
        objects, and updating one kernel's entry leaves every other kernel's entry alone. */
    ghost predicate Valid()
      reads this
    {
      forall k :: k in entries ==> entries[k].kernelInvokeId == k
    }

    constructor ()
      ensures Valid() && entries == map[]
    {
      entries := map[];
    }

    /** What the entry for `id` has learned so far; unset when there is no entry yet. */
    ghost function LearnedCloneList(id: string): Option<seq<nat>>
      reads this, entries.Values
    {
      if id in entries then entries[id].outputIndicesForClone else None
    }

    ghost function LearnedCaptureList(id: string): Option<seq<nat>>
      reads this, entries.Values
    {
      if id in entries then entries[id].tensorInputIndicesToSaveInCtx else None
    }

    /** The lookup both bridges start with: create the entry on first use, reuse it after. */
    method GetOrCreate(kernelInvokeId: string) returns (info: KernelInfo)
      requires Valid()
      modifies this
      ensures Valid()
      ensures kernelInvokeId in entries && info == entries[kernelInvokeId]
      ensures kernelInvokeId in old(entries) ==> entries == old(entries)
      ensures kernelInvokeId !in old(entries) ==>
        && fresh(info)
        && entries == old(entries)[kernelInvokeId := info]
        && info.tensorInputIndicesToSaveInCtx.None? && info.outputIndicesForClone.None?
        && !info.materializeGrads && info.materializeGradsConfig.None?
    {
      if kernelInvokeId !in entries {
        var created := new KernelInfo(kernelInvokeId);
        entries := entries[kernelInvokeId := created];
      }
      info := entries[kernelInvokeId];
    }
  }

  /** The native pool (PyNodeSharedPointerPool) that holds a strong reference to each
      autograd context from the end of forward until its backward has run, keyed by id(ctx). */
  class ContextPool {
    var registered: set<nat>

    constructor ()
      ensures registered == {}
    {
      registered := {};
    }

    method Register(key: nat)
      modifies this
      ensures registered == old(registered) + {key}
    {
      registered := registered + {key};
    }

    method Unregister(key: nat)
      modifies this
      ensures registered == old(registered) - {key}
    {
      registered := registered - {key};
    }
  }
}
