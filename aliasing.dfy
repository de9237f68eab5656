/** In-place reuse analysis of `_process_inplace_outputs`: which output shares a buffer with
    which input, how that is reconciled with the declared `inplace_map`, which outputs are
    cloned, and how outputs are written back into raw input buffers that were copied. */
module Aliasing {
  import opened Tensors
  import opened KernelInfoStore

  /** The value `inplace_map` and the detected map use for "reuses no input". */
  const NoAlias: int := -1

  /** Backward address lists start with a placeholder for the context argument. */
  function Offset(isBackward: bool): (n: nat)
  {
    if isBackward then 1 else 0
  }

  /** `x in s` followed by `s.index(x)`: the first position holding `x`, or NoAlias. */
  function FirstIndexOf(s: seq<int>, x: int): (r: int)
    ensures NoAlias <= r < |s|
    ensures r == NoAlias <==> x !in s
    ensures r != NoAlias ==> s[r] == x && forall j :: 0 <= j < r ==> s[j] != x
  {
    if |s| == 0 then NoAlias
    else if s[0] == x then 0
    else
      var r := FirstIndexOf(s[1..], x);
      assert forall j :: 1 <= j < |s| ==> s[j] == s[1..][j - 1];
      if r == NoAlias then NoAlias else r + 1
  }

  // ---------------------------------------------------------------------------
  // Input addresses

  /** Address of one input used for the run; an absent (None) gradient has none. */
  function AddressOf(t: Option<Tensor>): (a: int)
  {
    if t.Some? then t.value.storage else NoAlias
  }

  /** Addresses of the inputs used for the run, in input order. */
  function Addresses(used: seq<Option<Tensor>>): (a: seq<int>)
    ensures |a| == |used|
    ensures forall k :: 0 <= k < |used| ==> a[k] == AddressOf(used[k])
  {
    if |used| == 0 then []
    else
      var n := |used| - 1;
      assert forall k :: 0 <= k < n ==> used[..n][k] == used[k];
      Addresses(used[..n]) + [AddressOf(used[n])]
  }

  /** The input address list, preceded in backward by a placeholder for the context. An
      absent input gets the NoAlias placeholder, which no tensor storage can equal. */
  function AddressList(used: seq<Option<Tensor>>, isBackward: bool): (a: seq<int>)
    ensures |a| == |used| + Offset(isBackward)
    ensures isBackward ==> a[0] == NoAlias
    ensures forall k :: 0 <= k < |used| ==> a[k + Offset(isBackward)] == AddressOf(used[k])
  {
    (if isBackward then [NoAlias] else []) + Addresses(used)
  }

  /** The addresses as `_process_inplace_outputs` computes them, `t.data_ptr()` for every input used,
      which fails on an absent input. */
  function AddressesAsWritten(used: seq<Option<Tensor>>): Result<seq<int>, Error>
  {
    if |used| == 0 then Success([])
    else if used[|used| - 1].None? then Failure(NotATensor)
    else match AddressesAsWritten(used[..|used| - 1])
      case Failure(e) => Failure(e)
      case Success(a) => Success(a + [used[|used| - 1].value.storage])
  }

  /** The address list exactly as `_process_inplace_outputs` builds it (lines 66-68). */
  function AddressListAsWritten(used: seq<Option<Tensor>>, isBackward: bool): Result<seq<int>, Error>
  {
    match AddressesAsWritten(used)
    case Failure(e) => Failure(e)
    case Success(a) => Success((if isBackward then [NoAlias] else []) + a)
  }

  /** As written, one absent input makes the whole address list fail, so a backward call
      that passes None for a gradient while materialize_grads is off cannot complete. */
  lemma {:induction false} AbsentInputBreaksAddressList(used: seq<Option<Tensor>>, isBackward: bool, k: nat)
    requires k < |used| && used[k].None?
    ensures AddressListAsWritten(used, isBackward).Failure?
  {
    AbsentInputBreaksAddresses(used, k);
  }

  lemma {:induction false} AbsentInputBreaksAddresses(used: seq<Option<Tensor>>, k: nat)
    requires k < |used| && used[k].None?
    ensures AddressesAsWritten(used).Failure?
  {
    var n := |used| - 1;
    if k < n && used[n].Some? {
      assert used[..n][k] == used[k];
      AbsentInputBreaksAddresses(used[..n], k);
    }
  }

  /** When every input is present, the address list as written and the corrected one agree. */
  lemma AddressListAgreesWhenPresent(used: seq<Option<Tensor>>, isBackward: bool)
    requires forall k :: 0 <= k < |used| ==> used[k].Some?
    ensures AddressListAsWritten(used, isBackward) == Success(AddressList(used, isBackward))
  {
    AddressesAgreeWhenPresent(used);
  }

  lemma {:induction false} AddressesAgreeWhenPresent(used: seq<Option<Tensor>>)
    requires forall k :: 0 <= k < |used| ==> used[k].Some?
    ensures AddressesAsWritten(used) == Success(Addresses(used))
  {
    if |used| > 0 {
      var n := |used| - 1;
      assert forall k :: 0 <= k < n ==> used[..n][k] == used[k];
      AddressesAgreeWhenPresent(used[..n]);
    }
  }

  // ---------------------------------------------------------------------------
  // Detection

  /** The input an output is detected to reuse: the first address equal to its storage. */
  function DetectedAlias(v: Value, addresses: seq<int>): (k: int)
  {
    if v.TensorValue? then FirstIndexOf(addresses, v.tensor.storage) else NoAlias
  }

  ghost function DetectedAliasMap(outputs: seq<Value>, addresses: seq<int>): seq<int>
  {
    seq(|outputs|, o requires 0 <= o < |outputs| => DetectedAlias(outputs[o], addresses))
  }

  /** With the corrected address list, a detected alias always names a present input whose
      buffer is the output's, never the backward context placeholder. */
  lemma AbsentInputNeverAliased(v: Value, used: seq<Option<Tensor>>, isBackward: bool)
    ensures var a := DetectedAlias(v, AddressList(used, isBackward));
      a == NoAlias ||
      (&& v.TensorValue?
       && Offset(isBackward) <= a < |used| + Offset(isBackward)
       && used[a - Offset(isBackward)].Some?
       && used[a - Offset(isBackward)].value.storage == v.tensor.storage)
  {
  }

  /** The first-run detection loop: every tensor output is mapped to the first input whose
      address equals its storage; other outputs (the context slot, None) map to NoAlias. */
  method DetectAliases(outputs: seq<Value>, addresses: seq<int>) returns (detected: seq<int>)
    ensures detected == DetectedAliasMap(outputs, addresses)
    ensures forall o :: 0 <= o < |outputs| ==>
      (detected[o] == NoAlias <==> !(outputs[o].TensorValue? && outputs[o].tensor.storage in addresses))
    ensures forall o :: 0 <= o < |outputs| && detected[o] != NoAlias ==>
      && 0 <= detected[o] < |addresses|
      && addresses[detected[o]] == outputs[o].tensor.storage
      && forall j :: 0 <= j < detected[o] ==> addresses[j] != outputs[o].tensor.storage
  {
    detected := seq(|outputs|, _ => NoAlias);
    var o := 0;
    while o < |outputs|
      invariant 0 <= o <= |outputs| && |detected| == |outputs|
      invariant forall j :: 0 <= j < o ==> detected[j] == DetectedAlias(outputs[j], addresses)
      invariant forall j :: o <= j < |outputs| ==> detected[j] == NoAlias
    {
      var arg := outputs[o];
      if arg.TensorValue? && arg.tensor.storage in addresses {
        detected := detected[o := FirstIndexOf(addresses, arg.tensor.storage)];
      }
      o := o + 1;
    }
  }

  // ---------------------------------------------------------------------------
  // Reconciliation with the declared inplace_map

  /** Output `o` declares reuse of an input, and the detection disagrees: a fatal error. */
  predicate IsMismatch(declared: seq<int>, detected: seq<int>, o: nat)
    requires o < |declared| == |detected|
  {
    declared[o] != NoAlias && declared[o] != detected[o]
  }

  /** Every declared reuse was detected exactly. */
  predicate Reconcilable(declared: seq<int>, detected: seq<int>)
    requires |declared| == |detected|
  {
    forall o: nat :: o < |declared| ==> !IsMismatch(declared, detected, o)
  }

  /** Outputs that reuse an input without declaring it, in output order. */
  function CloneIndices(declared: seq<int>, detected: seq<int>): (indices: seq<nat>)
    requires |declared| == |detected|
  {
    if |declared| == 0 then []
    else
      var n := |declared| - 1;
      CloneIndices(declared[..n], detected[..n]) +
        (if declared[n] == NoAlias && detected[n] != NoAlias then [n] else [])
  }

  /** The clone list holds exactly the outputs with an undeclared detected reuse, each once,
      in increasing order. */
  lemma {:induction false} CloneIndicesExact(declared: seq<int>, detected: seq<int>)
    requires |declared| == |detected|
    ensures var r := CloneIndices(declared, detected);
      && (forall o: nat :: o in r <==> o < |declared| && declared[o] == NoAlias && detected[o] != NoAlias)
      && (forall i, j :: 0 <= i < j < |r| ==> r[i] < r[j])
  {
    if |declared| > 0 {
      var n := |declared| - 1;
      CloneIndicesExact(declared[..n], detected[..n]);
      assert forall o: nat :: o < n ==> declared[..n][o] == declared[o] && detected[..n][o] == detected[o];
      var prefix := CloneIndices(declared[..n], detected[..n]);
      assert forall i :: 0 <= i < |prefix| ==> prefix[i] in prefix;
    }
  }

  lemma CloneIndicesStep(declared: seq<int>, detected: seq<int>, o: nat)
    requires o < |declared| == |detected|
    ensures CloneIndices(declared[..o + 1], detected[..o + 1]) ==
      CloneIndices(declared[..o], detected[..o]) + (if declared[o] == NoAlias && detected[o] != NoAlias then [o] else [])
  {
    assert declared[..o + 1][..o] == declared[..o] && detected[..o + 1][..o] == detected[..o];
  }

  /** The error raised at the first mismatching output. */
  function MismatchError(declared: seq<int>, detected: seq<int>, o: nat): (e: Error)
    requires o < |declared| == |detected|
  {
    if detected[o] == NoAlias then DeclaredAliasNotDetected(o) else DeclaredAliasDiffers(o)
  }

  /** The comparison loop: success exactly when every declared reuse was detected, with the
      undeclared reuses as clone list; otherwise the error names the first mismatch. */
  method ReconcileAliases(declared: seq<int>, detected: seq<int>) returns (r: Result<seq<nat>, Error>)
    requires |declared| == |detected|
    ensures r.Success? <==> Reconcilable(declared, detected)
    ensures r.Success? ==> r.value == CloneIndices(declared, detected)
    ensures r.Failure? ==>
      && (r.error.DeclaredAliasNotDetected? || r.error.DeclaredAliasDiffers?)
      && r.error.output < |declared|
      && IsMismatch(declared, detected, r.error.output)
      && (forall j: nat :: j < r.error.output ==> !IsMismatch(declared, detected, j))
      && r.error == MismatchError(declared, detected, r.error.output)
  {
    var clones: seq<nat> := [];
    var o := 0;
    while o < |declared|
      invariant 0 <= o <= |declared|
      invariant clones == CloneIndices(declared[..o], detected[..o])
      invariant forall j: nat :: j < o ==> !IsMismatch(declared, detected, j)
    {
      var inplaceIndex, detectedIndex := declared[o], detected[o];
      if inplaceIndex == detectedIndex {
      } else if inplaceIndex != NoAlias && detectedIndex == NoAlias {
        assert IsMismatch(declared, detected, o);
        return Failure(DeclaredAliasNotDetected(o));
      } else if inplaceIndex != NoAlias && detectedIndex != NoAlias && inplaceIndex != detectedIndex {
        assert IsMismatch(declared, detected, o);
        return Failure(DeclaredAliasDiffers(o));
      } else if inplaceIndex == NoAlias && detectedIndex != NoAlias {
        clones := clones + [o];
      } else {
        assert false;
      }
      CloneIndicesStep(declared, detected, o);
      o := o + 1;
    }
    assert declared[..o] == declared && detected[..o] == detected;
    r := Success(clones);
  }

  // ---------------------------------------------------------------------------
  // Cloning flagged outputs

  /** `c` is `t.detach().clone()`: same device/dtype/shape and data, no autograd history. */
  predicate IsCloneOf(c: Tensor, t: Tensor)
  {
    c.meta == t.meta && c.content == t.content && !c.requiresGrad && c.gradFn.None?
  }

  /** `after` is `before` with every listed slot replaced by a clone in a buffer of its own,
      allocated at or above `next`, and every other slot untouched. */
  ghost predicate ClonedAt(before: seq<Value>, after: seq<Value>, indices: seq<nat>, next: nat)
  {
    && |after| == |before|
    && (forall o :: 0 <= o < |before| ==>
          if o in indices then
            && before[o].TensorValue? && after[o].TensorValue?
            && IsCloneOf(after[o].tensor, before[o].tensor)
            && after[o].tensor.storage >= next
          else after[o] == before[o])
    && (forall o1, o2 :: 0 <= o1 < |before| && 0 <= o2 < |before| && o1 != o2 && o1 in indices && o2 in indices ==>
          after[o1].tensor.storage != after[o2].tensor.storage)
  }

  /** Replace each listed output by a clone; fails if a listed slot is out of range or does
      not hold a tensor (possible on later runs, which trust the learned list). */
  method CloneOutputs(outputs: array<Value>, indices: seq<nat>, next: nat) returns (r: Outcome<Error>, next': nat)
    modifies outputs
    ensures r.Pass? <==> forall i :: 0 <= i < |indices| ==> indices[i] < outputs.Length && old(outputs[indices[i]]).TensorValue?
    ensures r.Pass? ==> ClonedAt(old(outputs[..]), outputs[..], indices, next)
    ensures r.Pass? ==>
      && next' == next + |indices|
      && (forall o :: 0 <= o < outputs.Length && o in indices ==> outputs[o].tensor.storage < next')
  {
    var i := 0;
    while i < |indices|
      invariant 0 <= i <= |indices|
      invariant forall j :: 0 <= j < i ==> indices[j] < outputs.Length && old(outputs[indices[j]]).TensorValue?
      invariant forall o :: 0 <= o < outputs.Length ==>
        if o in indices[..i] then
          && old(outputs[o]).TensorValue? && outputs[o].TensorValue?
          && IsCloneOf(outputs[o].tensor, old(outputs[o]).tensor)
          && next <= outputs[o].tensor.storage < next + i
        else outputs[o] == old(outputs[o])
      invariant forall o1, o2 :: 0 <= o1 < outputs.Length && 0 <= o2 < outputs.Length && o1 != o2 && o1 in indices[..i] && o2 in indices[..i] ==>
        outputs[o1].tensor.storage != outputs[o2].tensor.storage
    {
      var o := indices[i];
      if o >= outputs.Length {
        return Fail(IndexOutOfRange), next;
      }
      if !outputs[o].TensorValue? {
        assert o !in indices[..i];
        return Fail(NotATensor), next;
      }
      outputs[o] := TensorValue(Cloned(outputs[o].tensor, next + i));
      assert indices[..i + 1] == indices[..i] + [o];
      i := i + 1;
    }
    assert indices[..i] == indices;
    r, next' := Pass, next + |indices|;
  }

  // ---------------------------------------------------------------------------
  // Writing outputs back into raw input buffers that were copied

  /** Raw input `k` was replaced by a copy for the run: its buffer is not the one used. */
  ghost predicate Copied(raw: map<nat, Option<Tensor>>, addresses: seq<int>, k: nat)
  {
    k in raw && k < |addresses| && raw[k].Some? && raw[k].value.storage != addresses[k]
  }

  /** Outputs declared to reuse input `k`, in output order (the comprehension over inplace_map). */
  function ReusingOutputs(declared: seq<int>, k: int): (outs: seq<nat>)
  {
    if |declared| == 0 then []
    else
      var n := |declared| - 1;
      ReusingOutputs(declared[..n], k) + (if declared[n] == k then [n] else [])
  }

  /** The comprehension keeps exactly the outputs declared to reuse `k`, each once, in order. */
  lemma {:induction false} ReusingOutputsExact(declared: seq<int>, k: int)
    ensures var r := ReusingOutputs(declared, k);
      && (forall o: nat :: o in r <==> o < |declared| && declared[o] == k)
      && (forall i, j :: 0 <= i < j < |r| ==> r[i] < r[j])
  {
    if |declared| > 0 {
      var n := |declared| - 1;
      ReusingOutputsExact(declared[..n], k);
      assert forall o: nat :: o < n ==> declared[..n][o] == declared[o];
      var prefix := ReusingOutputs(declared[..n], k);
      assert forall i :: 0 <= i < |prefix| ==> prefix[i] in prefix;
    }
  }

  /** The inner loop of the write-back: each listed output must still share `address`; the
      raw tensor takes the first one's data (the single copy_) and fills every listed slot. */
  method ReplaceGroup(outputs: array<Value>, group: seq<nat>, address: nat, rawTensor: Tensor) returns (r: Outcome<Error>)
    requires |group| > 0 && forall i, j :: 0 <= i < j < |group| ==> group[i] < group[j]
    requires group[0] < outputs.Length && outputs[group[0]].TensorValue? && outputs[group[0]].tensor.storage == address
    modifies outputs
    ensures forall o :: 0 <= o < outputs.Length && o !in group ==> outputs[o] == old(outputs[o])
    ensures r.Pass? <==> forall j :: 0 <= j < |group| ==>
      group[j] < outputs.Length && old(outputs[group[j]]).TensorValue? && old(outputs[group[j]]).tensor.storage == address
    ensures r.Pass? ==> forall j :: 0 <= j < |group| ==>
      outputs[group[j]] == TensorValue(rawTensor.(content := old(outputs[group[0]]).tensor.content))
  {
    var firstData := outputs[group[0]].tensor.content;
    var raw := rawTensor;
    var copied := false;
    var i := 0;
    while i < |group|
      invariant 0 <= i <= |group|
      invariant copied <==> i > 0
      invariant raw == if copied then rawTensor.(content := firstData) else rawTensor
      invariant forall o :: 0 <= o < outputs.Length && o !in group[..i] ==> outputs[o] == old(outputs[o])
      invariant forall j :: 0 <= j < i ==>
        && group[j] < outputs.Length && old(outputs[group[j]]).TensorValue?
        && old(outputs[group[j]]).tensor.storage == address
        && outputs[group[j]] == TensorValue(rawTensor.(content := firstData))
    {
      var o := group[i];
      assert o !in group[..i];
      if o >= outputs.Length {
        return Fail(IndexOutOfRange);
      }
      if !outputs[o].TensorValue? {
        return Fail(NotATensor);
      }
      if outputs[o].tensor.storage != address {
        return Fail(WriteBackAddressMismatch);
      }
      if !copied {
        raw := raw.(content := outputs[o].tensor.content);
        copied := true;
      }
      outputs[o] := TensorValue(raw);
      assert group[..i + 1] == group[..i] + [o];
      i := i + 1;
    }
    r := Pass;
  }

  /** The outputs declared to reuse input `k` exist, hold tensors and share the buffer of
      the first of them. */
  ghost predicate ReuseGroupShared(outs: seq<Value>, declared: seq<int>, k: int)
  {
    && k in declared
    && var first := FirstIndexOf(declared, k);
       && first < |outs| && outs[first].TensorValue?
       && forall o :: 0 <= o < |declared| && declared[o] == k ==>
            o < |outs| && outs[o].TensorValue? && outs[o].tensor.storage == outs[first].tensor.storage
  }

  /** The write-back for one copied raw input (one pass of the outer loop): the outputs
      declared to reuse it must share the first one's buffer; the raw tensor takes that data
      once and fills those slots. `copied` says whether the raw buffer was written. */
  method WriteBackOne(outputs: array<Value>, declared: seq<int>, k: nat, rawTensor: Tensor) returns (r: Outcome<Error>, copied: bool)
    modifies outputs
    ensures forall o :: 0 <= o < outputs.Length && !(o < |declared| && declared[o] == k) ==> outputs[o] == old(outputs[o])
    ensures r.Pass? <==> ReuseGroupShared(old(outputs[..]), declared, k)
    ensures r.Pass? ==> copied && forall o :: 0 <= o < |declared| && declared[o] == k ==>
      outputs[o] == TensorValue(rawTensor.(content := old(outputs[..])[FirstIndexOf(declared, k)].tensor.content))
  {
    ghost var before := outputs[..];
    var reusing := ReusingOutputs(declared, k);
    ReusingOutputsExact(declared, k);
    if |reusing| == 0 {
      assert k !in declared by {
        forall o | 0 <= o < |declared| ensures declared[o] != k { assert o !in reusing; }
      }
      return Fail(IndexOutOfRange), false;
    }
    var first := reusing[0];
    assert first in reusing;
    assert first == FirstIndexOf(declared, k) by {
      var f := FirstIndexOf(declared, k);
      assert f in reusing;
    }
    if first >= outputs.Length || !outputs[first].TensorValue? {
      return (if first >= outputs.Length then Fail(IndexOutOfRange) else Fail(NotATensor)), false;
    }
    r := ReplaceGroup(outputs, reusing, outputs[first].tensor.storage, rawTensor);
    copied := true;
    assert forall o :: 0 <= o < |declared| && declared[o] == k <==> o in reusing;
    if r.Pass? {
      assert ReuseGroupShared(before, declared, k) by {
        forall o | 0 <= o < |declared| && declared[o] == k
          ensures o < |before| && before[o].TensorValue? && before[o].tensor.storage == before[first].tensor.storage
        {
          var j :| 0 <= j < |reusing| && reusing[j] == o;
        }
      }
    } else {
      assert !ReuseGroupShared(before, declared, k) by {
        var j :| 0 <= j < |reusing| && !(reusing[j] < outputs.Length && before[reusing[j]].TensorValue?
          && before[reusing[j]].tensor.storage == before[first].tensor.storage);
        assert reusing[j] in reusing;
        assert declared[reusing[j]] == k;
      }
    }
  }

  /** Output `o` is declared to reuse a raw input that was copied. */
  ghost predicate ReusesCopied(declared: seq<int>, raw: map<nat, Option<Tensor>>, addresses: seq<int>, o: int)
  {
    0 <= o < |declared| && declared[o] >= 0 && Copied(raw, addresses, declared[o] as nat)
  }

  /** What the write-back needs to succeed: every raw input is a tensor and, for each one that
      was copied, the outputs declared to reuse it share one buffer. */
  ghost predicate WriteBackPossible(outs: seq<Value>, declared: seq<int>, raw: map<nat, Option<Tensor>>, addresses: seq<int>)
  {
    && (forall k :: k in raw && k < |addresses| ==> raw[k].Some?)
    && (forall k: nat :: Copied(raw, addresses, k) ==> ReuseGroupShared(outs, declared, k))
  }

  /** `after` is `before` with every output that reuses a copied raw input replaced by that raw
      tensor, now holding the data of the first output reusing it; every other slot untouched. */
  ghost predicate WrittenBackAt(before: seq<Value>, after: seq<Value>, declared: seq<int>, raw: map<nat, Option<Tensor>>, addresses: seq<int>)
    requires WriteBackPossible(before, declared, raw, addresses)
  {
    && |after| == |before|
    && forall o :: 0 <= o < |before| ==>
         after[o] ==
           if ReusesCopied(declared, raw, addresses, o) then
             var k := declared[o] as nat;
             TensorValue(raw[k].value.(content := before[FirstIndexOf(declared, k)].tensor.content))
           else before[o]
  }

  /** ReuseGroupShared only looks at the outputs declared to reuse `k`. */
  lemma ReuseGroupSharedFrame(a: seq<Value>, b: seq<Value>, declared: seq<int>, k: int)
    requires |a| == |b|
    requires forall o :: 0 <= o < |declared| && o < |a| && declared[o] == k ==> a[o] == b[o]
    ensures ReuseGroupShared(a, declared, k) <==> ReuseGroupShared(b, declared, k)
  {
  }

  /** The write-back loop over the raw inputs used in place, in increasing input order: a raw
      input that was copied is written once, and the outputs reusing it become that raw
      tensor. `written` lists the raw inputs whose buffers received a copy_. */
  method WriteBack(outputs: array<Value>, declared: seq<int>, raw: map<nat, Option<Tensor>>, addresses: seq<int>)
    returns (r: Outcome<Error>, written: seq<nat>)
    requires forall k :: k in raw ==> k < |addresses|
    modifies outputs
    ensures r.Pass? <==> WriteBackPossible(old(outputs[..]), declared, raw, addresses)
    ensures r.Pass? ==> WrittenBackAt(old(outputs[..]), outputs[..], declared, raw, addresses)
    ensures r.Pass? ==>
      && (forall i, j :: 0 <= i < j < |written| ==> written[i] < written[j])
      && (forall k: nat :: k in written <==> Copied(raw, addresses, k))
  {
    ghost var before := outputs[..];
    written := [];
    var k := 0;
    while k < |addresses|
      invariant 0 <= k <= |addresses|
      invariant forall i, j :: 0 <= i < j < |written| ==> written[i] < written[j]
      invariant forall i :: 0 <= i < |written| ==> written[i] < k
      invariant forall k': nat :: k' in written <==> k' < k && Copied(raw, addresses, k')
      invariant forall k' :: k' in raw && k' < k ==> raw[k'].Some?
      invariant forall k': nat :: k' < k && Copied(raw, addresses, k') ==> ReuseGroupShared(before, declared, k')
      invariant forall o :: 0 <= o < outputs.Length ==>
        outputs[o] ==
          if ReusesCopied(declared, raw, addresses, o) && declared[o] < k then
            var k' := declared[o] as nat;
            TensorValue(raw[k'].value.(content := before[FirstIndexOf(declared, k')].tensor.content))
          else before[o]
    {
      if k in raw {
        if raw[k].None? {
          return Fail(NotATensor), written;
        }
        if raw[k].value.storage != addresses[k] {
          ghost var current := outputs[..];
          assert forall o :: 0 <= o < |declared| && o < |current| && declared[o] == k ==> current[o] == before[o];
          ReuseGroupSharedFrame(current, before, declared, k);
          var step, copied := WriteBackOne(outputs, declared, k, raw[k].value);
          if copied {
            written := written + [k];
          }
          if step.Fail? {
            return step, written;
          }
        }
      }
      k := k + 1;
    }
    r := Pass;
  }

  // ---------------------------------------------------------------------------
  // The whole of `_process_inplace_outputs`

  /** Whether the write-back step runs: in forward, on the first run or when the capture list
      says some input may have been copied. */
  predicate WriteBackRuns(isBackward: bool, firstTime: bool, capture: Option<seq<nat>>)
  {
    !isBackward && (firstTime || NonEmpty(capture))
  }

  /** Every listed output exists and holds a tensor: what cloning needs. */
  ghost predicate CloneTargetsPresent(outs: seq<Value>, indices: seq<nat>)
  {
    forall i :: 0 <= i < |indices| ==> indices[i] < |outs| && outs[indices[i]].TensorValue?
  }

  /** The step before the write-back succeeds: on the first run (`clone` unset) the detected
      map has the declared map's length and reconciles with it; on later runs every learned
      clone index names a tensor output. */
  ghost predicate CloneStepPasses(before: seq<Value>, clone: Option<seq<nat>>, declared: seq<int>, addresses: seq<int>)
  {
    if clone.Some? then CloneTargetsPresent(before, clone.value)
    else
      var detected := DetectedAliasMap(before, addresses);
      |declared| == |detected| && Reconcilable(declared, detected)
  }

  /** The clone list a run uses: the learned one, or the one the first run learns. */
  ghost function CloneListUsed(before: seq<Value>, clone: Option<seq<nat>>, declared: seq<int>, addresses: seq<int>): seq<nat>
    requires CloneStepPasses(before, clone, declared, addresses)
  {
    if clone.Some? then clone.value else CloneIndices(declared, DetectedAliasMap(before, addresses))
  }

  /** The clone list once `_process_inplace_outputs` has run on `before`: a learned list is
      kept; a first run learns the reconciled list when the clone step passes, and nothing
      when it does not. */
  ghost function LearnedClones(before: seq<Value>, clone: Option<seq<nat>>, declared: seq<int>, addresses: seq<int>): Option<seq<nat>>
  {
    if clone.Some? then clone
    else if CloneStepPasses(before, None, declared, addresses) then Some(CloneIndices(declared, DetectedAliasMap(before, addresses)))
    else None
  }

  /** When `_process_inplace_outputs` succeeds: the clone step passes and, if the write-back
      runs, it is possible on the outputs as cloned. */
  ghost predicate InplacePasses(
    before: seq<Value>, cloned: seq<Value>, clone: Option<seq<nat>>, capture: Option<seq<nat>>,
    declared: seq<int>, used: seq<Option<Tensor>>, raw: map<nat, Option<Tensor>>, isBackward: bool)
  {
    var addresses := AddressList(used, isBackward);
    && CloneStepPasses(before, clone, declared, addresses)
    && (WriteBackRuns(isBackward, clone.None?, capture) ==> WriteBackPossible(cloned, declared, raw, addresses))
  }

  /** What `_process_inplace_outputs` does to the output list `before`, given the learned
      clone list `clone` and capture list `capture`: once the clone step passes, `cloned` is
      `before` with the clone list's outputs cloned; on success `after` is `cloned` written
      back when the write-back runs, and `cloned` itself otherwise. */
  ghost predicate InplaceProcessed(
    before: seq<Value>, cloned: seq<Value>, after: seq<Value>, clone: Option<seq<nat>>, capture: Option<seq<nat>>,
    declared: seq<int>, used: seq<Option<Tensor>>, raw: map<nat, Option<Tensor>>, isBackward: bool, next: nat)
  {
    var addresses := AddressList(used, isBackward);
    && (CloneStepPasses(before, clone, declared, addresses) ==>
          ClonedAt(before, cloned, CloneListUsed(before, clone, declared, addresses), next))
    && (InplacePasses(before, cloned, clone, capture, declared, used, raw, isBackward) ==>
          if WriteBackRuns(isBackward, clone.None?, capture) then WrittenBackAt(cloned, after, declared, raw, addresses)
          else after == cloned)
  }

  /** A lower allocation bound still bounds the clones. */
  lemma InplaceProcessedLower(
    before: seq<Value>, cloned: seq<Value>, after: seq<Value>, clone: Option<seq<nat>>, capture: Option<seq<nat>>,
    declared: seq<int>, used: seq<Option<Tensor>>, raw: map<nat, Option<Tensor>>, isBackward: bool, next: nat, lower: nat)
    requires lower <= next
    requires InplaceProcessed(before, cloned, after, clone, capture, declared, used, raw, isBackward, next)
    ensures InplaceProcessed(before, cloned, after, clone, capture, declared, used, raw, isBackward, lower)
  {
  }

  /** On the first run the clones never touch an output declared to reuse an input, so the
      write-back is possible on the cloned outputs exactly when it is on the outputs the
      function returned. */
  lemma {:induction false} CloneKeepsWriteBackGroups(
    before: seq<Value>, cloned: seq<Value>, declared: seq<int>, raw: map<nat, Option<Tensor>>, addresses: seq<int>, next: nat)
    requires CloneStepPasses(before, None, declared, addresses)
    requires ClonedAt(before, cloned, CloneListUsed(before, None, declared, addresses), next)
    ensures WriteBackPossible(cloned, declared, raw, addresses) <==> WriteBackPossible(before, declared, raw, addresses)
  {
    var detected := DetectedAliasMap(before, addresses);
    var indices := CloneIndices(declared, detected);
    CloneIndicesExact(declared, detected);
    forall k: nat ensures ReuseGroupShared(cloned, declared, k) <==> ReuseGroupShared(before, declared, k) {
      forall o | 0 <= o < |declared| && o < |cloned| && declared[o] == k ensures cloned[o] == before[o] {
        assert o !in indices;
      }
      ReuseGroupSharedFrame(cloned, before, declared, k);
    }
  }

  /** `_process_inplace_outputs`. On a kernel's first run (no clone list yet) the detected
      aliasing is reconciled with `declared` and the clone list learned; on every run the
      listed outputs are cloned; in forward, when inputs may have been copied, outputs are
      written back into the raw inputs. `cloned` is the output list between the two steps. */
  method ProcessInplaceOutputs(
    info: KernelInfo, outputs: array<Value>, declared: seq<int>,
    used: seq<Option<Tensor>>, raw: map<nat, Option<Tensor>>, isBackward: bool, next: nat)
    returns (r: Outcome<Error>, written: seq<nat>, next': nat, ghost cloned: seq<Value>)
    requires forall k :: k in raw ==> k < |used| + Offset(isBackward)
    requires forall k :: 0 <= k < |used| && used[k].Some? ==> used[k].value.storage < next
    modifies info, outputs
    ensures next <= next'
    ensures info.tensorInputIndicesToSaveInCtx == old(info.tensorInputIndicesToSaveInCtx)
    ensures info.materializeGrads == old(info.materializeGrads)
    ensures info.materializeGradsConfig == old(info.materializeGradsConfig)
    // trusted once learned
    ensures old(info.outputIndicesForClone).Some? ==> info.outputIndicesForClone == old(info.outputIndicesForClone)
    // learned on the first run, from the detected aliasing
    ensures old(info.outputIndicesForClone).None? ==>
      var detected := DetectedAliasMap(old(outputs[..]), AddressList(used, isBackward));
      if |declared| != |detected| then r == Fail(AliasMapLengthMismatch) && info.outputIndicesForClone.None?
      else if !Reconcilable(declared, detected) then r.Fail? && info.outputIndicesForClone.None?
      else info.outputIndicesForClone == Some(CloneIndices(declared, detected))
    ensures info.outputIndicesForClone == LearnedClones(old(outputs[..]), old(info.outputIndicesForClone), declared, AddressList(used, isBackward))
    // when it succeeds, and what it leaves in the output list
    ensures r.Pass? <==> InplacePasses(old(outputs[..]), cloned, old(info.outputIndicesForClone),
      info.tensorInputIndicesToSaveInCtx, declared, used, raw, isBackward)
    ensures old(info.outputIndicesForClone).None? ==>
      (r.Pass? <==>
        && CloneStepPasses(old(outputs[..]), None, declared, AddressList(used, isBackward))
        && (WriteBackRuns(isBackward, true, info.tensorInputIndicesToSaveInCtx) ==>
              WriteBackPossible(old(outputs[..]), declared, raw, AddressList(used, isBackward))))
    ensures InplaceProcessed(old(outputs[..]), cloned, outputs[..], old(info.outputIndicesForClone),
      info.tensorInputIndicesToSaveInCtx, declared, used, raw, isBackward, next)
    ensures r.Pass? ==>
      && info.outputIndicesForClone.Some?
      && (forall o, k :: 0 <= o < |cloned| && o in info.outputIndicesForClone.value && 0 <= k < |used| && used[k].Some? ==>
            cloned[o].tensor.storage != used[k].value.storage)
    ensures r.Pass? ==>
      if WriteBackRuns(isBackward, old(info.outputIndicesForClone).None?, info.tensorInputIndicesToSaveInCtx) then
        var addresses := AddressList(used, isBackward);
        && (forall i, j :: 0 <= i < j < |written| ==> written[i] < written[j])
        && (forall k: nat :: k in written <==> Copied(raw, addresses, k))
      else written == []
  {
    ghost var before := outputs[..];
    var addresses := AddressList(used, isBackward);
    var firstTime := info.outputIndicesForClone.None?;
    written, next', cloned := [], next, outputs[..];
    if firstTime {
      var detected := DetectAliases(outputs[..], addresses);
      if |declared| != |detected| {
        return Fail(AliasMapLengthMismatch), written, next', cloned;
      }
      var reconciled := ReconcileAliases(declared, detected);
      if reconciled.Failure? {
        return Fail(reconciled.error), written, next', cloned;
      }
      info.outputIndicesForClone := Some(reconciled.value);
      assert CloneTargetsPresent(before, reconciled.value) by {
        CloneIndicesExact(declared, detected);
        forall i | 0 <= i < |reconciled.value| ensures reconciled.value[i] < |before| && before[reconciled.value[i]].TensorValue? {
          assert reconciled.value[i] in reconciled.value;
        }
      }
    }
    var cloning;
    cloning, next' := CloneOutputs(outputs, info.outputIndicesForClone.value, next);
    if cloning.Fail? {
      return cloning, written, next, outputs[..];
    }
    cloned := outputs[..];
    forall o, k | 0 <= o < |cloned| && o in info.outputIndicesForClone.value && 0 <= k < |used| && used[k].Some?
      ensures cloned[o].tensor.storage != used[k].value.storage
    {
    }
    if firstTime {
      CloneKeepsWriteBackGroups(before, cloned, declared, raw, addresses, next);
    }
    if WriteBackRuns(isBackward, firstTime, info.tensorInputIndicesToSaveInCtx) {
      r, written := WriteBack(outputs, declared, raw, addresses);
    } else {
      r := Pass;
    }
  }

  /** `_process_inplace_outputs` never replaces an output that is not a tensor (the context
      slot, None): clones and write-backs only ever touch tensor outputs. */
  lemma NonTensorOutputKept(
    before: seq<Value>, cloned: seq<Value>, after: seq<Value>, declared: seq<int>,
    raw: map<nat, Option<Tensor>>, addresses: seq<int>, indices: seq<nat>, next: nat, o: nat)
    requires o < |before| && !before[o].TensorValue?
    requires ClonedAt(before, cloned, indices, next)
    requires after == cloned ||
      (WriteBackPossible(cloned, declared, raw, addresses) && WrittenBackAt(cloned, after, declared, raw, addresses))
    ensures o < |after| && after[o] == before[o]
  {
  }
}
