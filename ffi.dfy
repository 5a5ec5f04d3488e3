/**
 * The C boundary (src/ffi.rs): opaque core handles, result boxes carrying
 * either a value buffer or an error string, and the raw allocation
 * primitives.
 *
 * Memory is a `Heap` object holding one map per kind of allocation, keyed by
 * address; address 0 is the null pointer. Allocation may fail (the global
 * allocator may return null), which the model leaves as a nondeterministic
 * choice.
 */
module Ffi {

  import opened Wrappers
  import opened Errors
  import opened Core

  /** A raw pointer, 0 being null. */
  type Ptr = nat
  const NULL: Ptr := 0

  /** `#[repr(C)] struct ZkNeuralCoreResult { value, value_size, error }`. */
  datatype CoreResult = CoreResult(value: Ptr, valueSize: nat, error: Ptr)

  /** `from_rust_result` panics in `CString::new(...).unwrap()` when the error text holds a NUL. */
  predicate Convertible(r: Result<seq<byte>, ZkError>)
  {
    r.Err? ==> NUL !in Display(r.error)
  }

  class Heap {
    /** Live `Box<ZKNeuralCore>`s. */
    var cores: map<Ptr, ZkNeuralCore>
    /** Live `Box<ZkNeuralCoreResult>`s. */
    var results: map<Ptr, CoreResult>
    /** Live byte allocations made by `rs_zkneural_alloc`. */
    var buffers: map<Ptr, seq<byte>>
    /** `CString`s released with `into_raw`. */
    var strings: map<Ptr, string>
    /** The lowest address never handed out. */
    var next: Ptr
    /** For each buffer a result owns, that result (entries of released results may linger). */
    ghost var owner: map<Ptr, Ptr>

    ghost predicate Valid()
      reads this
    {
      && next > NULL
      && (forall p :: p in cores ==> NULL < p < next)
      && (forall p :: p in results ==> NULL < p < next)
      && (forall p :: p in buffers ==> NULL < p < next)
      && (forall p :: p in strings ==> NULL < p < next)
      // A result box points at live memory: its value buffer has
      // `value_size` bytes and no other box owns it; its error string exists.
      && (forall p :: p in results && results[p].value != NULL ==>
            && results[p].value in buffers && |buffers[results[p].value]| == results[p].valueSize
            && results[p].value in owner && owner[results[p].value] == p)
      && (forall p :: p in results && results[p].error != NULL ==> results[p].error in strings)
    }

    /** `p` is a result box that carries `r` the way `from_rust_result` lays it out. */
    ghost predicate Holds(p: Ptr, r: Result<seq<byte>, ZkError>)
      reads this
    {
      && p in results
      && match r
         case Ok(v) =>
           var box := results[p];
           box.value != NULL && box.value in buffers && buffers[box.value] == v
           && box.valueSize == |v| && box.error == NULL
         case Err(e) =>
           var box := results[p];
           box.value == NULL && box.valueSize == 0
           && box.error != NULL && box.error in strings && strings[box.error] == Display(e)
    }

    /** No core reachable through the boundary has a proving type. */
    ghost predicate NoProvingType()
      reads this, cores.Values
    {
      forall p :: p in cores ==> cores[p].provingType.None?
    }

    constructor ()
      ensures Valid() && NoProvingType()
      ensures cores == map[] && results == map[] && buffers == map[] && strings == map[]
    {
      cores, results, buffers, strings := map[], map[], map[], map[];
      owner := map[];
      next := 1;
    }

    /** A fresh address for a new allocation. */
    method FreshAddress() returns (p: Ptr)
      requires next > NULL
      modifies this`next
      ensures p == old(next) && next == p + 1 && p > NULL
    {
      p := next;
      next := next + 1;
    }

    /** `rs_zkneural_alloc(len)`: null when the allocator fails, else a fresh block of `len` unspecified bytes. */
    method Alloc(len: nat) returns (p: Ptr)
      requires Valid()
      modifies this
      ensures Valid() && next >= old(next)
      ensures cores == old(cores) && results == old(results) && strings == old(strings)
      ensures p == NULL ==> buffers == old(buffers)
      ensures p != NULL ==> p !in old(buffers) && p >= old(next) && p in buffers
                            && |buffers[p]| == len && buffers == old(buffers)[p := buffers[p]]
    {
      if * {
        p := NULL;
      } else {
        p := FreshAddress();
        // A block of zeros shows that a block of `len` bytes exists; the
        // contents chosen are arbitrary.
        assert |seq(len, _ => 0 as byte)| == len;
        var contents: seq<byte> :| |contents| == len;
        buffers := buffers[p := contents];
      }
    }

    /**
     * `rs_zkneural_dealloc(ptr, len)`: the block must come from `Alloc` with
     * that length and must not be a result's value buffer (those are released
     * with their result).
     */
    method Dealloc(ptr: Ptr, len: nat)
      requires Valid()
      requires ptr in buffers && len == |buffers[ptr]|
      requires forall q :: q in results ==> results[q].value != ptr
      modifies this
      ensures Valid() && next == old(next)
      ensures buffers == old(buffers) - {ptr}
      ensures cores == old(cores) && results == old(results) && strings == old(strings)
    {
      buffers := buffers - {ptr};
    }

    /**
     * `ZkNeuralCoreResult::from_rust_result`: `Ok(v)` is copied into a fresh
     * buffer of `|v|` bytes, and null is returned if that allocation fails;
     * `Err(e)` gets a null value, size 0 and a fresh C string holding the
     * error's text.
     */
    method FromRustResult(r: Result<seq<byte>, ZkError>) returns (p: Ptr)
      requires Valid() && Convertible(r)
      modifies this
      ensures Valid() && next >= old(next)
      ensures cores == old(cores)
      ensures r.Err? ==> p != NULL
      ensures p != NULL ==> p !in old(results) && Holds(p, r)
      ensures p == NULL ==> results == old(results) && buffers == old(buffers) && strings == old(strings)
      ensures p != NULL ==> results == old(results)[p := results[p]]
      ensures forall q :: q in old(buffers) ==> q in buffers && buffers[q] == old(buffers)[q]
      ensures forall q :: q in old(strings) ==> q in strings && strings[q] == old(strings)[q]
      ensures buffers.Keys <= old(buffers.Keys) + (if p == NULL then {} else {results[p].value})
      ensures strings.Keys <= old(strings.Keys) + (if p == NULL then {} else {results[p].error})
      ensures p != NULL && results[p].value != NULL ==> results[p].value !in old(buffers)
      ensures p != NULL && results[p].error != NULL ==> results[p].error !in old(strings)
    {
      match r
      case Ok(value) => p := BoxValue(value);
      case Err(e) => p := BoxError(Display(e));
    }

    /** The `Ok` arm of `from_rust_result`: copy into a fresh buffer, then box; null if the copy cannot be allocated. */
    method BoxValue(value: seq<byte>) returns (p: Ptr)
      requires Valid()
      modifies this
      ensures Valid() && next >= old(next)
      ensures cores == old(cores) && strings == old(strings)
      ensures p == NULL ==> results == old(results) && buffers == old(buffers)
      ensures p != NULL ==> && p !in old(results) && p in results
                            && results == old(results)[p := results[p]]
                            && results[p].value != NULL && results[p].valueSize == |value| && results[p].error == NULL
                            && results[p].value !in old(buffers)
                            && buffers == old(buffers)[results[p].value := value]
    {
      var ptr := Alloc(|value|);
      if ptr == NULL {
        return NULL;
      }
      assert forall q :: q in results && results[q].value != NULL ==> results[q].value != ptr;
      p := BoxBuffer(ptr, value);
    }

    /**
     * `copy_nonoverlapping` of `value` into the live, unowned buffer `ptr`,
     * then `Box::into_raw` of a result owning it.
     */
    method BoxBuffer(ptr: Ptr, value: seq<byte>) returns (p: Ptr)
      requires Valid() && ptr in buffers && |buffers[ptr]| == |value|
      requires forall q :: q in results && results[q].value != NULL ==> results[q].value != ptr
      modifies this
      ensures Valid() && next > old(next)
      ensures cores == old(cores) && strings == old(strings)
      ensures p != NULL && p !in old(results) && p in results && results == old(results)[p := CoreResult(ptr, |value|, NULL)]
      ensures buffers == old(buffers)[ptr := value]
    {
      buffers := buffers[ptr := value];
      p := FreshAddress();
      results := results[p := CoreResult(ptr, |value|, NULL)];
      owner := owner[ptr := p];
    }

    /**
     * The `Err` arm of `from_rust_result`: the error's text `message` becomes
     * a fresh C string (which needs `message` NUL-free), boxed with a null
     * value and size 0.
     */
    method BoxError(message: string) returns (p: Ptr)
      requires Valid() && NUL !in message
      modifies this
      ensures Valid() && next >= old(next)
      ensures cores == old(cores) && buffers == old(buffers)
      ensures p != NULL && p !in old(results) && p in results && results == old(results)[p := results[p]]
      ensures results[p].value == NULL && results[p].valueSize == 0 && results[p].error != NULL
      ensures results[p].error !in old(strings) && strings == old(strings)[results[p].error := message]
    {
      var errorMsg := FreshAddress();
      strings := strings[errorMsg := message];
      p := FreshAddress();
      results := results[p := CoreResult(NULL, 0, errorMsg)];
    }

    /**
     * `rs_zkneural_dealloc_result`: null is ignored; otherwise the box goes,
     * with its value buffer when `value` is not null. The error string is not
     * reclaimed.
     */
    method DeallocResult(p: Ptr)
      requires Valid() && (p == NULL || p in results)
      modifies this
      ensures Valid() && next == old(next)
      ensures cores == old(cores) && strings == old(strings)
      ensures p == NULL ==> results == old(results) && buffers == old(buffers)
      ensures p != NULL ==> results == old(results) - {p}
      ensures p != NULL && old(results[p]).value == NULL ==> buffers == old(buffers)
      ensures p != NULL && old(results[p]).value != NULL ==> buffers == old(buffers) - {old(results[p]).value}
    {
      if p == NULL {
        return;
      }
      var res := results[p];
      results := results - {p};
      if res.value != NULL {
        buffers := buffers - {res.value};
      }
    }

    /** `rs_zkneural_new`: a fresh handle to a core with every slot unset. */
    method New() returns (p: Ptr)
      requires Valid()
      modifies this
      ensures Valid() && next >= old(next)
      ensures p != NULL && p !in old(cores) && p in cores && cores == old(cores)[p := cores[p]]
      ensures fresh(cores[p])
      ensures cores[p].witnessCallback == None && cores[p].proofCallback == None && cores[p].provingType == None
      ensures results == old(results) && buffers == old(buffers) && strings == old(strings)
      ensures old(NoProvingType()) ==> NoProvingType()
    {
      var core := new ZkNeuralCore();
      p := FreshAddress();
      cores := cores[p := core];
    }

    /** `rs_zkneural_free`: null is ignored; otherwise the core is dropped. */
    method Free(core: Ptr)
      requires Valid() && (core == NULL || core in cores)
      modifies this
      ensures Valid() && next == old(next)
      ensures cores == old(cores) - {core}
      ensures results == old(results) && buffers == old(buffers) && strings == old(strings)
      ensures old(NoProvingType()) ==> NoProvingType()
    {
      if core == NULL {
        return;
      }
      cores := cores - {core};
    }

    /** `rs_zkneural_set_generate_witness_callback`: null is ignored; otherwise only that core's witness slot changes. */
    method SetGenerateWitnessCallback(core: Ptr, callback: WitnessCallback)
      requires Valid() && (core == NULL || core in cores)
      modifies if core in cores then {cores[core]} else {}
      ensures core != NULL ==> cores[core].witnessCallback == Some(callback)
      ensures core != NULL ==> cores[core].proofCallback == old(cores[core].proofCallback)
      ensures core != NULL ==> cores[core].provingType == old(cores[core].provingType)
      ensures forall q :: q in cores && (core == NULL || cores[q] != cores[core]) ==> unchanged(cores[q])
      ensures old(NoProvingType()) ==> NoProvingType()
    {
      if core == NULL {
        return;
      }
      cores[core].SetGenerateWitnessCallback(callback);
    }

    /** `rs_zkneural_set_generate_proof_callback`: null is ignored; otherwise only that core's proof slot changes. */
    method SetGenerateProofCallback(core: Ptr, callback: ProofCallback)
      requires Valid() && (core == NULL || core in cores)
      modifies if core in cores then {cores[core]} else {}
      ensures core != NULL ==> cores[core].proofCallback == Some(callback)
      ensures core != NULL ==> cores[core].witnessCallback == old(cores[core].witnessCallback)
      ensures core != NULL ==> cores[core].provingType == old(cores[core].provingType)
      ensures forall q :: q in cores && (core == NULL || cores[q] != cores[core]) ==> unchanged(cores[q])
      ensures old(NoProvingType()) ==> NoProvingType()
    {
      if core == NULL {
        return;
      }
      cores[core].SetGenerateProofCallback(callback);
    }

    /**
     * `rs_zkneural_generate_witness`: null on a null core, without calling the
     * core; otherwise the core's result converted by `from_rust_result`.
     */
    method GenerateWitness(core: Ptr, circuit: seq<byte>, json: seq<byte>) returns (p: Ptr)
      requires Valid() && (core == NULL || core in cores)
      requires core in cores ==> Convertible(WitnessOutcome(cores[core].witnessCallback, circuit, json))
      modifies this
      ensures Valid() && cores == old(cores)
      ensures core == NULL ==> p == NULL && results == old(results) && buffers == old(buffers) && strings == old(strings)
      ensures core != NULL ==> var r := WitnessOutcome(cores[core].witnessCallback, circuit, json);
        && (r.Err? ==> p != NULL)
        && (p != NULL ==> p !in old(results) && Holds(p, r))
      ensures p == NULL ==> results == old(results) && buffers == old(buffers) && strings == old(strings)
      ensures p != NULL ==> results == old(results)[p := results[p]]
      ensures forall q :: q in old(buffers) ==> q in buffers && buffers[q] == old(buffers)[q]
      ensures forall q :: q in old(strings) ==> q in strings && strings[q] == old(strings)[q]
      ensures buffers.Keys <= old(buffers.Keys) + (if p == NULL then {} else {results[p].value})
      ensures strings.Keys <= old(strings.Keys) + (if p == NULL then {} else {results[p].error})
      ensures p != NULL && results[p].value != NULL ==> results[p].value !in old(buffers)
      ensures p != NULL && results[p].error != NULL ==> results[p].error !in old(strings)
      ensures old(NoProvingType()) ==> NoProvingType()
    {
      if core == NULL {
        return NULL;
      }
      var result := cores[core].GenerateWitness(circuit, json);
      p := FromRustResult(result);
    }

    /**
     * `rs_zkneural_generate_proof`: null on a null core; otherwise the core's
     * result converted. A core that has no proving type (every core reached
     * only through this boundary) always yields the `ProvingTypeNotSet` text.
     */
    method GenerateProof(core: Ptr, zkey: seq<byte>, wtns: seq<byte>, codec: JsonCodec) returns (p: Ptr)
      requires Valid() && (core == NULL || core in cores)
      requires core in cores ==> Convertible(ProofOutcome(cores[core].provingType, cores[core].proofCallback, codec, zkey, wtns))
      modifies this
      ensures Valid() && cores == old(cores)
      ensures core == NULL ==> p == NULL && results == old(results) && buffers == old(buffers) && strings == old(strings)
      ensures core != NULL ==> var r := ProofOutcome(cores[core].provingType, cores[core].proofCallback, codec, zkey, wtns);
        && (r.Err? ==> p != NULL)
        && (p != NULL ==> p !in old(results) && Holds(p, r))
      ensures core != NULL && NoProvingType() ==> p != NULL && Holds(p, Err(ProvingTypeNotSet))
      ensures p == NULL ==> results == old(results) && buffers == old(buffers) && strings == old(strings)
      ensures p != NULL ==> results == old(results)[p := results[p]]
      ensures forall q :: q in old(buffers) ==> q in buffers && buffers[q] == old(buffers)[q]
      ensures forall q :: q in old(strings) ==> q in strings && strings[q] == old(strings)[q]
      ensures buffers.Keys <= old(buffers.Keys) + (if p == NULL then {} else {results[p].value})
      ensures strings.Keys <= old(strings.Keys) + (if p == NULL then {} else {results[p].error})
      ensures p != NULL && results[p].value != NULL ==> results[p].value !in old(buffers)
      ensures p != NULL && results[p].error != NULL ==> results[p].error !in old(strings)
      ensures old(NoProvingType()) ==> NoProvingType()
    {
      if core == NULL {
        return NULL;
      }
      var result := cores[core].GenerateProof(zkey, wtns, codec);
      p := FromRustResult(result);
    }
  }

  /** A new heap with one new core on which both callbacks are registered, all through the entry points. */
  method NewSession(witnessCallback: WitnessCallback, proofCallback: ProofCallback) returns (heap: Heap, core: Ptr)
    ensures fresh(heap) && heap.Valid() && heap.NoProvingType()
    ensures core != NULL && core in heap.cores
    ensures heap.cores[core].witnessCallback == Some(witnessCallback)
    ensures heap.cores[core].proofCallback == Some(proofCallback)
  {
    heap := new Heap();
    core := heap.New();
    heap.SetGenerateWitnessCallback(core, witnessCallback);
    heap.SetGenerateProofCallback(core, proofCallback);
  }

  /**
   * The only use the boundary allows: a new core, both callbacks registered,
   * a proof requested. Since no entry point sets a proving type, the result
   * is always the `ProvingTypeNotSet` error, whatever the callbacks do.
   */
  method ProofThroughBoundary(witnessCallback: WitnessCallback, proofCallback: ProofCallback, codec: JsonCodec,
                              zkey: seq<byte>, wtns: seq<byte>) returns (value: Ptr, message: string)
    ensures value == NULL && message == Display(ProvingTypeNotSet)
  {
    var heap, core := NewSession(witnessCallback, proofCallback);
    DisplayNul(ProvingTypeNotSet);
    var result := heap.GenerateProof(core, zkey, wtns, codec);
    var box := heap.results[result];
    value := box.value;
    message := heap.strings[box.error];
    heap.DeallocResult(result);
    heap.Free(core);
  }

  /**
   * The second half of the C harness: proof generation on a core without a
   * proving type, fed the bytes of a live witness result, then both results
   * and the core released. The witness result survives the proof call.
   */
  method ProveFromWitness(heap: Heap, core: Ptr, wtnsResult: Ptr, zkey: seq<byte>, codec: JsonCodec) returns (message: string)
    requires heap.Valid() && heap.NoProvingType()
    requires core != NULL && core in heap.cores
    requires wtnsResult in heap.results && heap.results[wtnsResult].value in heap.buffers
    modifies heap
    ensures message == Display(ProvingTypeNotSet)
  {
    var wtns := heap.buffers[heap.results[wtnsResult].value];
    DisplayNul(ProvingTypeNotSet);
    var proofResult := heap.GenerateProof(core, zkey, wtns, codec);
    message := heap.strings[heap.results[proofResult].error];
    heap.DeallocResult(wtnsResult);
    heap.DeallocResult(proofResult);
    heap.Free(core);
  }

  /**
   * The C harness's sequence: a new core, both callbacks registered, a
   * witness generated and, when it succeeded, passed on to proof generation;
   * the witness result stays valid across that second call. The proof step
   * always fails with the `ProvingTypeNotSet` text. `witnessOk` is false when
   * the witness came back as an error or its buffer could not be allocated
   * (the harness would then dereference null; here it stops).
   */
  method WitnessThenProof(witnessCallback: WitnessCallback, proofCallback: ProofCallback, codec: JsonCodec,
                          circuit: seq<byte>, json: seq<byte>, zkey: seq<byte>) returns (witnessOk: bool, proofMessage: Option<string>)
    requires Convertible(WitnessOutcome(Some(witnessCallback), circuit, json))
    ensures WitnessOutcome(Some(witnessCallback), circuit, json).Err? ==> !witnessOk
    ensures witnessOk ==> WitnessOutcome(Some(witnessCallback), circuit, json).Ok?
    ensures witnessOk <==> proofMessage.Some?
    ensures witnessOk ==> proofMessage == Some(Display(ProvingTypeNotSet))
  {
    var heap, core := NewSession(witnessCallback, proofCallback);
    var wtnsResult := heap.GenerateWitness(core, circuit, json);
    if wtnsResult == NULL || heap.results[wtnsResult].error != NULL {
      heap.DeallocResult(wtnsResult);
      heap.Free(core);
      return false, None;
    }
    var message := ProveFromWitness(heap, core, wtnsResult, zkey, codec);
    return true, Some(message);
  }
}
