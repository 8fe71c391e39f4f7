/** The hardening-vector slot allocator, install_bp_hardening_cb.

    Each distinct branch-predictor hardening callback gets one 2 KiB slot of
    the shared hypervisor vector region. A CPU installing a callback that
    some CPU already records reuses that CPU's slot; otherwise the next slot
    is taken (last_slot + 1), the callback's vectors are copied into it once,
    and running past the region's capacity is a BUG. The allocator is
    generic in the callback type F and in the vector code range V. */
module BpHardening {
  import opened Base

  /** Size of one slot of the hardening vector region (SZ_2K). */
  const SlotBytes: nat := 2048

  /** One CPU's bp_hardening_data: the installed callback (NULL until one is
      installed) and its slot in the vector region. */
  datatype BpData<F> = BpData(fn: Option<F>, hypVectorsSlot: int)

  /** What was copied into a slot: the vectors of the callback whose
      installation allocated it. */
  datatype SlotCopy<F, V> = SlotCopy(owner: F, vecs: V)

  /** The allocator's state: the static last_slot, every possible CPU's
      bp_hardening_data, and the slots copied so far, in allocation order
      (slot k holds slots[k]). */
  datatype Table<F, V> = Table(lastSlot: int, cpus: seq<BpData<F>>, slots: seq<SlotCopy<F, V>>)

  /** One request to install `fn` (with vectors `vecs`) on CPU `cpu`. */
  datatype InstallCall<F, V> = InstallCall(cpu: nat, fn: F, vecs: V)

  /** Number of slots in a region of `regionBytes` bytes. */
  function Capacity(regionBytes: nat): (n: nat)
    ensures n * SlotBytes <= regionBytes < (n + 1) * SlotBytes
  {
    regionBytes / SlotBytes
  }

  /** The state at boot: last_slot is -1 and the per-CPU data is
      zero-initialised. */
  function Boot<F, V>(nrCpus: nat): (t: Table<F, V>)
    ensures |t.cpus| == nrCpus && Empty(t)
  {
    Table(-1, seq(nrCpus, _ => BpData(None, 0)), [])
  }

  /** No slot allocated and no CPU holding a callback. */
  predicate Empty<F, V>(t: Table<F, V>)
  {
    t.lastSlot == -1 && t.slots == [] &&
    forall i | 0 <= i < |t.cpus| :: t.cpus[i].fn.None?
  }

  /** The allocator's invariant for a region of `capacity` slots:
      every allocated slot is below capacity and below or at last_slot,
      each slot was copied exactly once, each CPU's slot holds the vectors
      of the callback it records, and CPUs recording the same callback
      record the same slot. */
  ghost predicate Wf<F, V>(t: Table<F, V>, capacity: nat)
  {
    && -1 <= t.lastSlot < capacity
    && |t.slots| == t.lastSlot + 1
    && (forall i | 0 <= i < |t.cpus| && t.cpus[i].fn.Some? ::
          0 <= t.cpus[i].hypVectorsSlot <= t.lastSlot &&
          t.slots[t.cpus[i].hypVectorsSlot].owner == t.cpus[i].fn.value)
    && (forall i, j | 0 <= i < |t.cpus| && 0 <= j < |t.cpus| && t.cpus[i].fn.Some? && t.cpus[i].fn == t.cpus[j].fn ::
          t.cpus[i].hypVectorsSlot == t.cpus[j].hypVectorsSlot)
  }

  /** The for_each_possible_cpu scan: the first CPU at or after `from` that
      records `fn`, if any. */
  function FirstHolder<F(==)>(cpus: seq<BpData<F>>, fn: F, from: nat): (r: Option<nat>)
    requires from <= |cpus|
    ensures r.Some? ==>
      from <= r.value < |cpus| && cpus[r.value].fn == Some(fn) &&
      forall j | from <= j < r.value :: cpus[j].fn != Some(fn)
    ensures r.None? ==> forall j | from <= j < |cpus| :: cpus[j].fn != Some(fn)
    decreases |cpus| - from
  {
    if from == |cpus| then None
    else if cpus[from].fn == Some(fn) then Some(from)
    else FirstHolder(cpus, fn, from + 1)
  }

  /** install_bp_hardening_cb when CONFIG_KVM is set, run by CPU `cpu`
      under bp_lock. A slot value of -1 after the scan means "no CPU records
      fn", as in the source. */
  function InstallKvm<F(==), V>(t: Table<F, V>, capacity: nat, cpu: nat, fn: F, vecs: V): (r: Outcome<Table<F, V>>)
    requires cpu < |t.cpus|
    // the caller's callback is recorded, nobody else's data changes
    ensures r.Ok? ==> |r.value.cpus| == |t.cpus| && r.value.cpus[cpu].fn == Some(fn)
    ensures r.Ok? ==> forall j | 0 <= j < |t.cpus| && j != cpu :: r.value.cpus[j] == t.cpus[j]
    // reuse: some CPU already records fn
    ensures Wf(t, capacity) && (exists j | 0 <= j < |t.cpus| :: t.cpus[j].fn == Some(fn)) ==>
      && r.Ok?
      && r.value.lastSlot == t.lastSlot
      && r.value.slots == t.slots
      && forall j | 0 <= j < |t.cpus| && t.cpus[j].fn == Some(fn) ::
           r.value.cpus[cpu].hypVectorsSlot == t.cpus[j].hypVectorsSlot
    // allocation: no CPU records fn
    ensures (forall j | 0 <= j < |t.cpus| :: t.cpus[j].fn != Some(fn)) ==>
      && (r.Bug? <==> capacity <= t.lastSlot + 1)
      && (r.Ok? ==>
            && r.value.lastSlot == t.lastSlot + 1
            && r.value.slots == t.slots + [SlotCopy(fn, vecs)]
            && r.value.cpus[cpu].hypVectorsSlot == r.value.lastSlot)
  {
    var found := FirstHolder(t.cpus, fn, 0);
    var slot := if found.Some? then t.cpus[found.value].hypVectorsSlot else -1;
    if slot == -1 then
      var last := t.lastSlot + 1;
      if capacity <= last then Bug
      else Ok(Table(last, t.cpus[cpu := BpData(Some(fn), last)], t.slots + [SlotCopy(fn, vecs)]))
    else
      Ok(t.(cpus := t.cpus[cpu := BpData(Some(fn), slot)]))
  }

  /** install_bp_hardening_cb without CONFIG_KVM: only the callback is
      recorded; there is no vector region and no slot. */
  function InstallNoKvm<F, V>(t: Table<F, V>, cpu: nat, fn: F): (r: Table<F, V>)
    requires cpu < |t.cpus|
    ensures |r.cpus| == |t.cpus| && r.cpus[cpu].fn == Some(fn)
    ensures r.cpus[cpu].hypVectorsSlot == t.cpus[cpu].hypVectorsSlot
    ensures forall j | 0 <= j < |t.cpus| && j != cpu :: r.cpus[j] == t.cpus[j]
    ensures r.lastSlot == t.lastSlot && r.slots == t.slots
  {
    t.(cpus := t.cpus[cpu := t.cpus[cpu].(fn := Some(fn))])
  }

  /** install_bp_hardening_cb, choosing the variant by CONFIG_KVM. */
  function Install<F(==), V>(kvm: bool, t: Table<F, V>, capacity: nat, cpu: nat, fn: F, vecs: V): (r: Outcome<Table<F, V>>)
    requires cpu < |t.cpus|
    ensures r.Ok? ==> |r.value.cpus| == |t.cpus| && r.value.cpus[cpu].fn == Some(fn)
    ensures !kvm ==> r == Ok(InstallNoKvm(t, cpu, fn))
    ensures kvm ==> r == InstallKvm(t, capacity, cpu, fn, vecs)
  {
    if kvm then InstallKvm(t, capacity, cpu, fn, vecs) else Ok(InstallNoKvm(t, cpu, fn))
  }

  /** One installation keeps the allocator's invariant. */
  lemma InstallKvmKeepsWf<F, V>(t: Table<F, V>, capacity: nat, cpu: nat, fn: F, vecs: V)
    requires cpu < |t.cpus| && Wf(t, capacity)
    ensures InstallKvm(t, capacity, cpu, fn, vecs).Ok? ==> Wf(InstallKvm(t, capacity, cpu, fn, vecs).value, capacity)
  {
  }

  /** Distinct callbacks recorded by two CPUs occupy distinct slots. */
  lemma DistinctCallbacksDistinctSlots<F, V>(t: Table<F, V>, capacity: nat, i: nat, j: nat)
    requires Wf(t, capacity) && i < |t.cpus| && j < |t.cpus|
    requires t.cpus[i].fn.Some? && t.cpus[j].fn.Some? && t.cpus[i].fn != t.cpus[j].fn
    ensures t.cpus[i].hypVectorsSlot != t.cpus[j].hypVectorsSlot
  {
  }

  /** Runs installation requests in order; the first BUG stops everything. */
  function InstallAll<F(==), V>(t: Table<F, V>, capacity: nat, calls: seq<InstallCall<F, V>>): (r: Outcome<Table<F, V>>)
    requires forall k | 0 <= k < |calls| :: calls[k].cpu < |t.cpus|
    ensures r.Ok? ==> |r.value.cpus| == |t.cpus|
    decreases |calls|
  {
    if |calls| == 0 then Ok(t)
    else
      match InstallAll(t, capacity, calls[..|calls| - 1])
      case Bug => Bug
      case Ok(u) =>
        var c := calls[|calls| - 1];
        InstallKvm(u, capacity, c.cpu, c.fn, c.vecs)
  }

  /** The callbacks the requests name. */
  function Callbacks<F, V>(calls: seq<InstallCall<F, V>>): set<F>
  {
    set k | 0 <= k < |calls| :: calls[k].fn
  }

  /** Each CPU asks for one callback only (it may ask more than once). */
  ghost predicate OneCallbackPerCpu<F, V>(calls: seq<InstallCall<F, V>>)
  {
    forall a, b | 0 <= a < |calls| && 0 <= b < |calls| && calls[a].cpu == calls[b].cpu ::
      calls[a].fn == calls[b].fn
  }

  /** What a run of requests from an empty table leaves behind. */
  ghost predicate Allocated<F, V>(u: Table<F, V>, capacity: nat, calls: seq<InstallCall<F, V>>)
  {
    && Wf(u, capacity)
    && |u.slots| == |Callbacks(calls)|
    && (forall k | 0 <= k < |calls| :: calls[k].cpu < |u.cpus| && u.cpus[calls[k].cpu].fn == Some(calls[k].fn))
    && (forall i | 0 <= i < |u.cpus| && u.cpus[i].fn.Some? :: u.cpus[i].fn.value in Callbacks(calls))
    && (forall a, b | 0 <= a < b < |u.slots| :: u.slots[a].owner != u.slots[b].owner)
    && (forall a | 0 <= a < |u.slots| :: u.slots[a].owner in Callbacks(calls))
  }

  /** Appending one request adds its callback to the named set. */
  lemma CallbacksSnoc<F, V>(calls: seq<InstallCall<F, V>>)
    requires |calls| > 0
    ensures Callbacks(calls) == Callbacks(calls[..|calls| - 1]) + {calls[|calls| - 1].fn}
  {
  }

  /** The requests `prefix` followed by `c`, where `c`'s CPU asks for no
      other callback than `c`'s. */
  ghost predicate Consistent<F, V>(prefix: seq<InstallCall<F, V>>, c: InstallCall<F, V>)
  {
    forall k | 0 <= k < |prefix| && prefix[k].cpu == c.cpu :: prefix[k].fn == c.fn
  }

  /** After `c` is installed, every request so far is recorded. */
  lemma StepRecords<F, V>(u: Table<F, V>, w: Table<F, V>, prefix: seq<InstallCall<F, V>>, c: InstallCall<F, V>)
    requires Consistent(prefix, c)
    requires c.cpu < |u.cpus| == |w.cpus|
    requires forall k | 0 <= k < |prefix| :: prefix[k].cpu < |u.cpus| && u.cpus[prefix[k].cpu].fn == Some(prefix[k].fn)
    requires forall i | 0 <= i < |u.cpus| && u.cpus[i].fn.Some? :: u.cpus[i].fn.value in Callbacks(prefix)
    requires w.cpus[c.cpu].fn == Some(c.fn)
    requires forall j | 0 <= j < |u.cpus| && j != c.cpu :: w.cpus[j] == u.cpus[j]
    ensures forall k | 0 <= k < |prefix + [c]| :: (prefix + [c])[k].cpu < |w.cpus| && w.cpus[(prefix + [c])[k].cpu].fn == Some((prefix + [c])[k].fn)
    ensures forall i | 0 <= i < |w.cpus| && w.cpus[i].fn.Some? :: w.cpus[i].fn.value in Callbacks(prefix + [c])
  {
    var calls := prefix + [c];
    assert calls[..|calls| - 1] == prefix;
    CallbacksSnoc(calls);
    forall k | 0 <= k < |calls|
      ensures calls[k].cpu < |w.cpus| && w.cpus[calls[k].cpu].fn == Some(calls[k].fn)
    {
      if k < |prefix| {
        assert calls[k] == prefix[k];
        if prefix[k].cpu != c.cpu {
          assert w.cpus[prefix[k].cpu] == u.cpus[prefix[k].cpu];
        }
      }
    }
    forall i | 0 <= i < |w.cpus| && w.cpus[i].fn.Some?
      ensures w.cpus[i].fn.value in Callbacks(calls)
    {
      if i != c.cpu { assert w.cpus[i] == u.cpus[i]; }
    }
  }

  /** A request for a callback some earlier request named reuses a slot. */
  lemma StepReuse<F, V>(u: Table<F, V>, capacity: nat, prefix: seq<InstallCall<F, V>>, c: InstallCall<F, V>)
    requires Consistent(prefix, c) && c.cpu < |u.cpus|
    requires Allocated(u, capacity, prefix)
    requires c.fn in Callbacks(prefix)
    ensures InstallKvm(u, capacity, c.cpu, c.fn, c.vecs).Ok?
    ensures Allocated(InstallKvm(u, capacity, c.cpu, c.fn, c.vecs).value, capacity, prefix + [c])
  {
    var calls := prefix + [c];
    assert calls[..|calls| - 1] == prefix;
    CallbacksSnoc(calls);
    assert Callbacks(calls) == Callbacks(prefix);
    var k :| 0 <= k < |prefix| && prefix[k].fn == c.fn;
    assert u.cpus[prefix[k].cpu].fn == Some(c.fn);
    var r := InstallKvm(u, capacity, c.cpu, c.fn, c.vecs);
    InstallKvmKeepsWf(u, capacity, c.cpu, c.fn, c.vecs);
    StepRecords(u, r.value, prefix, c);
  }

  /** A request for a callback no earlier request named allocates a slot,
      or hits the capacity BUG exactly when the slots are used up. */
  lemma StepAllocate<F, V>(u: Table<F, V>, capacity: nat, prefix: seq<InstallCall<F, V>>, c: InstallCall<F, V>)
    requires Consistent(prefix, c) && c.cpu < |u.cpus|
    requires Allocated(u, capacity, prefix)
    requires c.fn !in Callbacks(prefix)
    ensures InstallKvm(u, capacity, c.cpu, c.fn, c.vecs).Ok? <==> |Callbacks(prefix + [c])| <= capacity
    ensures InstallKvm(u, capacity, c.cpu, c.fn, c.vecs).Ok? ==>
      Allocated(InstallKvm(u, capacity, c.cpu, c.fn, c.vecs).value, capacity, prefix + [c])
  {
    var calls := prefix + [c];
    assert calls[..|calls| - 1] == prefix;
    CallbacksSnoc(calls);
    assert |Callbacks(calls)| == |Callbacks(prefix)| + 1;
    assert forall j | 0 <= j < |u.cpus| :: u.cpus[j].fn != Some(c.fn);
    if InstallKvm(u, capacity, c.cpu, c.fn, c.vecs).Ok? {
      StepAllocated(u, capacity, prefix, c);
    }
  }

  /** A successful allocation records the new callback in a fresh slot. */
  lemma StepAllocated<F, V>(u: Table<F, V>, capacity: nat, prefix: seq<InstallCall<F, V>>, c: InstallCall<F, V>)
    requires Consistent(prefix, c) && c.cpu < |u.cpus|
    requires Allocated(u, capacity, prefix)
    requires c.fn !in Callbacks(prefix)
    requires InstallKvm(u, capacity, c.cpu, c.fn, c.vecs).Ok?
    ensures Allocated(InstallKvm(u, capacity, c.cpu, c.fn, c.vecs).value, capacity, prefix + [c])
  {
    assert forall j | 0 <= j < |u.cpus| :: u.cpus[j].fn != Some(c.fn);
    InstallKvmKeepsWf(u, capacity, c.cpu, c.fn, c.vecs);
    AllocatedAppend(u, InstallKvm(u, capacity, c.cpu, c.fn, c.vecs).value, capacity, prefix, c);
  }

  /** Allocated is kept by a table `w` that records `c` on its CPU, agrees
      with `u` elsewhere, and appends `c`'s slot. */
  lemma AllocatedAppend<F, V>(u: Table<F, V>, w: Table<F, V>, capacity: nat, prefix: seq<InstallCall<F, V>>, c: InstallCall<F, V>)
    requires Consistent(prefix, c) && c.cpu < |u.cpus| == |w.cpus|
    requires Allocated(u, capacity, prefix)
    requires c.fn !in Callbacks(prefix)
    requires Wf(w, capacity)
    requires w.cpus[c.cpu].fn == Some(c.fn)
    requires forall j | 0 <= j < |u.cpus| && j != c.cpu :: w.cpus[j] == u.cpus[j]
    requires w.slots == u.slots + [SlotCopy(c.fn, c.vecs)]
    ensures Allocated(w, capacity, prefix + [c])
  {
    var calls := prefix + [c];
    assert calls[..|calls| - 1] == prefix;
    CallbacksSnoc(calls);
    assert |Callbacks(calls)| == |Callbacks(prefix)| + 1;
    StepRecords(u, w, prefix, c);
    SlotsAppend(u.slots, c.fn, c.vecs, Callbacks(prefix), Callbacks(calls), w.slots);
    AllocatedIntro(w, capacity, calls);
  }

  /** The parts of Allocated, established one by one. */
  lemma AllocatedIntro<F, V>(w: Table<F, V>, capacity: nat, calls: seq<InstallCall<F, V>>)
    requires Wf(w, capacity)
    requires |w.slots| == |Callbacks(calls)|
    requires forall k | 0 <= k < |calls| :: calls[k].cpu < |w.cpus| && w.cpus[calls[k].cpu].fn == Some(calls[k].fn)
    requires forall i | 0 <= i < |w.cpus| && w.cpus[i].fn.Some? :: w.cpus[i].fn.value in Callbacks(calls)
    requires forall a, b | 0 <= a < b < |w.slots| :: w.slots[a].owner != w.slots[b].owner
    requires forall a | 0 <= a < |w.slots| :: w.slots[a].owner in Callbacks(calls)
    ensures Allocated(w, capacity, calls)
  {
  }

  /** Appending the slot of a callback not yet owning one keeps the owners
      distinct and named. */
  lemma SlotsAppend<F, V>(slots: seq<SlotCopy<F, V>>, fn: F, vecs: V, names: set<F>, names': set<F>, w: seq<SlotCopy<F, V>>)
    requires forall a, b | 0 <= a < b < |slots| :: slots[a].owner != slots[b].owner
    requires forall a | 0 <= a < |slots| :: slots[a].owner in names
    requires fn !in names && names' == names + {fn}
    requires w == slots + [SlotCopy(fn, vecs)]
    ensures forall a, b | 0 <= a < b < |w| :: w[a].owner != w[b].owner
    ensures forall a | 0 <= a < |w| :: w[a].owner in names'
  {
    forall a, b | 0 <= a < b < |w| ensures w[a].owner != w[b].owner {
      assert w[a] == slots[a];
      if b < |slots| { assert w[b] == slots[b]; }
    }
    forall a | 0 <= a < |w| ensures w[a].owner in names' {
      if a < |slots| { assert w[a] == slots[a]; }
    }
  }

  /** After any sequence of requests from a well-formed table, the table is
      still well-formed: CPUs recording the same callback share a slot, and
      every recorded slot is at most last_slot and below the capacity. */
  lemma {:induction false} InstallAllKeepsWf<F, V>(t: Table<F, V>, capacity: nat, calls: seq<InstallCall<F, V>>)
    requires Wf(t, capacity)
    requires forall k | 0 <= k < |calls| :: calls[k].cpu < |t.cpus|
    ensures InstallAll(t, capacity, calls).Ok? ==> Wf(InstallAll(t, capacity, calls).value, capacity)
    decreases |calls|
  {
    if |calls| > 0 {
      var prefix := calls[..|calls| - 1];
      InstallAllKeepsWf(t, capacity, prefix);
      var pre := InstallAll(t, capacity, prefix);
      if pre.Ok? {
        var c := calls[|calls| - 1];
        InstallKvmKeepsWf(pre.value, capacity, c.cpu, c.fn, c.vecs);
      }
    }
  }

  /** Installing from an empty table, with every CPU asking for one callback:
      the run hits the capacity BUG exactly when the number of distinct
      callbacks exceeds the capacity; otherwise there is one slot per
      distinct callback, each copied once, and every requesting CPU records
      its callback. */
  lemma {:induction false} InstallAllOneSlotPerCallback<F, V>(t: Table<F, V>, capacity: nat, calls: seq<InstallCall<F, V>>)
    requires Empty(t)
    requires forall k | 0 <= k < |calls| :: calls[k].cpu < |t.cpus|
    requires OneCallbackPerCpu(calls)
    ensures InstallAll(t, capacity, calls).Ok? <==> |Callbacks(calls)| <= capacity
    ensures InstallAll(t, capacity, calls).Ok? ==> Allocated(InstallAll(t, capacity, calls).value, capacity, calls)
    decreases |calls|
  {
    if |calls| == 0 {
      assert Callbacks(calls) == {};
    } else {
      var n := |calls| - 1;
      var prefix := calls[..n];
      var c := calls[n];
      assert OneCallbackPerCpu(prefix);
      InstallAllOneSlotPerCallback(t, capacity, prefix);
      CallbacksSnoc(calls);
      assert calls == prefix + [c];
      assert Consistent(prefix, c) by {
        forall k | 0 <= k < |prefix| && prefix[k].cpu == c.cpu ensures prefix[k].fn == c.fn {
          assert calls[k] == prefix[k];
        }
      }
      var pre := InstallAll(t, capacity, prefix);
      if pre.Ok? {
        if c.fn in Callbacks(prefix) {
          StepReuse(pre.value, capacity, prefix, c);
        } else {
          StepAllocate(pre.value, capacity, prefix, c);
        }
      } else {
        if c.fn in Callbacks(prefix) {
          assert Callbacks(calls) == Callbacks(prefix);
        } else {
          assert |Callbacks(calls)| == |Callbacks(prefix)| + 1;
        }
      }
    }
  }
}
