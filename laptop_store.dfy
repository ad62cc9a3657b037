/**
 * The in-memory laptop catalog: records keyed by id, insert-if-absent,
 * lookup by id, and a filtered enumeration that polls the context and
 * reports every qualifying record to a callback.
 */
module LaptopStore {
  import opened Prelude
  import opened Rpc

  datatype MemoryUnit = UnknownUnit | Bit | Byte | Kilobyte | Megabyte | Gigabyte | Terabyte

  datatype Memory = Memory(value: u64, unit: MemoryUnit)

  datatype Cpu = Cpu(brand: string, name: string, numberCores: u32, numberThreads: u32, minGhz: real, maxGhz: real)

  /** A catalog record. Only the fields the core reads are spelled out; `details` stands for the rest of the message. */
  datatype Laptop = Laptop(id: string, cpu: Cpu, ram: Memory, priceUsd: real, details: string)

  datatype Filter = Filter(maxPriceUsd: real, minCpuCores: u32, minCpuGhz: real, minRam: Memory)

  /** The errors the store's operations return. */
  datatype StoreError =
    | ErrAlreadyExists              // "record already exists"
    | CopyFailed                    // copier.Copy failed inside deepCopy
    | SearchCanceled(state: CtxState) // ctx.Err() returned as is
    | CallbackFailed                // the callback's error, wrapped

  // ---------------------------------------------------------------------------
  // Memory normalisation and the qualification predicate

  /** Bits per unit: each unit is a binary multiple of the previous (2^3, 2^13, 2^23, 2^33, 2^43). */
  function BitsPer(unit: MemoryUnit): nat
  {
    match unit
    case Bit => 1
    case Byte => 8
    case Kilobyte => 0x2000
    case Megabyte => 0x80_0000
    case Gigabyte => 0x2_0000_0000
    case Terabyte => 0x800_0000_0000
    case UnknownUnit => 0
  }

  /**
   * `toBit`: the memory size in bits, computed in `uint64` with `value * 8`
   * and `value << 13`, `<< 23`, `<< 33`, `<< 43`; an unsigned shift by k is
   * multiplication by 2^k reduced modulo 2^64.
   */
  function ToBit(memory: Memory): (bits: u64)
    ensures bits == (memory.value * BitsPer(memory.unit)) % TWO_64
    ensures memory.unit == UnknownUnit ==> bits == 0
  {
    var value := memory.value;
    match memory.unit
    case Bit => value
    case Byte => Mul64(value, 8)
    case Kilobyte => Mul64(value, 0x2000)            // value << 13
    case Megabyte => Mul64(value, 0x80_0000)         // value << 23
    case Gigabyte => Mul64(value, 0x2_0000_0000)     // value << 33
    case Terabyte => Mul64(value, 0x800_0000_0000)   // value << 43
    case UnknownUnit => 0
  }

  /** Below the wrap-around bound, `toBit` is the exact bit count. */
  lemma ToBitExact(memory: Memory)
    requires memory.value * BitsPer(memory.unit) < TWO_64
    ensures ToBit(memory) == memory.value * BitsPer(memory.unit)
  {
  }

  /** Units are binary multiples: v gigabytes normalise like 1024 v megabytes, and so on down the table. */
  lemma ToBitUnitsAreBinaryMultiples(v: nat)
    requires v * 0x800_0000_0000 < TWO_64
    ensures ToBit(Memory(v * 1024, Gigabyte)) == ToBit(Memory(v, Terabyte))
    ensures ToBit(Memory(v * 1024, Megabyte)) == ToBit(Memory(v, Gigabyte))
    ensures ToBit(Memory(v * 1024, Kilobyte)) == ToBit(Memory(v, Megabyte))
    ensures ToBit(Memory(v * 1024, Byte)) == ToBit(Memory(v, Kilobyte))
    ensures ToBit(Memory(v * 8, Bit)) == ToBit(Memory(v, Byte))
  {
    assert v * 1024 * 0x2_0000_0000 == v * 0x800_0000_0000;
    assert v * 1024 * 0x80_0000 == v * 0x2_0000_0000;
    assert v * 1024 * 0x2000 == v * 0x80_0000;
    assert v * 1024 * 8 == v * 0x2000;
  }

  /** The shifts wrap: 2^31 gigabytes is 2^64 bits, which `uint64` reduces to 0. */
  lemma ToBitWraps()
    ensures ToBit(Memory(0x8000_0000, Gigabyte)) == 0
    ensures ToBit(Memory(0x8000_0000 - 1, Gigabyte)) == TWO_64 - 0x2_0000_0000
  {
  }

  /** `isQualified`: the guard chain over price, cores, clock and normalised memory. */
  predicate IsQualified(filter: Filter, laptop: Laptop)
  {
    if laptop.priceUsd > filter.maxPriceUsd then false
    else if laptop.cpu.numberCores < filter.minCpuCores then false
    else if laptop.cpu.minGhz < filter.minCpuGhz then false
    else if ToBit(laptop.ram) < ToBit(filter.minRam) then false
    else true
  }

  /** A record qualifies exactly when it meets all four bounds. */
  lemma QualifiedMeansAllBounds(filter: Filter, laptop: Laptop)
    ensures IsQualified(filter, laptop) <==>
      && laptop.priceUsd <= filter.maxPriceUsd
      && laptop.cpu.numberCores >= filter.minCpuCores
      && laptop.cpu.minGhz >= filter.minCpuGhz
      && ToBit(laptop.ram) >= ToBit(filter.minRam)
  {
  }

  /** A record whose memory unit is not recognised normalises to 0 bits and fails any nonzero minimum. */
  lemma UnknownUnitNeverMeetsMinimum(filter: Filter, laptop: Laptop)
    requires laptop.ram.unit == UnknownUnit
    requires ToBit(filter.minRam) > 0
    ensures !IsQualified(filter, laptop)
  {
  }

  /** The search filter used by the client tests: at most $2000, 4 cores, 2.2 GHz, 8 GB. */
  const TestFilter := Filter(2000.0, 4, 2.2, Memory(8, Gigabyte))

  /** Which of the test's laptops the filter keeps and which it rejects, whatever their other fields. */
  lemma TestFilterCases(laptop: Laptop)
    ensures laptop.priceUsd == 2500.0 ==> !IsQualified(TestFilter, laptop)
    ensures laptop.cpu.numberCores == 2 ==> !IsQualified(TestFilter, laptop)
    ensures laptop.cpu.minGhz == 2.0 ==> !IsQualified(TestFilter, laptop)
    ensures (laptop.priceUsd == 1999.0 && laptop.cpu.numberCores == 4 && laptop.cpu.minGhz == 2.5
             && laptop.ram == Memory(16, Gigabyte)) ==> IsQualified(TestFilter, laptop)
    ensures (laptop.priceUsd == 2000.0 && laptop.cpu.numberCores == 6 && laptop.cpu.minGhz == 2.8
             && laptop.ram == Memory(64, Gigabyte)) ==> IsQualified(TestFilter, laptop)
  {
  }

  // ---------------------------------------------------------------------------
  // The reference behaviour of Search over one enumeration order

  /** The inputs of one Search call besides the store: the filter, the context, and whether the k-th callback call returns an error. */
  datatype SearchCall = SearchCall(filter: Filter, ctx: Context, found: nat -> bool)

  /** What a Search call returns, with the records it passed to the callback, in order. */
  datatype SearchResult = SearchResult(err: Option<StoreError>, calls: seq<Laptop>)

  ghost predicate KeysIn(order: seq<string>, data: map<string, Laptop>)
  {
    forall i | 0 <= i < |order| :: order[i] in data
  }

  ghost predicate NoDup(order: seq<string>)
  {
    forall i, j | 0 <= i < j < |order| :: order[i] != order[j]
  }

  /** Every stored record is stored under its own id. */
  ghost predicate IdKeyed(data: map<string, Laptop>)
  {
    forall id | id in data :: data[id].id == id
  }

  /** The qualifying records among `order`, in that order. */
  function Select(data: map<string, Laptop>, filter: Filter, order: seq<string>): seq<Laptop>
    requires KeysIn(order, data)
  {
    if order == [] then []
    else (if IsQualified(filter, data[order[0]]) then [data[order[0]]] else [])
         + Select(data, filter, order[1..])
  }

  /**
   * Search's loop run over the keys in `order`: `step` iterations and
   * `calls` callback calls have been made already.
   */
  function Walk(data: map<string, Laptop>, copyFails: Laptop -> bool, q: SearchCall,
                order: seq<string>, step: nat, calls: seq<Laptop>): (r: SearchResult)
    requires KeysIn(order, data)
    ensures |calls| <= |r.calls| <= |calls| + |order| && r.calls[..|calls|] == calls
    ensures forall k | |calls| <= k < |r.calls| :: IsQualified(q.filter, r.calls[k])
    decreases |order|
  {
    if order == [] then SearchResult(None, calls)
    else
      var laptop := data[order[0]];
      var state := q.ctx(step);
      if state == CtxCanceled || state == CtxDeadlineExceeded then SearchResult(Some(SearchCanceled(state)), calls)
      else if !IsQualified(q.filter, laptop) then Walk(data, copyFails, q, order[1..], step + 1, calls)
      else if copyFails(laptop) then SearchResult(Some(CopyFailed), calls)
      else if q.found(|calls|) then SearchResult(Some(CallbackFailed), calls + [laptop])
      else Walk(data, copyFails, q, order[1..], step + 1, calls + [laptop])
  }

  /** Running the loop over `a + b` is running it over `a`, then, if that did not stop, over `b`. */
  lemma {:induction false} WalkAppend(data: map<string, Laptop>, copyFails: Laptop -> bool, q: SearchCall,
                                      a: seq<string>, b: seq<string>, step: nat, calls: seq<Laptop>)
    requires KeysIn(a, data) && KeysIn(b, data)
    ensures KeysIn(a + b, data)
    ensures var r := Walk(data, copyFails, q, a, step, calls);
      Walk(data, copyFails, q, a + b, step, calls)
        == if r.err.None? then Walk(data, copyFails, q, b, step + |a|, r.calls) else r
  {
    assert KeysIn(a + b, data) by {
      forall i | 0 <= i < |a + b| ensures (a + b)[i] in data {
        if i >= |a| { assert (a + b)[i] == b[i - |a|]; }
      }
    }
    if a == [] {
      assert a + b == b;
    } else {
      assert (a + b)[1..] == a[1..] + b;
      WalkAppend(data, copyFails, q, a[1..], b, step + 1, calls);
      var laptop := data[a[0]];
      if IsQualified(q.filter, laptop) {
        WalkAppend(data, copyFails, q, a[1..], b, step + 1, calls + [laptop]);
      }
    }
  }

  /** A run that ends without error has called back exactly the qualifying records, in enumeration order. */
  lemma {:induction false} WalkCallsSelected(data: map<string, Laptop>, copyFails: Laptop -> bool, q: SearchCall,
                                             order: seq<string>, step: nat, calls: seq<Laptop>)
    requires KeysIn(order, data)
    ensures var r := Walk(data, copyFails, q, order, step, calls);
      r.err.None? ==> r.calls == calls + Select(data, q.filter, order)
  {
    if order != [] {
      var laptop := data[order[0]];
      if IsQualified(q.filter, laptop) {
        WalkCallsSelected(data, copyFails, q, order[1..], step + 1, calls + [laptop]);
      } else {
        WalkCallsSelected(data, copyFails, q, order[1..], step + 1, calls);
      }
    }
  }

  /** With the context live at every checkpoint, no copy failing and the callback never failing, the run ends without error. */
  lemma {:induction false} WalkSucceeds(data: map<string, Laptop>, copyFails: Laptop -> bool, q: SearchCall,
                                        order: seq<string>, step: nat, calls: seq<Laptop>)
    requires KeysIn(order, data)
    requires forall i | step <= i < step + |order| :: q.ctx(i) == Active
    requires forall i | 0 <= i < |order| :: IsQualified(q.filter, data[order[i]]) ==> !copyFails(data[order[i]])
    requires forall k | |calls| <= k < |calls| + |order| :: !q.found(k)
    ensures Walk(data, copyFails, q, order, step, calls).err.None?
  {
    if order != [] {
      assert q.ctx(step) == Active;
      var laptop := data[order[0]];
      assert IsQualified(q.filter, laptop) ==> !copyFails(laptop) && !q.found(|calls|);
      var next := if IsQualified(q.filter, laptop) then calls + [laptop] else calls;
      forall i | 0 <= i < |order[1..]|
        ensures IsQualified(q.filter, data[order[1..][i]]) ==> !copyFails(data[order[1..][i]])
      {
        assert order[1..][i] == order[i + 1];
      }
      WalkSucceeds(data, copyFails, q, order[1..], step + 1, next);
    }
  }

  /**
   * Once the context is done at checkpoint j, the run goes no further: it
   * returns an earlier error, or else the context's error with only the
   * callback calls made for the keys visited before j.
   */
  lemma WalkStopsAtDoneContext(data: map<string, Laptop>, copyFails: Laptop -> bool, q: SearchCall,
                               order: seq<string>, j: nat)
    requires KeysIn(order, data) && j < |order|
    requires q.ctx(j) != Active
    ensures KeysIn(order[..j], data)
    ensures var r := Walk(data, copyFails, q, order, 0, []);
      var before := Walk(data, copyFails, q, order[..j], 0, []);
      r == if before.err.None? then SearchResult(Some(SearchCanceled(q.ctx(j))), before.calls) else before
    ensures var before := Walk(data, copyFails, q, order[..j], 0, []);
      before.err.None? ==> before.calls == Select(data, q.filter, order[..j])
  {
    assert order == order[..j] + order[j..];
    WalkAppend(data, copyFails, q, order[..j], order[j..], 0, []);
    WalkCallsSelected(data, copyFails, q, order[..j], 0, []);
  }

  /**
   * A callback error stops the run at once: it is returned only for the last
   * call made, and every earlier call succeeded.
   */
  lemma {:induction false} WalkCallbackError(data: map<string, Laptop>, copyFails: Laptop -> bool, q: SearchCall,
                                             order: seq<string>, step: nat, calls: seq<Laptop>)
    requires KeysIn(order, data)
    ensures var r := Walk(data, copyFails, q, order, step, calls);
      && |calls| <= |r.calls| && r.calls[..|calls|] == calls
      && (r.err == Some(CallbackFailed) ==> |r.calls| > |calls| && q.found(|r.calls| - 1))
      && (forall k | |calls| <= k < |r.calls| - 1 :: !q.found(k))
      && (r.err != Some(CallbackFailed) ==> forall k | |calls| <= k < |r.calls| :: !q.found(k))
  {
    if order != [] {
      var laptop := data[order[0]];
      var state := q.ctx(step);
      if state == Active && IsQualified(q.filter, laptop) && !copyFails(laptop) && !q.found(|calls|) {
        var next := calls + [laptop];
        WalkCallbackError(data, copyFails, q, order[1..], step + 1, next);
        var r := Walk(data, copyFails, q, order[1..], step + 1, next);
        assert r.calls[..|calls|] == r.calls[..|next|][..|calls|];
      } else if state == Active && !IsQualified(q.filter, laptop) {
        WalkCallbackError(data, copyFails, q, order[1..], step + 1, calls);
      }
    }
  }

  /** Over distinct keys of an id-keyed map, each record turns up in the selection once if it qualifies and never otherwise. */
  lemma {:induction false} SelectCount(data: map<string, Laptop>, filter: Filter, order: seq<string>, laptop: Laptop)
    requires KeysIn(order, data) && NoDup(order) && IdKeyed(data)
    ensures multiset(Select(data, filter, order))[laptop]
      == if laptop.id in order && laptop.id in data && data[laptop.id] == laptop && IsQualified(filter, laptop) then 1 else 0
  {
    if order != [] {
      var rest := order[1..];
      assert NoDup(rest) by {
        forall i, j | 0 <= i < j < |rest| ensures rest[i] != rest[j] { assert rest[i] == order[i + 1]; }
      }
      SelectCount(data, filter, rest, laptop);
      var head := data[order[0]];
      if head == laptop {
        assert laptop.id == order[0];
        assert laptop.id !in rest by {
          forall i | 0 <= i < |rest| ensures rest[i] != order[0] { assert rest[i] == order[i + 1]; }
        }
      } else if laptop.id in order && laptop.id in data && data[laptop.id] == laptop {
        assert laptop.id != order[0];
        var i :| 0 <= i < |order| && order[i] == laptop.id;
        assert rest[i - 1] == laptop.id;
      }
    }
  }

  /**
   * Search over an enumeration of all keys that ends without error has called
   * back each qualifying stored record exactly once and no other record.
   */
  lemma SearchReportsEachQualifiedOnce(data: map<string, Laptop>, copyFails: Laptop -> bool, q: SearchCall,
                                       order: seq<string>, laptop: Laptop)
    requires IdKeyed(data) && NoDup(order) && KeysIn(order, data)
    requires forall id | id in data :: id in order
    requires Walk(data, copyFails, q, order, 0, []).err.None?
    ensures multiset(Walk(data, copyFails, q, order, 0, []).calls)[laptop]
      == if laptop in data.Values && IsQualified(q.filter, laptop) then 1 else 0
  {
    WalkCallsSelected(data, copyFails, q, order, 0, []);
    SelectCount(data, q.filter, order, laptop);
    if laptop in data.Values {
      var id :| id in data && data[id] == laptop;
      assert laptop.id == id;
    }
  }

  /**
   * With the context live, no copy failing and the callback never failing,
   * Search calls back each qualifying stored record exactly once, whatever
   * the enumeration order.
   */
  lemma SearchWithoutFailures(data: map<string, Laptop>, copyFails: Laptop -> bool, q: SearchCall,
                              order: seq<string>, laptop: Laptop)
    requires IdKeyed(data) && NoDup(order) && KeysIn(order, data)
    requires forall id | id in data :: id in order
    requires forall i | 0 <= i < |order| :: q.ctx(i) == Active
    requires forall id | id in data :: !copyFails(data[id])
    requires forall k | 0 <= k < |order| :: !q.found(k)
    ensures Walk(data, copyFails, q, order, 0, []).err.None?
    ensures multiset(Walk(data, copyFails, q, order, 0, []).calls)[laptop]
      == if laptop in data.Values && IsQualified(q.filter, laptop) then 1 else 0
  {
    WalkSucceeds(data, copyFails, q, order, 0, []);
    SearchReportsEachQualifiedOnce(data, copyFails, q, order, laptop);
  }

  /**
   * What `Find` answers for `id`: nothing (not an error) for an absent id, a
   * copy of the stored record, or the copier's failure.
   */
  function Lookup(data: map<string, Laptop>, copyFails: Laptop -> bool, id: string): (r: Result<Option<Laptop>, StoreError>)
    ensures id !in data ==> r == Success(None)
    ensures id in data && !copyFails(data[id]) ==> r == Success(Some(data[id]))
    ensures r.Success? && r.value.Some? ==> id in data && r.value.value == data[id]
    ensures r.Failure? ==> r.error == CopyFailed && id in data && copyFails(data[id])
  {
    if id !in data then Success(None)
    else if copyFails(data[id]) then Failure(CopyFailed)
    else Success(Some(data[id]))
  }

  /** In an id-keyed store, a record that `Find` returns carries the id it was looked up by. */
  lemma LookupKeepsId(data: map<string, Laptop>, copyFails: Laptop -> bool, id: string)
    requires IdKeyed(data)
    ensures var r := Lookup(data, copyFails, id); r.Success? && r.value.Some? ==> r.value.value.id == id
  {
  }

  // ---------------------------------------------------------------------------
  // The store

  class InMemoryLaptopStore {
    var data: map<string, Laptop>
    /** Stands for `copier.Copy`: true when copying that record fails. */
    const copyFails: Laptop -> bool

    ghost predicate Valid()
      reads this
    {
      IdKeyed(data)
    }

    constructor (copyFails: Laptop -> bool)
      ensures Valid() && data == map[] && this.copyFails == copyFails
    {
      data := map[];
      this.copyFails := copyFails;
    }

    /** `deepCopy`: an independent copy of the record, unless the copier fails. */
    function DeepCopy(laptop: Laptop): (r: Result<Laptop, StoreError>)
      ensures r.Success? <==> !copyFails(laptop)
      ensures r.Success? ==> r.value == laptop
      ensures r.Failure? ==> r.error == CopyFailed
    {
      if copyFails(laptop) then Failure(CopyFailed) else Success(laptop)
    }

    /** `Save`: insert-if-absent of a copy of the record, under its id. */
    method Save(laptop: Laptop) returns (err: Option<StoreError>)
      requires Valid()
      modifies this
      ensures Valid()
      ensures laptop.id in old(data) ==> err == Some(ErrAlreadyExists) && data == old(data)
      ensures laptop.id !in old(data) && copyFails(laptop) ==> err == Some(CopyFailed) && data == old(data)
      ensures laptop.id !in old(data) && !copyFails(laptop) ==> err == None && data == old(data)[laptop.id := laptop]
    {
      if laptop.id in data {
        return Some(ErrAlreadyExists);
      }
      var other := DeepCopy(laptop);
      if other.Failure? {
        return Some(other.error);
      }
      data := data[other.value.id := other.value];
      err := None;
    }

    /** `Find`: a copy of the record stored under `id`, or nothing (not an error) when there is none. */
    method Find(id: string) returns (r: Result<Option<Laptop>, StoreError>)
      requires Valid()
      ensures r == Lookup(data, copyFails, id)
    {
      if id !in data {
        return Success(None);
      }
      var other := DeepCopy(data[id]);
      if other.Failure? {
        return Failure(other.error);
      }
      r := Success(Some(other.value));
    }

    /**
     * `Search`: visits the stored records in an unspecified order, polling the
     * context at the head of every iteration, and passes a copy of each
     * qualifying record to the callback. `order` is the sequence of keys
     * visited; the outcome is that of `Walk` over it.
     */
    method Search(ctx: Context, filter: Filter, found: nat -> bool)
      returns (err: Option<StoreError>, calls: seq<Laptop>, ghost order: seq<string>)
      ensures NoDup(order) && KeysIn(order, data)
      ensures SearchResult(err, calls) == Walk(data, copyFails, SearchCall(filter, ctx, found), order, 0, [])
      ensures err.None? ==> forall id | id in data :: id in order
    {
      ghost var q := SearchCall(filter, ctx, found);
      var remaining := data.Keys;
      var step := 0;
      err, calls, order := None, [], [];
      while remaining != {}
        invariant remaining <= data.Keys
        invariant step == |order|
        invariant NoDup(order) && KeysIn(order, data)
        invariant forall i | 0 <= i < |order| :: order[i] !in remaining
        invariant forall id | id in data :: id in remaining || id in order
        invariant Walk(data, copyFails, q, order, 0, []) == SearchResult(None, calls)
        decreases remaining
      {
        var id :| id in remaining;
        remaining := remaining - {id};
        var laptop := data[id];
        WalkAppend(data, copyFails, q, order, [id], 0, []);
        order := order + [id];
        var state := ctx(step);
        step := step + 1;
        if state == CtxCanceled || state == CtxDeadlineExceeded {
          err := Some(SearchCanceled(state));
          return;
        }
        if IsQualified(filter, laptop) {
          var other := DeepCopy(laptop);
          if other.Failure? {
            err := Some(other.error);
            return;
          }
          calls := calls + [other.value];
          if found(|calls| - 1) {
            err := Some(CallbackFailed);
            return;
          }
        }
      }
    }
  }
}
