/** `StockFactory` of chapter01/src/stock_factory/stock_factory.cc and
    stock_factory.h (the live version; the two commented-out versions are
    not modelled).

    Ownership is explicit: a `Stock` counts the `shared_ptr<Stock>` that own
    it (`holders`, the control block's strong count), a `weak_ptr<Stock>` is
    the datatype `StockPtr`, and dropping the last owner runs the deleter the
    stock was created with, `StockFactory::StockDeleter`.  The mutex is a
    no-op: each call, and the deleter it triggers, runs to completion. */
module StockFactories {

  /** `Stock`: its key never changes after construction. */
  class Stock {
    const key: string
    var holders: nat

    /** `new Stock(key)`: nobody owns it yet. */
    constructor (key: string)
      ensures this.key == key && holders == 0
    {
      this.key := key;
      holders := 0;
    }

    /** `GetKey`. */
    function GetKey(): (k: string)
      ensures k == key
    {
      key
    }
  }

  /** `StockPtr`, a `std::weak_ptr<Stock>`: empty, or observing a stock. */
  datatype StockPtr = Empty | Observes(target: Stock)

  /** The stocks a set of weak pointers observes. */
  ghost function Observed(ws: set<StockPtr>): set<Stock>
  {
    set w | w in ws && w.Observes? :: w.target
  }

  /** `weak_ptr::expired`: empty, or every owner is gone. */
  predicate Expired(w: StockPtr)
    reads if w.Observes? then {w.target} else {}
  {
    w.Empty? || w.target.holders == 0
  }

  /** `weak_ptr::lock`: a new owner of the observed stock, or null when it
      has expired. */
  method Lock(w: StockPtr) returns (s: Stock?)
    modifies if w.Observes? then {w.target} else {}
    ensures old(Expired(w)) <==> s == null
    ensures s != null ==> s == w.target && s.holders == old(s.holders) + 1
    ensures w.Observes? && s == null ==> w.target.holders == old(w.target.holders)
  {
    if w.Observes? && w.target.holders > 0 {
      s := w.target;
      s.holders := s.holders + 1;
    } else {
      s := null;
    }
  }

  class StockFactory {
    /** `stock_factory_`: key to weak pointer. */
    var entries: map<string, StockPtr>

    /** The stocks the map observes. */
    ghost function Targets(): set<Stock>
      reads this
    {
      Observed(entries.Values)
    }

    /** Every entry observes a stock with that entry's key, and every such
        stock other than `dying` is alive. */
    ghost predicate ValidExcept(dying: Stock?)
      reads this, Targets()
    {
      forall k | k in entries ::
        entries[k].Observes? && entries[k].target.key == k &&
        (entries[k].target != dying ==> entries[k].target.holders > 0)
    }

    /** Every entry observes a live stock with that entry's key: a stock
        leaves the map, through its deleter, as its last owner goes. */
    ghost predicate Valid()
      reads this, Targets()
    {
      ValidExcept(null)
    }

    constructor ()
      ensures Valid() && entries == map[]
    {
      entries := map[];
    }

    /** `StockDeleter`: for a non-null stock, erase its key from the map (the
        object itself is then freed); a null pointer does nothing.  It runs
        when the stock's last owner has gone, so the map may still observe
        that stock, under its key, and nothing else that is dead. */
    method StockDeleter(stock: Stock?)
      requires ValidExcept(stock)
      modifies this
      ensures Valid()
      ensures stock == null ==> entries == old(entries)
      ensures stock != null ==> entries == old(entries) - {stock.GetKey()}
    {
      if stock != null {
        entries := entries - {stock.GetKey()};
      }
    }

    /** Destroying one `shared_ptr<Stock>` made by `GetStock`: one owner
        fewer, and the last one runs `StockDeleter`. */
    method Release(s: Stock)
      requires Valid() && s.holders > 0
      modifies this, s
      ensures Valid()
      ensures s.holders == old(s.holders) - 1
      ensures entries == if s.holders == 0 then old(entries) - {s.key} else old(entries)
    {
      s.holders := s.holders - 1;
      if s.holders == 0 {
        StockDeleter(s);
      }
    }

    /** `GetStock`: `operator[]` makes an entry for `key` if there is none;
        if the entry's stock is still alive it is the one returned and no
        stock is created; otherwise a new `Stock(key)` with the factory's
        deleter is created and recorded.  The result is a weak pointer, so
        when `local_ptr`, the only owner of a new stock, is destroyed on
        return, the deleter erases `key` again: the caller receives an
        expired pointer and the map is as before. */
    method GetStock(key: string) returns (r: StockPtr)
      requires Valid()
      modifies this, Targets()
      ensures Valid()
      ensures r.Observes? && r.target.GetKey() == key
      ensures forall s | s in old(Targets()) :: s.holders == old(s.holders)
      ensures old(key in entries) ==> r == old(entries[key]) && !Expired(r) && entries == old(entries)
      ensures old(key !in entries) ==> fresh(r.target) && Expired(r) && entries == old(entries)
    {
      var localPtr: Stock?;
      if key !in entries {
        entries := entries[key := Empty];
      }
      localPtr := Lock(entries[key]);
      if localPtr == null {
        // `local_ptr.reset(new Stock(key), deleter)`; `wptr = local_ptr`.
        localPtr := new Stock(key);
        localPtr.holders := 1;
        entries := entries[key := Observes(localPtr)];
      }
      r := Observes(localPtr);
      Release(localPtr);
    }
  }

  /** Two `GetStock` calls for the same key on a new factory: each creates
      its own stock with that key, each handle is already expired when it
      is returned, and the map is left empty. */
  method GetStockScenario() returns (first: StockPtr, second: StockPtr, size: nat)
    ensures first.Observes? && second.Observes? && first.target != second.target
    ensures first.target.key == "GOOG" && second.target.key == "GOOG"
    ensures Expired(first) && Expired(second)
    ensures size == 0
  {
    var factory := new StockFactory();
    first := factory.GetStock("GOOG");
    second := factory.GetStock("GOOG");
    size := |factory.entries|;
  }

  /** A new factory asked for `keys` one after the other: every call
      creates a stock of its own with the requested key, every handle is
      expired when it is returned, and the map stays empty throughout. */
  method GetStockSequence(keys: seq<string>) returns (handles: seq<StockPtr>, size: nat)
    ensures |handles| == |keys|
    ensures forall i :: 0 <= i < |keys| ==>
      handles[i].Observes? && handles[i].target.key == keys[i] && Expired(handles[i])
    ensures forall i, j :: 0 <= i < j < |keys| ==> handles[i].target != handles[j].target
    ensures size == 0
  {
    var factory := new StockFactory();
    handles := [];
    while |handles| < |keys|
      invariant |handles| <= |keys|
      invariant factory.Valid() && factory.entries == map[]
      invariant forall i :: 0 <= i < |handles| ==>
        handles[i].Observes? && handles[i].target.key == keys[i] && Expired(handles[i])
      invariant forall i, j :: 0 <= i < j < |handles| ==> handles[i].target != handles[j].target
    {
      var h := factory.GetStock(keys[|handles|]);
      handles := handles + [h];
    }
    size := |factory.entries|;
  }
}
