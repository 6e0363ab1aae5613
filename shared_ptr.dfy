/** The pointer publishers of chapter01/src/shared_ptr/main.cc.

    `version1` publishes a `shared_ptr<Foo>` through one mutex-guarded global;
    `version2::FooMgr` keeps two sides and a version counter that selects the
    side readers see.  Locks are no-ops and the atomic `ver_` is a plain
    integer.  A `shared_ptr<Foo>` is a reference to a `Foo` object; a handle
    that a reader copied keeps its object alive, which Dafny's heap gives for
    free.  The console output of `ReadFoo` and `WriteFoo` is left out. */
module SharedPtrs {

  /** `Foo`: one integer, 0 after `make_shared<Foo>()`; `WriteFoo` changes it
      in place, so it is an object. */
  class Foo {
    var val: int

    constructor ()
      ensures val == 0
    {
      val := 0;
    }
  }

  /** `WriteFoo`: `++ptr->val`, and nothing else changes. */
  method WriteFoo(p: Foo)
    modifies p
    ensures p.val == old(p.val) + 1
  {
    p.val := p.val + 1;
  }

  /** `version1`: the global `global_ptr`, null until the first `Write`. */
  class GlobalPublisher {
    var globalPtr: Foo?

    constructor ()
      ensures globalPtr == null
    {
      globalPtr := null;
    }

    /** `version1::Read`: copies the published pointer; nothing changes. */
    method Read() returns (local: Foo?)
      ensures local == globalPtr
    {
      local := globalPtr;
    }

    /** `version1::Write`: a new `Foo` is incremented once and then published.
        The previously published object is left as it was. */
    method Write()
      modifies this
      ensures globalPtr != null && fresh(globalPtr)
      ensures globalPtr.val == 1
    {
      var newPtr := new Foo();
      WriteFoo(newPtr);
      globalPtr := newPtr;
    }
  }

  /** Two `version1` writes with a read after each: each reader holds its own
      object with val 1, and the first one is not disturbed by the second
      write. */
  method PublishScenario() returns (first: Foo?, second: Foo?)
    ensures first != null && second != null
    ensures first != second
    ensures first.val == 1 && second.val == 1
  {
    var g := new GlobalPublisher();
    g.Write();
    first := g.Read();
    g.Write();
    second := g.Read();
  }

  /** `kABSide`: the number of sides. */
  const ABSide := 2

  /** `version2::FooMgr`: two sides `dbd_` and the version `ver_` naming the
      side readers see. */
  class FooMgr {
    const dbd: array<Foo?>
    var ver: int

    /** At `Read`/`Write` boundaries the version names one of the two sides,
        and both sides hold a `Foo`. */
    ghost predicate Valid()
      reads this, dbd
    {
      dbd.Length == ABSide && 0 <= ver < ABSide &&
      dbd[0] != null && dbd[1] != null
    }

    /** The private constructor: each side gets its own `make_shared<Foo>()`
        and `ver_` starts at 0. */
    constructor ()
      ensures Valid() && fresh(dbd) && ver == 0
      ensures fresh(dbd[0]) && fresh(dbd[1]) && dbd[0] != dbd[1]
      ensures dbd[0].val == 0 && dbd[1].val == 0
    {
      dbd := new Foo?[ABSide];
      ver := 0;
      new;
      var i := 0;
      while i < ABSide
        modifies dbd
        invariant 0 <= i <= ABSide
        invariant forall j :: 0 <= j < i ==> dbd[j] != null && fresh(dbd[j]) && dbd[j].val == 0
        invariant forall j, k :: 0 <= j < k < i ==> dbd[j] != dbd[k]
      {
        dbd[i] := new Foo();
        i := i + 1;
      }
    }

    /** `Read`: the handle on the side `ver_` names; nothing changes. */
    method Read() returns (p: Foo)
      requires Valid()
      ensures p == dbd[ver]
    {
      p := dbd[ver];
    }

    /** `Write`: a new `Foo` incremented once is stored into side
        `(ver_ + 1) % kABSide`, which then becomes the published side.  The
        side readers saw before is untouched.  `transient` is the value `ver_`
        holds between `++ver_` and the final store: 2 when the version was 1,
        so `ver_` is a side number only at the boundaries of `Write`. */
    method Write() returns (ghost transient: int)
      requires Valid()
      modifies this, dbd
      ensures Valid()
      ensures ver == (old(ver) + 1) % ABSide && ver != old(ver)
      ensures transient == old(ver) + 1 && (old(ver) == 1 ==> transient == 2)
      ensures fresh(dbd[ver]) && dbd[ver].val == 1
      ensures dbd[old(ver)] == old(dbd[ver])
    {
      var newPtr := new Foo();
      WriteFoo(newPtr);
      ver := ver + 1;
      transient := ver;
      var newVer := ver % ABSide;
      dbd[newVer] := newPtr;
      ver := newVer;
    }
  }

  /** The function-local `static FooMgr foo_mgr` of `GetInstance`: absent
      until the first call. */
  class FooMgrStatic {
    var instance: FooMgr?

    ghost predicate Valid()
      reads this, instance, if instance != null then {instance.dbd} else {}
    {
      instance != null ==> instance.Valid()
    }

    constructor ()
      ensures Valid() && instance == null
    {
      instance := null;
    }

    /** `FooMgr::GetInstance`: the first call constructs the manager, every
        call returns that same manager. */
    method GetInstance() returns (m: FooMgr)
      requires Valid()
      modifies this
      ensures Valid() && m.Valid() && instance == m
      ensures old(instance) != null ==> m == old(instance)
      ensures old(instance) == null ==> fresh(m) && fresh(m.dbd) && m.ver == 0
      ensures old(instance) == null ==>
        fresh(m.dbd[0]) && fresh(m.dbd[1]) && m.dbd[0] != m.dbd[1] && m.dbd[0].val == 0 && m.dbd[1].val == 0
    {
      if instance == null {
        instance := new FooMgr();
      }
      m := instance;
    }
  }

  /** `ReadRoutine`/`WriteRoutine` run one after the other: both fetch the
      same manager; after one `Write` the published side is 1 and a `Read`
      yields a `Foo` with val 1, while side 0 still holds the initial `Foo`. */
  method FooMgrScenario() returns (same: bool, side: int, seen: int, other: int)
    ensures same
    ensures side == 1
    ensures seen == 1 && other == 0
  {
    var s := new FooMgrStatic();
    var writer := s.GetInstance();
    var _ := writer.Write();
    var reader := s.GetInstance();
    same := writer == reader;
    var p := reader.Read();
    side := reader.ver;
    seen := p.val;
    other := reader.dbd[0].val;
  }
}
