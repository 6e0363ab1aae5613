/** The two-slot double buffers of chapter01/src/dbd/main.cc (versions 1 to 4).

    Threads are left out: every call runs to completion before the next one
    starts, and the atomic `index_` is a plain integer.  Versions 1 and 2 keep
    the values themselves in `data_[2]` and hand readers a raw pointer into
    that array; versions 3 and 4 keep `shared_ptr<Foo>` handles and hand
    readers a copy of the handle.  A handle points to an object nobody mutates
    after `make_shared`, so it is modelled as the `Foo` value it points to. */
module DoubleBuffers {

  /** `Foo`: one integer; `Foo()` leaves `val` at 0. */
  datatype Foo = Foo(val: int)

  /** What `Foo()` and `make_shared<Foo>()` produce. */
  const DefaultFoo := Foo(0)

  /** `kWriteIterNum = 1 << 1`: how many writes `WriteRoutine` performs. */
  const WriteIterNum := 2

  /** C++ `!` applied to an int: 0 becomes 1 and every other value 0. */
  function Not(i: int): (r: int)
    ensures r == 0 || r == 1
    ensures r == 1 <==> i == 0
  {
    if i == 0 then 1 else 0
  }

  /** `DoubleBuffer<Foo>`: two cells and the index of the cell readers see. */
  class DoubleBuffer {
    const data: array<Foo>
    var index: int

    /** The active index is always 0 or 1, and there are two cells. */
    ghost predicate Valid()
      reads this
    {
      data.Length == 2 && (index == 0 || index == 1)
    }

    /** The value a reader sees right now. */
    ghost function Current(): Foo
      reads this, data
      requires Valid()
    {
      data[index]
    }

    /** Both cells start as `Foo()` (val 0) and the index starts at 0: in
        versions 1 and 2 by default construction of `data_[2]`, in versions 3
        and 4 by the constructor's `make_shared<T>()` loop. */
    constructor ()
      ensures Valid() && fresh(data)
      ensures index == 0
      ensures data[..] == [DefaultFoo, DefaultFoo]
    {
      data := new Foo[2](_ => DefaultFoo);
      index := 0;
      new;
      assert data[..] == [data[0], data[1]];
    }

    /** Versions 1 and 2: `Read` returns `data_ + index_`, a pointer into the
        cell array, modelled as the number of the slot it points at.  What the
        caller sees through it later is `data[p]` at that later time. */
    method ReadPointer() returns (p: int)
      requires Valid()
      ensures 0 <= p < data.Length && p == index
      ensures data[p] == Current()
    {
      p := index;
    }

    /** Versions 3 and 4: `Read` returns a copy of the active cell's handle.
        The caller keeps that value whatever later writes do. */
    method ReadHandle() returns (h: Foo)
      requires Valid()
      ensures h == Current()
    {
      h := data[index];
    }

    /** `Write`: store into the inactive cell `!index_`, then make it active.
        The cell that was active is untouched, so a reader of the old value
        still finds it there until the next write. */
    method Write(v: Foo)
      requires Valid()
      modifies this, data
      ensures Valid()
      ensures index == Not(old(index)) && index != old(index)
      ensures Current() == v
      ensures data[old(index)] == old(data[index])
      ensures data[..] == old(data[..])[index := v]
    {
      var newIndex := Not(index);
      data[newIndex] := v;
      index := newIndex;
    }
  }

  /** `WriteRoutine`: writes `Foo(1)` then `Foo(2)`.  The second write lands
      in the cell that was active before the first one, so the index is back
      where it started and a pointer taken before the routine now sees the
      second value. */
  method WriteRoutine(b: DoubleBuffer)
    requires b.Valid()
    modifies b, b.data
    ensures b.Valid()
    ensures b.index == old(b.index)
    ensures b.Current() == Foo(WriteIterNum)
    ensures b.data[Not(b.index)] == Foo(WriteIterNum - 1)
  {
    ghost var start := b.index;
    for i := 0 to WriteIterNum
      invariant b.Valid()
      invariant b.index == (if i % 2 == 0 then start else Not(start))
      invariant i >= 1 ==> b.Current() == Foo(i)
      invariant i >= 2 ==> b.data[Not(b.index)] == Foo(i - 1)
    {
      b.Write(Foo(i + 1));
    }
  }

  /** A fresh buffer run through `WriteRoutine`: the index is back at 0 and a
      read yields the second value. */
  method WriteRoutineScenario() returns (index: int, seen: Foo)
    ensures index == 0
    ensures seen == Foo(2)
  {
    var b := new DoubleBuffer();
    WriteRoutine(b);
    index := b.index;
    seen := b.ReadHandle();
  }

  /** Versions 1 and 2: a pointer read before two writes.  Before any write
      it sees `Foo()`; after one write it still sees the old value; the
      second write overwrites the very cell it points at. */
  method StalePointerScenario() returns (before: Foo, afterOne: Foo, afterTwo: Foo)
    ensures before == DefaultFoo
    ensures afterOne == DefaultFoo
    ensures afterTwo == Foo(2)
  {
    var b := new DoubleBuffer();
    var p := b.ReadPointer();
    before := b.data[p];
    b.Write(Foo(1));
    afterOne := b.data[p];
    b.Write(Foo(2));
    afterTwo := b.data[p];
  }

  /** Versions 3 and 4: a handle read before two writes keeps `Foo()`, while
      a handle read after them yields the second value. */
  method HeldHandleScenario() returns (held: Foo, latest: Foo)
    ensures held == DefaultFoo
    ensures latest == Foo(2)
  {
    var b := new DoubleBuffer();
    held := b.ReadHandle();
    b.Write(Foo(1));
    b.Write(Foo(2));
    latest := b.ReadHandle();
  }
}
