/**
 * The `FreezableStack` client documented in freezable/freezable.py: a stack
 * kept in the attribute `_data` of a Freezable object, with `push` and `pop`
 * guarded by `enabled_when_unfrozen` and `top` and `is_empty` unguarded.
 *
 * `push` and `pop` change the list in place (`append`, `pop`) rather than
 * assigning the attribute, so `__setattr__` would not stop them: only the
 * method guard does.
 */
module StackExample {
  import opened PyModel
  import opened FreezableLib

  const DataAttr: string := "_data"

  /** The stack's elements, bottom first, when `self._data` holds a list. */
  function Items(s: Store): Option<seq<Value>> {
    if DataAttr in s && s[DataAttr].VList? then Some(s[DataAttr].items) else None
  }

  /** The body of `push(x)`: `self._data.append(x)`. */
  function PushBody(s: Store, x: Value): (r: Step)
    ensures DataAttr !in s ==> r == Step(s, Raised(AttributeError(DataAttr)))
    ensures DataAttr in s && Items(s).None? ==> r == Step(s, Raised(AttributeError("append")))
    ensures Items(s).Some? ==>
      r.out == Returned(VNone) && Items(r.store) == Some(Items(s).value + [x]) &&
      r.store - {DataAttr} == s - {DataAttr}
  {
    if DataAttr !in s then Step(s, Raised(AttributeError(DataAttr)))
    else match s[DataAttr]
      case VList(xs) => Step(s[DataAttr := VList(xs + [x])], Returned(VNone))
      case _ => Step(s, Raised(AttributeError("append")))
  }

  /** The body of `pop()`: `return self._data.pop()`; pop takes no further arguments. */
  function PopBody(s: Store, noArgs: Value): (r: Step)
    ensures DataAttr !in s ==> r == Step(s, Raised(AttributeError(DataAttr)))
    ensures DataAttr in s && Items(s).None? ==> r == Step(s, Raised(AttributeError("pop")))
    ensures Items(s) == Some([]) ==> r == Step(s, Raised(IndexError))
    ensures Items(s).Some? && Items(s).value != [] ==>
      var xs := Items(s).value;
      r.out == Returned(xs[|xs| - 1]) && Items(r.store) == Some(xs[..|xs| - 1]) &&
      r.store - {DataAttr} == s - {DataAttr}
  {
    if DataAttr !in s then Step(s, Raised(AttributeError(DataAttr)))
    else match s[DataAttr]
      case VList(xs) =>
        if xs == [] then Step(s, Raised(IndexError))
        else Step(s[DataAttr := VList(xs[..|xs| - 1])], Returned(xs[|xs| - 1]))
      case _ => Step(s, Raised(AttributeError("pop")))
  }

  const PushMethod: Method := Method(Some("push"), PushBody)
  const PopMethod: Method := Method(Some("pop"), PopBody)

  /** `top()`: the last element, None for an empty (falsy) `_data`. */
  function TopOf(s: Store): (r: Outcome)
    ensures Items(s) == Some([]) ==> r == Returned(VNone)
    ensures Items(s).Some? && Items(s).value != [] ==> r == Returned(Items(s).value[|Items(s).value| - 1])
    ensures DataAttr !in s ==> r == Raised(AttributeError(DataAttr))
    ensures DataAttr in s && Items(s).None? ==>
      r == if Truthy(s[DataAttr]) then Raised(TypeError) else Returned(VNone)
  {
    if DataAttr !in s then Raised(AttributeError(DataAttr))
    else if !Truthy(s[DataAttr]) then Returned(VNone)
    else match s[DataAttr]
      case VList(xs) => Returned(xs[|xs| - 1])
      case _ => Raised(TypeError)  // a true bool or a non-zero int is not subscriptable
  }

  /** `is_empty()`: `not bool(self._data)`. */
  function IsEmptyOf(s: Store): (r: Outcome)
    ensures Items(s).Some? ==> r == Returned(VBool(Items(s).value == []))
    ensures DataAttr !in s ==> r == Raised(AttributeError(DataAttr))
    ensures DataAttr in s && Items(s).None? ==> r == Returned(VBool(!Truthy(s[DataAttr])))
  {
    if DataAttr !in s then Raised(AttributeError(DataAttr))
    else Returned(VBool(!Truthy(s[DataAttr])))
  }

  /** Pushing onto an unfrozen stack and popping gives the element back and restores the object. */
  lemma PushPopRoundTrip(s: Store, x: Value)
    requires !Frozen(s) && Items(s).Some?
    ensures Wrapped(PushMethod, s, x).out == Returned(VNone)
    ensures Wrapped(PopMethod, Wrapped(PushMethod, s, x).store, VNone) == Step(s, Returned(x))
  {
  }

  /** After a successful push the pushed element is on top and the stack is not empty. */
  lemma PushThenTop(s: Store, x: Value)
    requires !Frozen(s) && Items(s).Some?
    ensures TopOf(Wrapped(PushMethod, s, x).store) == Returned(x)
    ensures IsEmptyOf(Wrapped(PushMethod, s, x).store) == Returned(VBool(false))
  {
  }

  class FreezableStack {
    /** The Freezable instance whose attributes hold the stack. */
    const obj: Freezable

    /** `__init__`: `self._data = []`, through the guarded `__setattr__` of a fresh, unfrozen object. */
    constructor ()
      ensures fresh(obj)
      ensures obj.attrs == map[DataAttr := VList([])]
      ensures Items(obj.attrs) == Some([]) && !Frozen(obj.attrs)
    {
      obj := new Freezable();
      new;
      var r := obj.SetAttr(DataAttr, VList([]));
    }

    /** `push(x)`, guarded. */
    method Push(x: Value) returns (r: Outcome)
      modifies obj
      ensures Step(obj.attrs, r) == Wrapped(PushMethod, old(obj.attrs), x)
      ensures Frozen(old(obj.attrs)) ==>
        r == Raised(FrozenError(CallBlocked(Some("push")))) && obj.attrs == old(obj.attrs)
      ensures !Frozen(old(obj.attrs)) && Items(old(obj.attrs)).Some? ==>
        r == Returned(VNone) && Items(obj.attrs) == Some(Items(old(obj.attrs)).value + [x]) &&
        obj.attrs - {DataAttr} == old(obj.attrs) - {DataAttr}
    {
      r := EnabledWhenUnfrozen(PushMethod, obj, x);
    }

    /** `pop()`, guarded; IndexError on an empty stack. */
    method Pop() returns (r: Outcome)
      modifies obj
      ensures Step(obj.attrs, r) == Wrapped(PopMethod, old(obj.attrs), VNone)
      ensures Frozen(old(obj.attrs)) ==>
        r == Raised(FrozenError(CallBlocked(Some("pop")))) && obj.attrs == old(obj.attrs)
      ensures !Frozen(old(obj.attrs)) && Items(old(obj.attrs)) == Some([]) ==>
        r == Raised(IndexError) && obj.attrs == old(obj.attrs)
      ensures !Frozen(old(obj.attrs)) && Items(old(obj.attrs)).Some? && Items(old(obj.attrs)).value != [] ==>
        var xs := Items(old(obj.attrs)).value;
        r == Returned(xs[|xs| - 1]) && Items(obj.attrs) == Some(xs[..|xs| - 1]) &&
        obj.attrs - {DataAttr} == old(obj.attrs) - {DataAttr}
    {
      r := EnabledWhenUnfrozen(PopMethod, obj, VNone);
    }

    /** `top()`, unguarded. */
    function Top(): (r: Outcome)
      reads obj
      ensures Items(obj.attrs) == Some([]) ==> r == Returned(VNone)
      ensures Items(obj.attrs).Some? && Items(obj.attrs).value != [] ==>
        r == Returned(Items(obj.attrs).value[|Items(obj.attrs).value| - 1])
      ensures DataAttr !in obj.attrs ==> r == Raised(AttributeError(DataAttr))
      ensures DataAttr in obj.attrs && Items(obj.attrs).None? ==>
        r == if Truthy(obj.attrs[DataAttr]) then Raised(TypeError) else Returned(VNone)
    {
      TopOf(obj.attrs)
    }

    /** `is_empty()`, unguarded. */
    function IsEmpty(): (r: Outcome)
      reads obj
      ensures Items(obj.attrs).Some? ==> r == Returned(VBool(Items(obj.attrs).value == []))
      ensures DataAttr !in obj.attrs ==> r == Raised(AttributeError(DataAttr))
      ensures DataAttr in obj.attrs && Items(obj.attrs).None? ==> r == Returned(VBool(!Truthy(obj.attrs[DataAttr])))
    {
      IsEmptyOf(obj.attrs)
    }
  }

  /**
   * The documented session: push 1 and 2, freeze, a refused push of 3 that
   * leaves the top at 2, unfreeze, push 3. Returns what `top()` says along the
   * way and what the refused push raised.
   */
  method DocumentedUsage() returns (tops: seq<Outcome>, refused: Outcome)
    ensures tops == [Returned(VNone), Returned(VInt(1)), Returned(VInt(2)), Returned(VInt(2)), Returned(VInt(3))]
    ensures refused == Raised(FrozenError(CallBlocked(Some("push"))))
  {
    var stk := new FreezableStack();
    tops := [stk.Top()];
    var r := stk.Push(VInt(1));
    tops := tops + [stk.Top()];
    r := stk.Push(VInt(2));
    tops := tops + [stk.Top()];
    stk.obj.Freeze();
    refused := stk.Push(VInt(3));
    tops := tops + [stk.Top()];
    r := stk.obj.Unfreeze();
    r := stk.Push(VInt(3));
    tops := tops + [stk.Top()];
  }
}
