/**
 * The `Freezable` mixin of freezable/freezable.py: an object whose attribute
 * dictionary can be frozen, with guarded `__setattr__`/`__delattr__` and the
 * `enabled_when_unfrozen` method guard.
 *
 * The frozen flag is the attribute `_Freezable__frozen`. The class supplies the
 * default `False`; `freeze` writes an instance entry and `unfreeze` deletes it,
 * both bypassing the guarded primitives.
 */
module FreezableLib {
  import opened PyModel

  /** Which guard rejected an operation; each has its own message. */
  datatype Blocked = SetBlocked | DelBlocked | CallBlocked(methodName: Option<string>)

  datatype Error =
    | FrozenError(why: Blocked)
    | AttributeError(attr: string)
    | IndexError
    | TypeError
    | RaisedByMethod(kind: string)  // any other exception a wrapped method raises

  /** What a Python call does: return a value or raise an exception. */
  datatype Outcome = Returned(v: Value) | Raised(e: Error)

  /** An instance's attribute dictionary. */
  type Store = map<string, Value>

  /** The attribute dictionary after an operation, and what the operation gave back. */
  datatype Step = Step(store: Store, out: Outcome)

  /** The mangled name of the private `__frozen` attribute. */
  const FrozenAttr: string := "_Freezable__frozen"

  /** The class-level default of the flag. */
  const ClassFrozen: Value := VBool(false)

  const FrozenTail: string := " while object is frozen"
  const MethodPrefix: string := "cannot call method '"
  const MethodSuffix: string := "'" + FrozenTail

  /**
   * The text a FrozenError carries: every message ends with the same tail, and
   * the message of a rejected call of a named method quotes that name.
   */
  function Message(why: Blocked): (msg: string)
    ensures |msg| > |FrozenTail| && msg[|msg| - |FrozenTail|..] == FrozenTail
    ensures why.CallBlocked? && why.methodName.Some? ==>
      |msg| == |MethodPrefix| + |why.methodName.value| + |MethodSuffix| &&
      msg[..|MethodPrefix|] == MethodPrefix &&
      msg[|MethodPrefix|..|MethodPrefix| + |why.methodName.value|] == why.methodName.value
  {
    var head := match why
      case SetBlocked => "cannot set attributes"
      case DelBlocked => "cannot delete attributes"
      case CallBlocked(Some(name)) => MethodPrefix + name + "'"
      case CallBlocked(None) => "cannot call method";
    assert (head + FrozenTail)[|head|..] == FrozenTail;
    head + FrozenTail
  }

  /** The message of a rejected call identifies the method, and differs from the message for an unnamed one. */
  lemma MessageNamesMethod(a: string, b: string)
    ensures Message(CallBlocked(Some(a))) == Message(CallBlocked(Some(b))) <==> a == b
    ensures Message(CallBlocked(Some(a))) != Message(CallBlocked(None))
  {
  }

  /** `self.__frozen`: the instance entry when there is one, else the class default. */
  function FrozenFlag(s: Store): Value {
    if FrozenAttr in s then s[FrozenAttr] else ClassFrozen
  }

  /** What the guards test: the truth value of `self.is_frozen()`. */
  predicate Frozen(s: Store) {
    Truthy(FrozenFlag(s))
  }

  /** The operations on the object's attribute dictionary. */
  datatype Op =
    | FreezeOp
    | UnfreezeOp
    | SetAttrOp(name: string, v: Value)
    | DelAttrOp(name: string)

  predicate Guarded(op: Op) {
    op.SetAttrOp? || op.DelAttrOp?
  }

  /** The error a guarded operation raises while the object is frozen. */
  function Rejection(op: Op): Outcome
    requires Guarded(op)
  {
    Raised(FrozenError(if op.SetAttrOp? then SetBlocked else DelBlocked))
  }

  /** One operation on the attribute dictionary s. */
  function Exec(s: Store, op: Op): (r: Step)
    // freeze and unfreeze touch nothing but the flag entry, and never raise FrozenError
    ensures !Guarded(op) ==> r.store - {FrozenAttr} == s - {FrozenAttr}
    ensures op.FreezeOp? ==> r.out == Returned(VNone) && FrozenFlag(r.store) == VBool(true)
    ensures op.UnfreezeOp? ==> FrozenAttr !in r.store && FrozenFlag(r.store) == VBool(false)
    ensures op.UnfreezeOp? ==> (r.out == Returned(VNone) <==> FrozenAttr in s)
    ensures op.UnfreezeOp? && FrozenAttr !in s ==> r == Step(s, Raised(AttributeError(FrozenAttr)))
    // while frozen the guarded primitives raise FrozenError and change nothing
    ensures Guarded(op) && Frozen(s) ==> r == Step(s, Rejection(op))
    // while unfrozen they set or delete that one name
    ensures op.SetAttrOp? && !Frozen(s) ==>
      r.out == Returned(VNone) && op.name in r.store && r.store[op.name] == op.v &&
      r.store - {op.name} == s - {op.name}
    ensures op.DelAttrOp? && !Frozen(s) ==>
      op.name !in r.store && r.store - {op.name} == s - {op.name} &&
      (r.out == Returned(VNone) <==> op.name in s) &&
      (op.name !in s ==> r.out == Raised(AttributeError(op.name)))
  {
    match op
    case FreezeOp => Step(s[FrozenAttr := VBool(true)], Returned(VNone))
    case UnfreezeOp =>
      if FrozenAttr in s then Step(s - {FrozenAttr}, Returned(VNone))
      else Step(s, Raised(AttributeError(FrozenAttr)))
    case SetAttrOp(name, v) =>
      if Frozen(s) then Step(s, Raised(FrozenError(SetBlocked)))
      else Step(s[name := v], Returned(VNone))
    case DelAttrOp(name) =>
      if Frozen(s) then Step(s, Raised(FrozenError(DelBlocked)))
      else if name in s then Step(s - {name}, Returned(VNone))
      else Step(s, Raised(AttributeError(name)))
  }

  /** The steps of running ops one after another from s. */
  function Run(s: Store, ops: seq<Op>): (t: seq<Step>)
    ensures |t| == |ops|
    decreases |ops|
  {
    if ops == [] then []
    else
      var first := Exec(s, ops[0]);
      [first] + Run(first.store, ops[1..])
  }

  /** n rounds of `freeze()` followed by `unfreeze()`. */
  function Cycles(n: nat): (ops: seq<Op>)
    ensures |ops| == 2 * n
  {
    if n == 0 then [] else [FreezeOp, UnfreezeOp] + Cycles(n - 1)
  }

  /**
   * Alternating freeze and unfreeze, from any state, never fails and the flag
   * reads True after every freeze and False after every unfreeze; afterwards
   * only the flag entry is gone.
   */
  lemma {:induction false} FreezeUnfreezeCycles(s: Store, n: nat)
    ensures forall i :: 0 <= i < 2 * n ==>
      Run(s, Cycles(n))[i].out == Returned(VNone) &&
      FrozenFlag(Run(s, Cycles(n))[i].store) == VBool(i % 2 == 0)
    ensures n > 0 ==> Run(s, Cycles(n))[2 * n - 1].store == s - {FrozenAttr}
  {
    if n > 0 {
      var ops := Cycles(n);
      var s1 := Exec(s, FreezeOp).store;
      var s2 := Exec(s1, UnfreezeOp).store;
      assert ops[1..] == [UnfreezeOp] + Cycles(n - 1);
      assert ops[1..][1..] == Cycles(n - 1);
      var rest := Run(s2, Cycles(n - 1));
      assert Run(s, ops) == [Exec(s, FreezeOp), Exec(s1, UnfreezeOp)] + rest;
      assert s2 == s - {FrozenAttr};
      FreezeUnfreezeCycles(s2, n - 1);
      if n > 1 {
        assert s2 - {FrozenAttr} == s - {FrozenAttr};
      }
    }
  }

  /**
   * Once frozen, no sequence of attribute assignments and deletions gets
   * through: each raises FrozenError and the dictionary stays as it was. In
   * particular deleting the flag through `__delattr__` cannot unfreeze.
   */
  lemma {:induction false} FrozenRejectsGuardedOps(s: Store, ops: seq<Op>)
    requires Frozen(s)
    requires forall i :: 0 <= i < |ops| ==> Guarded(ops[i])
    ensures forall i :: 0 <= i < |ops| ==> Run(s, ops)[i] == Step(s, Rejection(ops[i]))
    decreases |ops|
  {
    if ops != [] {
      assert Exec(s, ops[0]).store == s;
      FrozenRejectsGuardedOps(s, ops[1..]);
      forall i | 0 <= i < |ops| ensures Run(s, ops)[i] == Step(s, Rejection(ops[i])) {
        if i > 0 {
          assert Run(s, ops)[i] == Run(s, ops[1..])[i - 1];
          assert ops[1..][i - 1] == ops[i];
        }
      }
    }
  }

  /**
   * A method of a Freezable subclass: its `__name__` when it has one, and its
   * effect on the instance's attributes given the remaining arguments.
   */
  datatype Method = Method(name: Option<string>, body: (Store, Value) -> Step)

  /** A call of the method that `enabled_when_unfrozen` wraps around m. */
  function Wrapped(m: Method, s: Store, args: Value): (r: Step)
    ensures Frozen(s) ==> r == Step(s, Raised(FrozenError(CallBlocked(m.name))))
    ensures !Frozen(s) ==> r == m.body(s, args)
  {
    if Frozen(s) then Step(s, Raised(FrozenError(CallBlocked(m.name))))
    else m.body(s, args)
  }

  /** While frozen, the result of a guarded call does not depend on the method's body at all. */
  lemma FrozenIgnoresBody(m: Method, s: Store, args: Value, other: (Store, Value) -> Step)
    requires Frozen(s)
    ensures Wrapped(Method(m.name, other), s, args) == Wrapped(m, s, args)
    ensures Wrapped(m, s, args).store == s
  {
  }

  /** The name under which a recording method keeps the arguments it was called with. */
  const CallsAttr: string := "calls"

  function CallLog(s: Store): seq<Value> {
    if CallsAttr in s && s[CallsAttr].VList? then s[CallsAttr].items else []
  }

  /** A method that records its arguments and then returns or raises `result`. */
  function Recording(result: Outcome): Method {
    Method(Some("recording"), (s: Store, args: Value) =>
      Step(s[CallsAttr := VList(CallLog(s) + [args])], result))
  }

  /**
   * The wrapped method runs exactly once with exactly the given arguments when
   * the object is unfrozen, and passes on what it returned or raised; when the
   * object is frozen it is not run at all.
   */
  lemma WrappedCallsOnce(s: Store, args: Value, result: Outcome)
    ensures var r := Wrapped(Recording(result), s, args);
      if Frozen(s) then
        CallLog(r.store) == CallLog(s) && r.out == Raised(FrozenError(CallBlocked(Some("recording"))))
      else
        CallLog(r.store) == CallLog(s) + [args] && r.out == result
  {
  }

  class Freezable {
    /** The instance's attribute dictionary. */
    var attrs: Store

    constructor ()
      ensures attrs == map[] && IsFrozen() == VBool(false)
    {
      attrs := map[];
    }

    /** `is_frozen()`: the stored flag, or the class default False when none is stored. */
    function IsFrozen(): (v: Value)
      reads this
      ensures FrozenAttr in attrs ==> v == attrs[FrozenAttr]
      ensures FrozenAttr !in attrs ==> v == VBool(false)
    {
      FrozenFlag(attrs)
    }

    /** `freeze()`: writes the flag entry without the guard, so it works even when already frozen. */
    method Freeze()
      modifies this
      ensures attrs == Exec(old(attrs), FreezeOp).store
      ensures IsFrozen() == VBool(true)
    {
      attrs := attrs[FrozenAttr := VBool(true)];
    }

    /** `unfreeze()`: deletes the flag entry without the guard; raises AttributeError when there is none. */
    method Unfreeze() returns (r: Outcome)
      modifies this
      ensures Step(attrs, r) == Exec(old(attrs), UnfreezeOp)
      ensures IsFrozen() == VBool(false)
    {
      if FrozenAttr in attrs {
        attrs := attrs - {FrozenAttr};
        r := Returned(VNone);
      } else {
        r := Raised(AttributeError(FrozenAttr));
      }
    }

    /** `__setattr__`: refused while frozen. */
    method SetAttr(name: string, v: Value) returns (r: Outcome)
      modifies this
      ensures Step(attrs, r) == Exec(old(attrs), SetAttrOp(name, v))
      ensures Frozen(old(attrs)) ==> r == Raised(FrozenError(SetBlocked)) && attrs == old(attrs)
      ensures !Frozen(old(attrs)) ==> r == Returned(VNone) && attrs == old(attrs)[name := v]
    {
      if Truthy(IsFrozen()) {
        r := Raised(FrozenError(SetBlocked));
      } else {
        attrs := attrs[name := v];
        r := Returned(VNone);
      }
    }

    /** `__delattr__`: refused while frozen; AttributeError for a name that is not there. */
    method DelAttr(name: string) returns (r: Outcome)
      modifies this
      ensures Step(attrs, r) == Exec(old(attrs), DelAttrOp(name))
      ensures Frozen(old(attrs)) ==> r == Raised(FrozenError(DelBlocked)) && attrs == old(attrs)
    {
      if Truthy(IsFrozen()) {
        r := Raised(FrozenError(DelBlocked));
      } else if name in attrs {
        attrs := attrs - {name};
        r := Returned(VNone);
      } else {
        r := Raised(AttributeError(name));
      }
    }
  }

  /**
   * `enabled_when_unfrozen(m)` called on `self`: check the flag, then either
   * raise FrozenError without running m, or run m once and pass its result on.
   */
  method EnabledWhenUnfrozen(m: Method, self: Freezable, args: Value) returns (r: Outcome)
    modifies self
    ensures Step(self.attrs, r) == Wrapped(m, old(self.attrs), args)
  {
    if Truthy(self.IsFrozen()) {
      r := Raised(FrozenError(CallBlocked(m.name)));
    } else {
      var after := m.body(self.attrs, args);
      self.attrs := after.store;
      r := after.out;
    }
  }
}
