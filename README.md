# python-freezable in Dafny

A model of the two variants of the `Freezable` mixin.

- **`freezable/freezable.py`** (modules `PyModel`, `FreezableLib`, `StackExample`). An object's attribute dictionary is a `map<string, Value>` field of the class `FreezableLib.Freezable`. The frozen flag is the mangled attribute `_Freezable__frozen`. When the instance has no entry for it, the class default `False` applies. `freeze()` writes the entry and `unfreeze()` deletes it, and neither goes through the guard. `__setattr__` and `__delattr__` raise `FrozenError` while the object is frozen. `enabled_when_unfrozen` is modelled twice. `Wrapped` is a pure function on the dictionary. `EnabledWhenUnfrozen` is the method that checks the flag and then either raises or runs the wrapped method once. A wrapped method is a `Method`: its optional `__name__` plus its effect on the dictionary, given as a function of the dictionary and the call's arguments. The documented `FreezableStack` stores its list in the attribute `_data` of a `Freezable` object. Its `push` and `pop` are guarded with `enabled_when_unfrozen`; `top` and `is_empty` are not.
- **`freezable_mixin/freezable.py`** (module `FreezableMixin`). A separate two-state machine. A `FreezableData` holder keeps a boolean, which `_freeze` and `_unfreeze` set and `_is_frozen` reads. Nothing is guarded.

Each pure operation on the dictionary is `FreezableLib.Exec`, and `FreezableLib.Run` runs a sequence of them. Each method of `FreezableLib.Freezable`, `FreezableLib.EnabledWhenUnfrozen` and the stack's `Push` and `Pop` are proved to change state exactly as `Exec` or `Wrapped` says. The properties that relate several calls are lemmas about those functions.

`unfreeze()` is not idempotent. It deletes the instance entry with `object.__delattr__` (freezable/freezable.py:88), and that raises `AttributeError` when there is no entry: on an object that was never frozen, including a new `FreezableStack`, or on one already unfrozen. `Exec` and `Freezable.Unfreeze` return `Raised(AttributeError("_Freezable__frozen"))` in that case. In contrast, `_unfreeze` in the mixin variant only assigns `False` (freezable_mixin/freezable.py:29), so it is idempotent.

`is_frozen()` is annotated `-> bool` and documented to return True or False (freezable/freezable.py:90-95), and the flag is declared `__frozen: bool` (freezable/freezable.py:73). Still, `return self.__frozen` returns whatever is stored under the flag's name, and the guards test that value's truthiness. The model does the same: `IsFrozen` returns the stored `Value`, and the guards use `Truthy`. A value assigned to `_Freezable__frozen` through `__setattr__` therefore freezes the object exactly when it is truthy.

## Model

| member | source | states |
|---|---|---|
| FreezableLib.Freezable.constructor | freezable/freezable.py:73 | a new instance has no attributes and `is_frozen()` gives the class default False |
| FreezableLib.Freezable.IsFrozen | freezable/freezable.py:90-96 | returns the instance's flag entry when present, otherwise False; reads only the object |
| FreezableLib.Freezable.Freeze | freezable/freezable.py:80-83 | whatever the prior state, afterwards `is_frozen()` is True; only the flag entry changes |
| FreezableLib.Freezable.Unfreeze | freezable/freezable.py:85-88 | deletes the flag entry and returns None, or raises AttributeError when there is none; either way `is_frozen()` is then False |
| FreezableLib.Freezable.SetAttr | freezable/freezable.py:102-110 | while frozen raises FrozenError and leaves the dictionary unchanged; otherwise stores the value under the name |
| FreezableLib.Freezable.DelAttr | freezable/freezable.py:112-119 | while frozen raises FrozenError and changes nothing; otherwise removes the name, or raises AttributeError if absent |
| FreezableLib.Exec | freezable/freezable.py:80-119 | freeze/unfreeze touch only the flag entry and always leave the flag True/False; unfreeze succeeds iff there is an entry; set/delete change nothing and raise FrozenError while frozen, and change exactly that one name while unfrozen |
| FreezableLib.FreezeUnfreezeCycles | freezable/freezable.py:80-96 | any number of freeze/unfreeze rounds from any state all succeed, the flag reads True after each freeze and False after each unfreeze, and afterwards only the flag entry is gone |
| FreezableLib.FrozenRejectsGuardedOps | freezable/freezable.py:102-119 | on a frozen object every attribute assignment or deletion in any sequence raises FrozenError and the dictionary never changes, so deleting the flag through `__delattr__` cannot unfreeze |
| FreezableLib.MessageNamesMethod | freezable/freezable.py:194-199 | the FrozenError message of a rejected call determines the method's name, and differs from the message for a method without a name |
| FreezableLib.Message | freezable/freezable.py:109-199 | the four FrozenError texts: every one ends " while object is frozen", and a rejected call of a named method quotes the name after "cannot call method '" |
| FreezableLib.FrozenIgnoresBody | freezable/freezable.py:194-199 | while frozen, the guarded call's result and dictionary are the same whatever the method's body is: the body is never run |
| FreezableLib.Wrapped | freezable/freezable.py:191-202 | while frozen: FrozenError naming the method (if it has a name), dictionary unchanged, body not run; while unfrozen: exactly one run of the body with the same arguments, its return or exception passed on unchanged |
| FreezableLib.WrappedCallsOnce | freezable/freezable.py:194-200 | a method that records its calls is recorded exactly once, with exactly the given arguments, and its return or exception passed through when unfrozen; it is never recorded when frozen |
| FreezableLib.EnabledWhenUnfrozen | freezable/freezable.py:191-202 | calling the guarded method changes the object and answers exactly as `Wrapped` describes |
| StackExample.TopOf | freezable/freezable.py:68-69 | the last element of a non-empty stack, None for an empty one, AttributeError when `_data` is missing |
| StackExample.IsEmptyOf | freezable/freezable.py:65-66 | True exactly when the stack's list is empty; AttributeError when `_data` is missing |
| StackExample.PushBody | freezable/freezable.py:51-53 | `self._data.append(x)`: appends x and changes no other attribute when `_data` is a list; AttributeError for `_data` missing (naming `_data`) or not a list (naming `append`), dictionary unchanged |
| StackExample.PopBody | freezable/freezable.py:55-57 | `self._data.pop()`: returns and removes the last element of a non-empty list; IndexError for an empty list; AttributeError for `_data` missing or not a list; the dictionary is unchanged on every error |
| StackExample.PushPopRoundTrip | freezable/freezable.py:51-57 | on an unfrozen stack, `push(x)` followed by `pop()` returns x and restores the object exactly |
| StackExample.PushThenTop | freezable/freezable.py:135-151 | after `push(x)` on an unfrozen stack, `top()` is x and the stack is not empty |
| StackExample.FreezableStack.constructor | freezable/freezable.py:40-41 | a new stack's dictionary is exactly `{'_data': []}`: unfrozen, with no flag entry, so a first `unfreeze()` raises AttributeError |
| StackExample.FreezableStack.Push | freezable/freezable.py:51-53 | frozen: FrozenError naming `push` and nothing changes; unfrozen: x is appended and no other attribute changes |
| StackExample.FreezableStack.Pop | freezable/freezable.py:55-57 | frozen: FrozenError naming `pop` and nothing changes; empty: IndexError and nothing changes; otherwise returns the last element and removes it |
| StackExample.FreezableStack.Top | freezable/freezable.py:68-69 | unguarded: the last element of the stack's list, None when the list is empty or `_data` is falsy, TypeError when `_data` is a truthy non-list, AttributeError when `_data` is missing |
| StackExample.FreezableStack.IsEmpty | freezable/freezable.py:65-66 | unguarded: True exactly when the list is empty (for a non-list `_data`, when it is falsy); AttributeError when `_data` is missing |
| StackExample.DocumentedUsage | freezable/freezable.py:156-175 | the documented session: `top()` reads None, 1, 2, still 2 after the refused `push(3)` on the frozen stack, then 3 after unfreezing; the refused push raises FrozenError naming `push` |
| FreezableMixin.FreezableData.constructor | freezable_mixin/freezable.py:6-8 | the holder starts unfrozen |
| FreezableMixin.Freezable.constructor | freezable_mixin/freezable.py:15-18 | a new object has a fresh holder and `_is_frozen()` is False |
| FreezableMixin.Freezable.Freeze | freezable_mixin/freezable.py:21-24 | afterwards frozen; on a frozen object it changes nothing; only the holder's flag may change |
| FreezableMixin.Freezable.Unfreeze | freezable_mixin/freezable.py:26-29 | afterwards unfrozen; on an unfrozen object it changes nothing (no error); only the holder's flag may change |
| FreezableMixin.Freezable.IsFrozen | freezable_mixin/freezable.py:31-33 | returns the holder's current flag and changes nothing |

## Left out

- Metadata preservation by `functools.wraps`, and the `_F` type variable: Python introspection (`__name__`, `__doc__`, `__qualname__`, `__annotations__`, `__dict__`) has no Dafny counterpart. Only the optional `__name__` is kept, because it appears in the error message.
- `*args`/`**kwargs` forwarding: the arguments after `self` are one opaque `Value`, passed through unchanged.
- The `args` tuple of `FrozenError`: the error carries the reason it was raised (set, delete, or a call of an optionally named method), and `Message` gives its text.
- Name mangling and `object.__setattr__`/`object.__delattr__`: the flag is the map entry `_Freezable__frozen`, and freeze/unfreeze write it without the guard. The model does not include Python's attribute lookup, apart from the class default of the flag. It also does not include subclasses that override `is_frozen`, `__setattr__` or `__delattr__`.
- Thread safety: there is no locking, and the check-then-call in `wrapped` is not atomic. The model is sequential.
- Python values other than None, bool, int and list. A wrapped method's body is a pure function of the object's attributes and arguments, so effects on other objects are not modelled.
- `FreezableStack` inherits from `Freezable` in Python. In the model it holds a `Freezable` object whose attribute dictionary it uses, because Dafny classes do not inherit state. Freezing the stack is `stk.obj.Freeze()`.
- A `freezable_mixin` subclass that skips `Freezable.__init__` would have no `__data` holder. In the model, construction is mandatory.
- Shallow freezing through shared values: attribute values are immutable `Value`s with no identity. In Python a frozen object's list can still be changed in place, by `stk._data.append(3)` or through any other reference to it, because only attribute assignment and deletion (freezable/freezable.py:102-119) and decorated methods are checked. The model has no operation that changes a stored value in place other than a wrapped method's body.
- `wrapped` takes `self = args[0]` (freezable/freezable.py:193), so a call with no positional argument raises IndexError. In the model `self` is a separate parameter that is always present, so that case is not modelled.
- The tests import `disabled_when_frozen`, which `freezable/freezable.py` does not define. The decorator that is modelled is `enabled_when_unfrozen`.
