/** `GlobalContext` and `LocalContext` (src/disnake/ext/plugins/context.py):
    one process-wide table from keys to context instances, each instance a
    slot holding a value and a default. */
module Contexts {
  import opened Common

  /** A slot's content: the `Undefined` sentinel or a value. */
  datatype Slot = Undefined | Defined(value: Value)

  /** Truthiness of a slot: `Undefined` is falsy like None. */
  predicate SlotTruthy(s: Slot) {
    s.Defined? && Truthy(s.value)
  }

  /** One context instance. `local` records whether `LocalContext` built it. */
  class GlobalContext {
    const key: string
    const local: bool
    const default: Slot
    var value: Slot

    constructor (key: string, local: bool, default: Slot)
      ensures this.key == key && this.local == local && this.default == default
      ensures value == Undefined
    {
      this.key := key;
      this.local := local;
      this.default := default;
      value := Undefined;
    }

    /** `set(obj)` */
    method Set(obj: Value)
      modifies this
      ensures value == Defined(obj)
      ensures forall d :: Get(d) == Ok(obj)
    {
      value := Defined(obj);
    }

    /** `get(default)`: the value once set; before that the call's default
        if it is truthy, else the instance's default, and ValueError when
        that is `Undefined`. */
    function Get(default: Slot): (r: Result<Value>)
      reads this
      ensures value.Defined? ==> r == Ok(value.value)
      ensures value.Undefined? && SlotTruthy(default) ==> r == Ok(default.value)
      ensures value.Undefined? && !SlotTruthy(default) ==> r == (if this.default.Defined? then Ok(this.default.value) else Err(ValueError))
      ensures r.Err? ==> r.error == ValueError
    {
      if value.Defined? then Ok(value.value)
      else
        var resolved := if SlotTruthy(default) then default else this.default;
        if resolved.Undefined? then Err(ValueError) else Ok(resolved.value)
    }
  }

  /** The class-level `__instances__` table that `GlobalContext` and
      `LocalContext` share. */
  class ContextTable {
    var instances: map<string, GlobalContext>

    /** Each instance is filed under its own key. */
    ghost predicate Valid()
      reads this
    {
      forall k :: k in instances ==> instances[k].key == k
    }

    constructor ()
      ensures Valid() && instances == map[]
    {
      instances := map[];
    }

    /** `GlobalContext(key, default)`: the instance already filed under the
        key, untouched and with the new default ignored, or else a fresh
        unset instance that is filed under it. */
    method New(key: string, default: Slot) returns (c: GlobalContext)
      requires Valid()
      modifies this
      ensures Valid()
      ensures c.key == key
      ensures key in old(instances) ==> c == old(instances[key]) && instances == old(instances)
      ensures key !in old(instances) ==> fresh(c) && !c.local && c.default == default && c.value == Undefined
      ensures instances == old(instances)[key := c]
    {
      c := Create(key, false, default);
    }

    /** `LocalContext(key, default)` called from module `moduleName`: the same
        table under the key `moduleName:key`. */
    method NewLocal(moduleName: string, key: string, default: Slot) returns (c: GlobalContext)
      requires Valid()
      modifies this
      ensures Valid()
      ensures c.key == LocalKey(moduleName, key)
      ensures LocalKey(moduleName, key) in old(instances) ==> c == old(instances[LocalKey(moduleName, key)]) && instances == old(instances)
      ensures LocalKey(moduleName, key) !in old(instances) ==> fresh(c) && c.local && c.default == default && c.value == Undefined
      ensures instances == old(instances)[LocalKey(moduleName, key) := c]
    {
      c := Create(LocalKey(moduleName, key), true, default);
    }

    /** The shared body of `__new__`. */
    method Create(key: string, local: bool, default: Slot) returns (c: GlobalContext)
      requires Valid()
      modifies this
      ensures Valid()
      ensures c.key == key
      ensures key in old(instances) ==> c == old(instances[key]) && instances == old(instances)
      ensures key !in old(instances) ==> fresh(c) && c.local == local && c.default == default && c.value == Undefined
      ensures instances == old(instances)[key := c]
    {
      if key in instances {
        c := instances[key];
      } else {
        c := new GlobalContext(key, local, default);
        instances := instances[key := c];
      }
    }
  }

  /** The key `LocalContext` files an instance under. `moduleName` stands for
      the string `utilities.get_source_module_name()` returns: the stem of a
      file name taken from a stack frame, not a dotted module path. */
  function LocalKey(moduleName: string, key: string): (r: string)
    ensures |r| == |moduleName| + 1 + |key| && r[|moduleName|] == ':'
    ensures r[..|moduleName|] == moduleName && r[|moduleName| + 1..] == key
  {
    moduleName + ":" + key
  }

  /** The position of the first ':' in `s`, or |s| when there is none. */
  function ColonIndex(s: string): (n: nat)
    ensures n <= |s|
  {
    if s == [] then 0 else if s[0] == ':' then 0 else 1 + ColonIndex(s[1..])
  }

  /** In a local key the first ':' is the one after the module name. */
  lemma {:induction false} ColonIndexOfLocalKey(moduleName: string, key: string)
    requires ':' !in moduleName
    ensures ColonIndex(LocalKey(moduleName, key)) == |moduleName|
    decreases |moduleName|
  {
    if moduleName != [] {
      assert LocalKey(moduleName, key)[1..] == LocalKey(moduleName[1..], key);
      assert ':' !in moduleName[1..] by {
        forall i | 0 <= i < |moduleName| - 1 ensures moduleName[1..][i] != ':' {
          assert moduleName[1..][i] == moduleName[i + 1];
        }
      }
      ColonIndexOfLocalKey(moduleName[1..], key);
    }
  }

  /** For module-name strings without ':', a local key determines both the
      module-name string and the name: distinct module-name strings give
      distinct keys for the same name, and distinct names in one module give
      distinct keys. Callers whose module-name strings are equal share an
      instance, and a GlobalContext key of the form `m:k` is shared with the
      matching local one. */
  lemma LocalKeyInjective(m1: string, k1: string, m2: string, k2: string)
    requires ':' !in m1 && ':' !in m2
    requires LocalKey(m1, k1) == LocalKey(m2, k2)
    ensures m1 == m2 && k1 == k2
  {
    ColonIndexOfLocalKey(m1, k1);
    ColonIndexOfLocalKey(m2, k2);
  }
}
