/** `useLocalStorage`: an in-memory value bound to one entry of the browser's
    key-value store. The value is read from the entry once, when the hook is
    created, and every set writes memory first and the entry second. */
module Persistence {
  import opened Wrappers

  /** What `JSON.parse` makes of the text held in a storage entry: the empty
      text (which the hook treats as missing), the encoding of a value, or text
      that does not parse. */
  datatype Item<T> = Blank | Encoded(value: T) | Malformed

  /** The value the hook starts with. `hasBackend` is false where no
      `window` exists; `entry` is the entry under the hook's key, `None` when
      `getItem` finds nothing. The entry's value is used when there is one;
      a missing, empty or unparsable entry, or no backend, gives `initial`. */
  function Load<T>(hasBackend: bool, entry: Option<Item<T>>, initial: T): (r: T)
    ensures r == initial || (hasBackend && entry == Some(Encoded(r)))
    ensures hasBackend && entry.Some? && entry.value.Encoded? ==> r == entry.value.value
  {
    match entry
    case Some(Encoded(v)) => if hasBackend then v else initial
    case _ => initial
  }

  /** The entry after `setItem(key, JSON.stringify(v))`: the encoding of `v`
      when there is a backend and the write succeeds, else the entry as it was
      (a failed write is caught and logged, and nothing is rolled back). */
  function Written<T>(hasBackend: bool, writeOk: bool, prior: Option<Item<T>>, v: T): Option<Item<T>>
  {
    if hasBackend && writeOk then Some(Encoded(v)) else prior
  }

  /** The state of one `useLocalStorage(key, initialValue)` hook together with
      the storage entry it owns. */
  class PersistentState<T> {
    const key: string
    const hasBackend: bool
    /** `storedValue`: what the component sees. */
    var value: T
    /** The durable entry under `key`; without a backend it is never read or
        written. */
    var entry: Option<Item<T>>

    /** The lazy initialiser of `useState`: read the entry once. */
    constructor (key: string, initial: T, hasBackend: bool, entry: Option<Item<T>>)
      ensures this.key == key && this.hasBackend == hasBackend && this.entry == entry
      ensures value == Load(hasBackend, entry, initial)
    {
      this.key := key;
      this.hasBackend := hasBackend;
      this.entry := entry;
      value := Load(hasBackend, entry, initial);
    }

    /** `setValue(v)`: memory takes `v` whatever happens to the write; a
        successful write leaves the entry holding exactly `v`. */
    method Set(v: T, writeOk: bool)
      modifies this
      ensures value == v
      ensures entry == Written(hasBackend, writeOk, old(entry), v)
    {
      value := v;
      if hasBackend && writeOk {
        entry := Some(Encoded(v));
      }
    }

    /** `setValue(f)`: as `Set(f(value))`. */
    method Update(f: T -> T, writeOk: bool)
      modifies this
      ensures value == f(old(value))
      ensures entry == Written(hasBackend, writeOk, old(entry), value)
    {
      Set(f(value), writeOk);
    }
  }

  /** Reading back what a successful set wrote gives the value that was set,
      and that value is what memory holds. */
  lemma ReloadAfterSet<T>(hasBackend: bool, prior: Option<Item<T>>, v: T, initial: T)
    requires hasBackend
    ensures Load(hasBackend, Written(hasBackend, true, prior, v), initial) == v
  {
  }
}
