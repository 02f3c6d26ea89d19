/**
 * `useLocalStorage`: a state cell mirrored into `localStorage` under one key.
 * JSON serialisation is a pair of uninterpreted functions; `parse` yields
 * `None` where `JSON.parse` throws. Every storage failure is caught: reads fall
 * back to the initial value, and writes leave the state update in place.
 */
module UseLocalStorage {
  import opened Common
  import opened BrowserStorage

  datatype Codec<!T> = Codec(stringify: T -> string, parse: string -> Option<T>)

  /** The assumption about `JSON.parse(JSON.stringify(v))` under which the round trip holds. */
  ghost predicate RoundTrips<T(!new)>(codec: Codec<T>)
  {
    forall v :: codec.parse(codec.stringify(v)) == Some(v)
  }

  /**
   * The lazy initial state from what `getItem(key)` did: the parsed item when
   * one is stored and parses, and `initialValue` when the key is absent, the
   * item does not parse, or the storage threw.
   */
  function InitialState<T>(read: Result<Option<string>>, codec: Codec<T>, initialValue: T): (v: T)
    ensures v == initialValue || (read.Ok? && read.value.Some? && codec.parse(read.value.value) == Some(v))
    ensures read.Ok? && read.value.Some? && codec.parse(read.value.value).Some? ==> v == codec.parse(read.value.value).value
  {
    match read
    case Threw => initialValue
    case Ok(None) => initialValue
    case Ok(Some(item)) =>
      match codec.parse(item)
      case None => initialValue
      case Some(parsed) => parsed
  }

  /** A later initial read of the key returns the value last written, given that parsing undoes serialising. */
  lemma ReadAfterWrite<T(!new)>(items: map<string, string>, failing: set<StorageOp>, key: string, codec: Codec<T>, v: T, initialValue: T)
    requires RoundTrips(codec) && GetOp !in failing
    ensures InitialState(Lookup(items[key := codec.stringify(v)], failing, key), codec, initialValue) == v
  {
    assert codec.parse(codec.stringify(v)) == Some(v);
  }

  /** One `useLocalStorage(key, initialValue)` instance. */
  class LocalStorageState<T> {
    const key: string
    const initialValue: T
    const codec: Codec<T>
    /** `window.localStorage`; `null` when `window` is undefined. */
    const storage: LocalStorage?
    var storedValue: T

    /** The first render, which runs the lazy initial read. */
    constructor (key: string, initialValue: T, codec: Codec<T>, storage: LocalStorage?)
      ensures this.key == key && this.initialValue == initialValue && this.codec == codec && this.storage == storage
      ensures storedValue == if storage == null then initialValue
                             else InitialState(Lookup(storage.items, storage.failing, key), codec, initialValue)
    {
      var initial := initialValue;
      if storage != null {
        var item := storage.GetItem(key);
        initial := InitialState(item, codec, initialValue);
      }
      this.key := key;
      this.initialValue := initialValue;
      this.codec := codec;
      this.storage := storage;
      storedValue := initial;
    }

    /** `setValue`: compute the next value (applying an updater to the previous one), try to store it, then keep it. */
    method SetValue(action: SetStateAction<T>)
      modifies this`storedValue, storage
      ensures storedValue == Apply(action, old(storedValue))
      ensures storage != null ==> storage.failing == old(storage.failing)
      ensures storage != null ==>
        storage.items == if SetOp in storage.failing then old(storage.items) else old(storage.items)[key := codec.stringify(storedValue)]
    {
      var valueToStore := Apply(action, storedValue);
      if storage != null {
        var _ := storage.SetItem(key, codec.stringify(valueToStore));
      }
      storedValue := valueToStore;
    }

    /** `removeValue`: try to delete the key, then reset the state to `initialValue`. */
    method RemoveValue()
      modifies this`storedValue, storage
      ensures storedValue == initialValue
      ensures storage != null ==> storage.failing == old(storage.failing)
      ensures storage != null ==>
        storage.items == if RemoveOp in storage.failing then old(storage.items) else old(storage.items) - {key}
    {
      if storage != null {
        var _ := storage.RemoveItem(key);
      }
      storedValue := initialValue;
    }
  }

  /** The initial value when nothing is stored; the stored value when it parses; the initial value when it does not. */
  method InitialReads<T(!new)>(key: string, codec: Codec<T>, initialValue: T, stored: T, garbage: string)
    returns (empty: T, present: T, invalid: T, noWindow: T, throwing: T)
    requires RoundTrips(codec) && codec.parse(garbage) == None
    ensures empty == initialValue && present == stored && invalid == initialValue
    ensures noWindow == initialValue && throwing == initialValue
  {
    var s1 := new LocalStorage(map[]);
    var h1 := new LocalStorageState(key, initialValue, codec, s1);
    var s2 := new LocalStorage(map[key := codec.stringify(stored)]);
    assert codec.parse(codec.stringify(stored)) == Some(stored);
    var h2 := new LocalStorageState(key, initialValue, codec, s2);
    var s3 := new LocalStorage(map[key := garbage]);
    var h3 := new LocalStorageState(key, initialValue, codec, s3);
    var h4 := new LocalStorageState(key, initialValue, codec, null);
    var s5 := new LocalStorage(map[key := codec.stringify(stored)], {GetOp});
    var h5 := new LocalStorageState(key, initialValue, codec, s5);
    empty, present, invalid, noWindow, throwing := h1.storedValue, h2.storedValue, h3.storedValue, h4.storedValue, h5.storedValue;
  }

  /** A value set is kept in state, written under the key, and read back by a later instance; other keys are untouched. */
  method SetThenRemount<T(!new)>(key: string, other: string, otherItem: string, codec: Codec<T>, initialValue: T, v: T)
    returns (state: T, item: Option<string>, untouched: Option<string>, later: T)
    requires RoundTrips(codec) && other != key
    ensures state == v && item == Some(codec.stringify(v)) && untouched == Some(otherItem)
    ensures later == v
  {
    var storage := new LocalStorage(map[other := otherItem]);
    var hook := new LocalStorageState(key, initialValue, codec, storage);
    hook.SetValue(Value(v));
    state := hook.storedValue;
    item := if key in storage.items then Some(storage.items[key]) else None;
    untouched := if other in storage.items then Some(storage.items[other]) else None;
    ReadAfterWrite(map[other := otherItem], {}, key, codec, v, initialValue);
    var again := new LocalStorageState(key, initialValue, codec, storage);
    later := again.storedValue;
  }

  /** An updater is applied to the previous state, and its result is what gets stored. */
  method UpdaterStoresResult(codec: Codec<int>) returns (state: int, item: Option<string>)
    ensures state == 1 && item == Some(codec.stringify(1))
  {
    var storage := new LocalStorage(map[]);
    var hook := new LocalStorageState("count", 0, codec, storage);
    hook.SetValue(Updater((prev: int) => prev + 1));
    state := hook.storedValue;
    item := if "count" in storage.items then Some(storage.items["count"]) else None;
  }

  /** When `setItem` throws, the state still updates and the storage keeps its old contents. */
  method FailingWriteStillUpdates<T>(key: string, codec: Codec<T>, initialValue: T, v: T) returns (state: T, items: map<string, string>)
    ensures state == v && items == map[]
  {
    var storage := new LocalStorage(map[], {SetOp});
    var hook := new LocalStorageState(key, initialValue, codec, storage);
    hook.SetValue(Value(v));
    state, items := hook.storedValue, storage.items;
  }

  /** `removeValue` deletes the key and resets the state to the initial value. */
  method RemoveResets<T>(key: string, codec: Codec<T>, initialValue: T, stored: T) returns (state: T, present: bool)
    ensures state == initialValue && !present
  {
    var storage := new LocalStorage(map[key := codec.stringify(stored)]);
    var hook := new LocalStorageState(key, initialValue, codec, storage);
    hook.RemoveValue();
    state, present := hook.storedValue, key in storage.items;
  }
}
