/**
 * The `useLocalStorage` hook: an in-memory mirror of one key of the
 * browser's string-to-string local storage, with JSON encoding, a default
 * value, write-through on set and cross-context `storage` events.
 */
module LocalStorage {
  import opened Wrappers

  /** The contents of the per-origin local storage. */
  type Store = map<string, string>

  /**
   * What one use of the hook is bound to: the key, the default value and
   * the JSON encoding (`JSON.stringify`, and `JSON.parse`, which may throw).
   */
  datatype Config<!T> = Config(
    key: string,
    initial: T,
    serialize: T -> string,
    parse: string -> Option<T>)

  /** The argument of the setter: a value, or a function of the current value. */
  datatype Update<!T> = Literal(value: T) | Updater(f: T -> T)

  /** Which storage area a `storage` event is about. */
  datatype StorageArea = LocalArea | SessionArea

  /**
   * A `storage` event: `key` is None when the other context cleared the
   * whole area, `newValue` is None when the key was removed.
   */
  datatype StorageEvent = StorageEvent(key: Option<string>, newValue: Option<string>, area: StorageArea)

  /** How a stored string reads: nothing usable, a parsed value, or unparseable text. */
  datatype Reading<T> = Absent | Parsed(value: T) | Malformed

  /** `getItem`: null for a key that is not stored. */
  function GetItem(m: Store, key: string): Option<string>
  {
    if key in m then Some(m[key]) else None
  }

  /** The `item ? JSON.parse(item) : …` shared by the read and the event handler; the empty string is falsy. */
  function Interpret<T>(item: Option<string>, parse: string -> Option<T>): (r: Reading<T>)
    ensures r.Absent? <==> item.None? || item.value == ""
    ensures r.Malformed? <==> item.Some? && item.value != "" && parse(item.value).None?
    ensures r.Parsed? ==> item.Some? && parse(item.value) == Some(r.value)
  {
    match item
    case None => Absent
    case Some(s) =>
      if s == "" then Absent
      else match parse(s)
        case Some(v) => Parsed(v)
        case None => Malformed
  }

  /** `readValue`: the stored value when the store is there and holds parseable text, the default otherwise. */
  function ReadValue<T>(store: Option<Store>, c: Config<T>): (r: T)
    ensures r == c.initial || (store.Some? && c.key in store.value && c.parse(store.value[c.key]) == Some(r))
    ensures store.Some? && c.key in store.value && store.value[c.key] != "" && c.parse(store.value[c.key]).Some?
      ==> Some(r) == c.parse(store.value[c.key])
    ensures store.None? || c.key !in store.value || store.value[c.key] == "" || c.parse(store.value[c.key]).None?
      ==> r == c.initial
  {
    match store
    case None => c.initial
    case Some(m) =>
      match Interpret(GetItem(m, c.key), c.parse)
      case Parsed(v) => v
      case _ => c.initial
  }

  /** The value the mirror takes when `handleStorageChange` receives `ev`. */
  function HandledValue<T>(mirror: T, ev: StorageEvent, c: Config<T>): (r: T)
    ensures ev.key != Some(c.key) || ev.area != LocalArea ==> r == mirror
    ensures ev.key == Some(c.key) && ev.area == LocalArea && (ev.newValue.None? || ev.newValue.value == "") ==>
      r == c.initial
    ensures ev.key == Some(c.key) && ev.area == LocalArea && ev.newValue.Some? && ev.newValue.value != "" ==>
      Some(r) == c.parse(ev.newValue.value) || (c.parse(ev.newValue.value).None? && r == mirror)
  {
    if ev.key == Some(c.key) && ev.area == LocalArea then
      match Interpret(ev.newValue, c.parse)
      case Absent => c.initial
      case Parsed(v) => v
      case Malformed => mirror
    else
      mirror
  }

  /** The local storage after the change that another context made and `ev` reports. */
  function ChangedStore(m: Store, ev: StorageEvent): Store
  {
    if ev.area == SessionArea then m
    else match (ev.key, ev.newValue)
      case (None, _) => map[]
      case (Some(k), None) => m - {k}
      case (Some(k), Some(v)) => m[k := v]
  }

  /** A value the codec writes and reads back is what a fresh read finds after it is stored. */
  lemma RoundTrip<T>(m: Store, c: Config<T>, v: T)
    requires c.serialize(v) != "" && c.parse(c.serialize(v)) == Some(v)
    ensures ReadValue(Some(m[c.key := c.serialize(v)]), c) == v
  {
  }

  /**
   * After an event for this key whose payload parses or is empty, the mirror
   * agrees with what a fresh read of the changed store gives.
   */
  lemma EventConverges<T>(m: Store, mirror: T, ev: StorageEvent, c: Config<T>)
    requires ev.key == Some(c.key) && ev.area == LocalArea
    requires !Interpret(ev.newValue, c.parse).Malformed?
    ensures HandledValue(mirror, ev, c) == ReadValue(Some(ChangedStore(m, ev)), c)
  {
  }

  /** A malformed payload keeps the mirror, while a fresh read of the store falls back to the default. */
  lemma MalformedEventDiverges<T>(m: Store, mirror: T, ev: StorageEvent, c: Config<T>)
    requires ev.key == Some(c.key) && ev.area == LocalArea
    requires Interpret(ev.newValue, c.parse).Malformed?
    ensures HandledValue(mirror, ev, c) == mirror
    ensures ReadValue(Some(ChangedStore(m, ev)), c) == c.initial
  {
  }

  /** A cleared area (event key null) is not followed by the mirror, though the key is gone from the store. */
  lemma AreaClearIgnored<T>(m: Store, mirror: T, ev: StorageEvent, c: Config<T>)
    requires ev.key.None? && ev.area == LocalArea
    ensures HandledValue(mirror, ev, c) == mirror
    ensures ReadValue(Some(ChangedStore(m, ev)), c) == c.initial
  {
  }

  /** The state behind one call of the hook. */
  class Cache<T> {
    const cfg: Config<T>
    /** The local storage, or None where there is no `window.localStorage`. */
    var store: Option<Store>
    /** `storedValue`, the React state that mirrors the key. */
    var mirror: T

    /** The first render: `useState(readValue)`. */
    constructor (c: Config<T>, s: Option<Store>)
      ensures cfg == c && store == s
      ensures mirror == ReadValue(s, c)
    {
      cfg := c;
      store := s;
      mirror := ReadValue(s, c);
    }

    /** The mount effect: read the store once more into the mirror. */
    method Mount()
      modifies this
      ensures store == old(store)
      ensures mirror == ReadValue(store, cfg)
    {
      mirror := ReadValue(store, cfg);
    }

    /**
     * `setValue`: the mirror takes the new value first; then, when the store
     * is there, `setItem` writes its encoding, unless the store refuses the
     * write (`accepted` false: quota exceeded or an encoding error), which is
     * swallowed without undoing the mirror.
     */
    method Set(u: Update<T>, accepted: bool)
      modifies this
      ensures u.Literal? ==> mirror == u.value
      ensures u.Updater? ==> mirror == u.f(old(mirror))
      ensures old(store).None? || !accepted ==> store == old(store)
      ensures old(store).Some? && accepted ==> store == Some(old(store).value[cfg.key := cfg.serialize(mirror)])
    {
      var valueToStore := match u case Literal(v) => v case Updater(f) => f(mirror);
      mirror := valueToStore;
      if store.Some? && accepted {
        store := Some(store.value[cfg.key := cfg.serialize(valueToStore)]);
      }
    }

    /**
     * Another context changes the shared local storage and this context's
     * `handleStorageChange` runs; without a store no listener is registered.
     */
    method OnStorageEvent(ev: StorageEvent)
      modifies this
      ensures old(store).None? ==> store == old(store) && mirror == old(mirror)
      ensures old(store).Some? ==> store == Some(ChangedStore(old(store).value, ev))
      ensures old(store).Some? ==> mirror == HandledValue(old(mirror), ev, cfg)
    {
      if store.None? {
        return;
      }
      store := Some(ChangedStore(store.value, ev));
      mirror := HandledValue(mirror, ev, cfg);
    }
  }

  /** Write a value, then reload: a fresh hook on the same store and key starts from that value. */
  method PersistThenReload<T>(c: Config<T>, m: Store, v: T) returns (reloaded: T)
    requires c.serialize(v) != "" && c.parse(c.serialize(v)) == Some(v)
    ensures reloaded == v
  {
    var cache := new Cache(c, Some(m));
    cache.Set(Literal(v), true);
    RoundTrip(m, c, v);
    var reopened := new Cache(c, cache.store);
    reloaded := reopened.mirror;
  }
}
