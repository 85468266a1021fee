/** `src/hooks/usePersistedState.ts`: a piece of state mirrored under one
    `localStorage` key. The state is `Option<V>`, `None` standing for `null`
    or `undefined`; `serialize` and `deserialize` are the hook's parameters,
    and `deserialize` reports a throw as `Malformed`. */
module PersistedState {
  import opened Wrappers
  import opened WebStorage

  /** What `deserialize` does with a stored text: throws, or returns a value
      (which may itself be `null`). */
  datatype Decoded<V> = Malformed | Decoded(value: Option<V>)

  /** The lazy initialiser of `useState`: the stored value when there is one
      and it deserialises, `initial` otherwise. */
  function InitialValue<V>(items: map<string, string>, key: string, initial: Option<V>,
                           deserialize: string -> Decoded<V>): (r: Option<V>)
    ensures key !in items ==> r == initial
    ensures key in items && deserialize(items[key]).Malformed? ==> r == initial
    ensures key in items && deserialize(items[key]).Decoded? ==> r == deserialize(items[key]).value
  {
    if key !in items then initial
    else match deserialize(items[key])
      case Decoded(v) => v
      case Malformed => initial
  }

  /** The effect on `[key, state, serialize]`: null or undefined removes the
      key, anything else is stored serialised; no other key is touched. */
  function WriteBack<V>(items: map<string, string>, key: string, state: Option<V>,
                        serialize: V -> string): (r: map<string, string>)
    ensures state.None? ==> key !in r
    ensures state.Some? ==> key in r && r[key] == serialize(state.value)
    ensures r - {key} == items - {key}
  {
    match state
    case None => items - {key}
    case Some(v) => items[key := serialize(v)]
  }

  /** After the effect has run, a fresh mount reads the same state back, as
      long as the pair round-trips; a null state is not stored, so it comes
      back as the new mount's `initial`. */
  lemma RemountRestores<V>(items: map<string, string>, key: string, state: Option<V>, initial: Option<V>,
                           serialize: V -> string, deserialize: string -> Decoded<V>)
    requires forall v :: deserialize(serialize(v)) == Decoded(Some(v))
    ensures InitialValue(WriteBack(items, key, state, serialize), key, initial, deserialize)
            == if state.None? then initial else state
  {
    if state.Some? {
      assert deserialize(serialize(state.value)) == Decoded(Some(state.value));
    }
  }

  /** Two hooks on different keys do not disturb each other's stored entry. */
  lemma KeysAreIsolated<V, W>(items: map<string, string>, key: string, other: string, state: Option<V>,
                              serialize: V -> string, initial: Option<W>, deserialize: string -> Decoded<W>)
    requires key != other
    ensures InitialValue(WriteBack(items, key, state, serialize), other, initial, deserialize)
            == InitialValue(items, other, initial, deserialize)
  {
    var after := WriteBack(items, key, state, serialize);
    assert other in after <==> other in items;
    assert other in items ==> after[other] == items[other];
  }

  /** One `usePersistedState(key, initialValue, serialize, deserialize)` call. */
  class PersistedState<V> {
    var state: Option<V>
    const key: string
    const serialize: V -> string

    /** Mount: the initialiser picks the state, then the effect writes it back. */
    constructor (ls: LocalStorage, key: string, initial: Option<V>,
                 serialize: V -> string, deserialize: string -> Decoded<V>)
      modifies ls
      ensures this.key == key && this.serialize == serialize
      ensures state == InitialValue(old(ls.items), key, initial, deserialize)
      ensures ls.items == WriteBack(old(ls.items), key, state, serialize)
    {
      this.key := key;
      this.serialize := serialize;
      var persisted := ls.GetItem(key);
      var chosen := initial;
      if persisted.Some? {
        match deserialize(persisted.value) {
          case Decoded(v) => chosen := v;
          case Malformed =>
        }
      }
      state := chosen;
      new;
      Persist(ls);
    }

    /** The write-back effect. */
    method Persist(ls: LocalStorage)
      modifies ls
      ensures ls.items == WriteBack(old(ls.items), key, state, serialize)
    {
      if state.None? {
        ls.RemoveItem(key);
      } else {
        ls.SetItem(key, serialize(state.value));
      }
    }

    /** `setState`, followed by the effect it triggers. */
    method SetState(ls: LocalStorage, value: Option<V>)
      modifies this, ls
      ensures state == value
      ensures ls.items == WriteBack(old(ls.items), key, value, serialize)
    {
      state := value;
      Persist(ls);
    }
  }
}
