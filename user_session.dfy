/**
  * The session store (frontend/contexts/user-context.tsx): the current user and
  * a loading flag, mirrored into the browser's key/value storage under one
  * fixed key. JSON encoding and decoding are functions the store is given.
  */
module UserSession {
  import opened Wrappers
  import opened Domain

  /** The one storage key the store reads and writes. */
  const StorageKey: string := "expense_tracker_user"

  /** `localStorage`: string values under string keys. */
  class KeyValueStore {
    var entries: map<string, string>

    constructor(initial: map<string, string>)
      ensures entries == initial
    {
      entries := initial;
    }

    /** `getItem`: the value under `key`, or `null`. */
    method GetItem(key: string) returns (value: Option<string>)
      ensures key in entries ==> value == Some(entries[key])
      ensures key !in entries ==> value == None
    {
      value := if key in entries then Some(entries[key]) else None;
    }

    /** `setItem`. */
    method SetItem(key: string, value: string)
      modifies this
      ensures entries == old(entries)[key := value]
    {
      entries := entries[key := value];
    }

    /** `removeItem`. */
    method RemoveItem(key: string)
      modifies this
      ensures entries == old(entries) - {key}
    {
      entries := entries - {key};
    }
  }

  /** What `JSON.parse` makes of a stored string: it throws, or gives a value
      (`null` or a user). */
  datatype ParseResult = Malformed | Parsed(value: Option<User>)

  /** The provider's state: `user`, `isLoading`, and the storage it mirrors into. */
  class UserProvider {
    var user: Option<User>
    var isLoading: bool
    const storage: KeyValueStore

    /** Storage holds the serialised user exactly when there is one. */
    ghost predicate Mirrored(serialize: User -> string)
      reads this, storage
    {
      match user
      case None => StorageKey !in storage.entries
      case Some(u) => StorageKey in storage.entries && storage.entries[StorageKey] == serialize(u)
    }

    /** The first render: no user yet, and loading. */
    constructor(storage: KeyValueStore)
      ensures this.storage == storage
      ensures user == None && isLoading
    {
      this.storage := storage;
      user := None;
      isLoading := true;
    }

    /** The mount effect. A stored string that is empty is skipped; one that parses
      becomes the user; one that does not is removed and the user stays as it was.
      Loading ends in every case, and no other storage entry changes. */
    method Hydrate(parse: string -> ParseResult)
      modifies this, storage
      ensures !isLoading
      ensures StorageKey !in old(storage.entries) || old(storage.entries)[StorageKey] == "" ==>
        user == old(user) && storage.entries == old(storage.entries)
      ensures StorageKey in old(storage.entries) && old(storage.entries)[StorageKey] != "" ==>
        var stored := old(storage.entries)[StorageKey];
        && (parse(stored).Parsed? ==> user == parse(stored).value && storage.entries == old(storage.entries))
        && (parse(stored).Malformed? ==> user == old(user) && storage.entries == old(storage.entries) - {StorageKey})
    {
      var storedUser := storage.GetItem(StorageKey);
      if storedUser.Some? && storedUser.value != "" {
        match parse(storedUser.value)
        case Parsed(u) =>
          user := u;
        case Malformed =>
          storage.RemoveItem(StorageKey);
      }
      isLoading := false;
    }

    /** `setUser`: the new user, and storage made to mirror it; nothing else in storage
      changes and loading is untouched. */
    method SetUser(newUser: Option<User>, serialize: User -> string)
      modifies this, storage
      ensures user == newUser && isLoading == old(isLoading)
      ensures newUser.Some? ==> storage.entries == old(storage.entries)[StorageKey := serialize(newUser.value)]
      ensures newUser.None? ==> storage.entries == old(storage.entries) - {StorageKey}
      ensures Mirrored(serialize)
    {
      user := newUser;
      if newUser.Some? {
        storage.SetItem(StorageKey, serialize(newUser.value));
      } else {
        storage.RemoveItem(StorageKey);
      }
    }
  }

  /** A session survives a reload: after `setUser(u)`, a new provider over the same
      storage hydrates to `u`, provided parsing undoes serialising and the serialised
      form is not empty (JSON text never is). Other storage entries are kept. */
  method SessionSurvivesReload(
    initial: map<string, string>, u: User,
    serialize: User -> string, parse: string -> ParseResult)
    returns (restored: Option<User>, loading: bool, otherEntries: map<string, string>)
    requires serialize(u) != "" && parse(serialize(u)) == Parsed(Some(u))
    ensures restored == Some(u) && !loading
    ensures otherEntries == initial - {StorageKey}
  {
    var storage := new KeyValueStore(initial);
    var before := new UserProvider(storage);
    before.SetUser(Some(u), serialize);
    var after := new UserProvider(storage);
    after.Hydrate(parse);
    restored, loading := after.user, after.isLoading;
    otherEntries := storage.entries - {StorageKey};
  }

  /** A malformed stored session is dropped on load: no user, the key removed, and
      loading finished. */
  method MalformedSessionIsDropped(initial: map<string, string>, parse: string -> ParseResult)
    returns (restored: Option<User>, loading: bool, keyKept: bool, otherEntries: map<string, string>)
    requires StorageKey in initial && initial[StorageKey] != "" && parse(initial[StorageKey]) == Malformed
    ensures restored == None && !loading && !keyKept
    ensures otherEntries == initial - {StorageKey}
  {
    var storage := new KeyValueStore(initial);
    var provider := new UserProvider(storage);
    provider.Hydrate(parse);
    restored, loading := provider.user, provider.isLoading;
    keyKept := StorageKey in storage.entries;
    otherEntries := storage.entries - {StorageKey};
  }
}
