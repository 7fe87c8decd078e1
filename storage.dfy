/** AsyncStorage, the app's persistent key-value store, as an object whose entries change.
    Whether the platform store fails is not visible to the app; here it is the `faulty`
    flag: while it is set every call fails and nothing changes. */
module Storage {
  import opened Wrappers

  /** The key under which the session token is kept. */
  const TokenKey := "auth_token"
  /** The key under which the raw cookie string is kept. */
  const CookiesKey := "auth_cookies"

  datatype StorageError = StorageError

  /** The value stored under `key`, or `null`. */
  function Stored(entries: map<string, string>, key: string): (r: Option<string>)
    ensures r.Some? <==> key in entries
    ensures r.Some? ==> r.value == entries[key]
  {
    if key in entries then Some(entries[key]) else None
  }

  class AsyncStore {
    var entries: map<string, string>
    var faulty: bool

    constructor (entries: map<string, string>, faulty: bool)
      ensures this.entries == entries && this.faulty == faulty
    {
      this.entries := entries;
      this.faulty := faulty;
    }

    /** `getItem(key)`: the stored value or `null`; rejects when the store fails. */
    method GetItem(key: string) returns (r: Result<Option<string>, StorageError>)
      ensures faulty <==> r.Failure?
      ensures r.Success? ==> (r.value.Some? <==> key in entries)
      ensures r.Success? && key in entries ==> r.value.value == entries[key]
    {
      if faulty {
        r := Failure(StorageError);
      } else if key in entries {
        r := Success(Some(entries[key]));
      } else {
        r := Success(None);
      }
    }

    /** `setItem(key, value)`. */
    method SetItem(key: string, value: string) returns (r: Result<(), StorageError>)
      modifies this`entries
      ensures faulty <==> r.Failure?
      ensures entries == if faulty then old(entries) else old(entries)[key := value]
    {
      if faulty {
        r := Failure(StorageError);
      } else {
        entries := entries[key := value];
        r := Success(());
      }
    }

    /** `removeItem(key)`. */
    method RemoveItem(key: string) returns (r: Result<(), StorageError>)
      modifies this`entries
      ensures faulty <==> r.Failure?
      ensures entries == if faulty then old(entries) else old(entries) - {key}
    {
      if faulty {
        r := Failure(StorageError);
      } else {
        entries := entries - {key};
        r := Success(());
      }
    }
  }
}
