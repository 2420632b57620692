/** The string part of android.os.Bundle: a mutable map from keys to strings. */
module Bundles {
  import opened Wrappers

  /** `Bundle.getString(key)`: the value, or `null` when the key is absent. */
  function GetString(m: map<string, string>, key: string): Option<string>
  {
    if key in m then Some(m[key]) else None
  }

  /** A Bundle object; callers that keep a reference see every `PutString`. */
  class Bundle {
    var entries: map<string, string>

    constructor ()
      ensures entries == map[]
    {
      entries := map[];
    }

    /** `putString`: inserts or overwrites one key and leaves the others alone. */
    method PutString(key: string, value: string)
      modifies this
      ensures entries == old(entries)[key := value]
    {
      entries := entries[key := value];
    }
  }
}
