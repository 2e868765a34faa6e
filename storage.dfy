/** The process-wide key/value store (`UserDefaults.standard`) and the two
    `@AppStorage` views over it that the login flow and the training screen bind to. */
module Storage {
  import opened Wrappers

  /** The two keys the app stores: an access token and a signed-in flag. */
  datatype StorageKey = AccessTokenKey | IsAuthenticatedKey

  datatype Stored = Text(text: string) | Flag(flag: bool)

  class UserDefaults {
    var values: map<StorageKey, Stored>

    constructor ()
      ensures values == map[]
    {
      values := map[];
    }

    /** `string(forKey:)`: the stored string, `nil` when the key is absent or holds a flag. */
    function StringFor(key: StorageKey): (r: Option<string>)
      reads this
      ensures r.Some? <==> key in values && values[key].Text?
      ensures r.Some? ==> values[key] == Text(r.value)
    {
      if key in values && values[key].Text? then Some(values[key].text) else None
    }

    /** `@AppStorage(accessToken) var accessToken = ""`: the stored token, `""` by default. */
    function AccessToken(): (token: string)
      reads this
      ensures StringFor(AccessTokenKey).Some? ==> token == StringFor(AccessTokenKey).value
      ensures StringFor(AccessTokenKey).None? ==> token == ""
    {
      match StringFor(AccessTokenKey)
      case Some(t) => t
      case None => ""
    }

    /** `@AppStorage(isAuthenticated) var isAuthenticated = false`. */
    function IsAuthenticated(): (b: bool)
      reads this
      ensures b <==> IsAuthenticatedKey in values && values[IsAuthenticatedKey] == Flag(true)
    {
      IsAuthenticatedKey in values && values[IsAuthenticatedKey].Flag? && values[IsAuthenticatedKey].flag
    }

    /** `set(_:forKey:)`, also what assigning an `@AppStorage` property does. */
    method Set(key: StorageKey, value: Stored)
      modifies this
      ensures values == old(values)[key := value]
    {
      values := values[key := value];
    }

    /** `removeObject(forKey:)`. */
    method Remove(key: StorageKey)
      modifies this
      ensures values == old(values) - {key}
    {
      values := values - {key};
    }
  }
}
