/** `window.localStorage` as the slices use it: string entries by key. The `user` entry
    holds `JSON.stringify(user)` and is read back with `JSON.parse`; it is kept here as
    the user it encodes. */
module Storage {
  import opened Results
  import opened Types

  const AccessTokenKey := "accessToken"
  const RefreshTokenKey := "refreshToken"
  const ThemeKey := "theme"

  datatype LocalStorage = LocalStorage(entries: map<string, string>, user: Option<User>)

  const EmptyStorage := LocalStorage(map[], None)

  /** `getItem`: null for a missing key. */
  function Get(st: LocalStorage, key: string): (r: Option<string>)
    ensures r.Some? <==> key in st.entries
    ensures r.Some? ==> r.value == st.entries[key]
  {
    if key in st.entries then Some(st.entries[key]) else None
  }

  /** `setItem`. */
  function Put(st: LocalStorage, key: string, value: string): (r: LocalStorage)
    ensures Get(r, key) == Some(value)
    ensures forall k :: k != key ==> Get(r, k) == Get(st, k)
    ensures r.user == st.user
  {
    st.(entries := st.entries[key := value])
  }

  /** `removeItem`. */
  function Delete(st: LocalStorage, key: string): (r: LocalStorage)
    ensures Get(r, key).None?
    ensures forall k :: k != key ==> Get(r, k) == Get(st, k)
    ensures r.user == st.user
  {
    st.(entries := st.entries - {key})
  }

  /** `setItem('user', JSON.stringify(user))`. */
  function PutUser(st: LocalStorage, u: User): (r: LocalStorage)
    ensures r.user == Some(u)
    ensures r.entries == st.entries
  {
    st.(user := Some(u))
  }

  /** `removeItem('user')`. */
  function DeleteUser(st: LocalStorage): (r: LocalStorage)
    ensures r.user.None?
    ensures r.entries == st.entries
  {
    st.(user := None)
  }
}
