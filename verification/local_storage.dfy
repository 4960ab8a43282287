/**
  Durable client storage (`localStorage`): a map from keys to strings, and the
  two keys under which the session is mirrored.
 */
module LocalStorage {
  import opened Common

  type Storage = map<string, string>

  const TokenKey := "token"
  const UserInfoKey := "userInfo"

  /** `getItem`: the stored string, or absent. */
  function GetItem(s: Storage, key: string): (r: Option<string>)
    ensures r.Some? <==> key in s
    ensures r.Some? ==> r.value == s[key]
  {
    if key in s then Some(s[key]) else None
  }

  /** `setItem`: stores `value` under `key` and leaves every other key alone. */
  function SetItem(s: Storage, key: string, value: string): (r: Storage)
    ensures r.Keys == s.Keys + {key}
    ensures GetItem(r, key) == Some(value)
    ensures forall k :: k != key ==> GetItem(r, k) == GetItem(s, k)
  {
    s[key := value]
  }

  /** `removeItem`: drops `key` and leaves every other key alone. */
  function RemoveItem(s: Storage, key: string): (r: Storage)
    ensures r.Keys == s.Keys - {key}
    ensures GetItem(r, key) == None
    ensures forall k :: k != key ==> GetItem(r, k) == GetItem(s, k)
  {
    s - {key}
  }

  /**
    The stored token as JavaScript's truthiness sees it: a missing key and an
    empty string both read as `''`, which is falsy.
   */
  function StoredToken(s: Storage): (t: string)
    ensures t != "" <==> TokenKey in s && s[TokenKey] != ""
    ensures t != "" ==> GetItem(s, TokenKey) == Some(t)
  {
    GetItem(s, TokenKey).GetOr("")
  }
}
