/** The browser's cookie jar as the server handlers see it: a map from cookie
    name to value. The two session cookies are always read and written
    together. */
module Cookies {
  import opened Optional

  const AccessTokenCookie: string := "instagram_access_token"
  const UserIdCookie: string := "instagram_user_id"

  type CookieStore = map<string, string>

  datatype SameSite = Lax | Strict | NoRestriction

  /** The options passed to `cookieStore.set`. */
  datatype CookieOptions = CookieOptions(
    httpOnly: bool,
    secure: bool,
    sameSite: SameSite,
    maxAge: int,
    path: string)

  /** One `cookieStore.set(name, value, options)` call. */
  datatype CookieWrite = CookieWrite(name: string, value: string, options: CookieOptions)

  /** The gate of the media and profile handlers: both session cookies are
      present. Presence is enough; an empty value passes. */
  predicate HasSessionCookies(store: CookieStore) {
    UserIdCookie in store && AccessTokenCookie in store
  }

  /** `cookies.get(name)?.value`. */
  function Get(store: CookieStore, name: string): Option<string> {
    if name in store then Some(store[name]) else None
  }

  /** Some write in the list names `name`. */
  predicate Written(writes: seq<CookieWrite>, name: string) {
    exists j :: 0 <= j < |writes| && writes[j].name == name
  }

  /** No write after position `i` names the cookie written at `i`. */
  predicate LastWrite(writes: seq<CookieWrite>, i: int)
    requires 0 <= i < |writes|
  {
    forall j :: i < j < |writes| ==> writes[j].name != writes[i].name
  }

  /** The jar after the given writes, applied in order: every written name
      holds the value of its last write, and every cookie no write names
      keeps its value. */
  function ApplyWrites(store: CookieStore, writes: seq<CookieWrite>): (r: CookieStore)
    ensures r.Keys == store.Keys + set w | w in writes :: w.name
    ensures forall i :: 0 <= i < |writes| && LastWrite(writes, i) ==> r[writes[i].name] == writes[i].value
    ensures forall k :: k in store && !Written(writes, k) ==> r[k] == store[k]
    decreases |writes|
  {
    if writes == [] then store
    else
      var rest := ApplyWrites(store[writes[0].name := writes[0].value], writes[1..]);
      forall i | 0 <= i < |writes| && LastWrite(writes, i)
        ensures rest[writes[i].name] == writes[i].value
      {
        if i > 0 {
          assert writes[1..][i - 1] == writes[i];
          assert LastWrite(writes[1..], i - 1);
        } else {
          assert !Written(writes[1..], writes[0].name);
        }
      }
      forall k | k in store && !Written(writes, k)
        ensures rest[k] == store[k]
      {
        WrittenInTail(writes, k);
      }
      rest
  }

  /** A name written in the tail of a list is written in the list. */
  lemma WrittenInTail(writes: seq<CookieWrite>, name: string)
    requires writes != []
    ensures Written(writes[1..], name) ==> Written(writes, name)
  {
    if Written(writes[1..], name) {
      var j :| 0 <= j < |writes[1..]| && writes[1..][j].name == name;
      assert writes[j + 1].name == name;
    }
  }

  /** `cookieStore.delete(name)`. */
  function Delete(store: CookieStore, name: string): (r: CookieStore)
    ensures name !in r
    ensures forall k :: k in store && k != name ==> k in r && r[k] == store[k]
    ensures r.Keys == store.Keys - {name}
  {
    store - {name}
  }
}
