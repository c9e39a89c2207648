/**
 * The session store of src/utils/userStorage.js: two keys of the browser's
 * localStorage, one holding the user id as decimal text and one holding the
 * whole user record as JSON. Being logged in means the id key holds a value.
 */
module UserStorage {
  import opened Wrappers
  import opened Strings

  const UserIdKey := "ceremic_user_id"
  const UserDataKey := "ceremic_user_data"

  /** A user record as the backend returns it; `id` is absent when the backend sends none. */
  datatype UserRecord = UserRecord(id: Option<int>, username: string, phoneNumber: string,
                                   email: string, address: string, pincode: string)

  /**
   * A localStorage value. The id key holds text; the data key holds the JSON text of a
   * user record, which this model represents by the record itself.
   */
  datatype Stored = Text(text: string) | Json(record: UserRecord)

  /** `if (userData.id)`: an id that is present and not 0. */
  predicate HasTruthyId(u: UserRecord) {
    u.id.Some? && u.id.value != 0
  }

  /** What this module ever writes under its two keys. */
  ghost predicate WellFormed(items: map<string, Stored>) {
    && (UserIdKey in items ==> items[UserIdKey].Text? && IsIntString(items[UserIdKey].text))
    && (UserDataKey in items ==> items[UserDataKey].Json?)
  }

  /** Everything outside the two session keys. */
  function Others(items: map<string, Stored>): map<string, Stored> {
    items - {UserIdKey, UserDataKey}
  }

  class Store {
    /** The browser's localStorage. */
    var items: map<string, Stored>

    ghost predicate Valid()
      reads this
    {
      WellFormed(items)
    }

    /** The storage as a previous session of the page left it. */
    constructor (initial: map<string, Stored>)
      requires WellFormed(initial)
      ensures Valid() && items == initial
    {
      items := initial;
    }

    /** `getUserId`: the stored id, or `null` when the key is missing or empty. */
    function GetUserId(): (r: Option<int>)
      reads this
      requires Valid()
      ensures r.Some? <==> UserIdKey in items && items[UserIdKey].text != ""
    {
      if UserIdKey in items && items[UserIdKey].text != "" then Some(ParseInt(items[UserIdKey].text)) else None
    }

    /** `isUserLoggedIn`: the id key is present and not empty. */
    function IsUserLoggedIn(): (r: bool)
      reads this
      requires Valid()
      ensures r <==> UserIdKey in items && items[UserIdKey].text != ""
    {
      GetUserId() != None
    }

    /** `getUserData`: the last record saved, or `null`. */
    function GetUserData(): (r: Option<UserRecord>)
      reads this
      requires Valid()
      ensures r.Some? <==> UserDataKey in items
      ensures r.Some? ==> items[UserDataKey] == Json(r.value)
    {
      if UserDataKey in items then Some(items[UserDataKey].record) else None
    }

    /** `saveUserId`: writes the id's decimal text; reading it back gives the id. */
    method SaveUserId(userId: int)
      requires Valid()
      modifies this
      ensures Valid()
      ensures items == old(items)[UserIdKey := Text(IntToString(userId))]
      ensures GetUserId() == Some(userId) && IsUserLoggedIn()
      ensures GetUserData() == old(GetUserData())
      ensures Others(items) == Others(old(items))
    {
      IntToStringRoundTrip(userId);
      items := items[UserIdKey := Text(IntToString(userId))];
    }

    /** `saveUserData`: stores the record, and the id too when it is truthy. */
    method SaveUserData(u: UserRecord)
      requires Valid()
      modifies this
      ensures Valid()
      ensures GetUserData() == Some(u)
      ensures HasTruthyId(u) ==> GetUserId() == u.id && IsUserLoggedIn()
      ensures !HasTruthyId(u) ==>
                (UserIdKey in items <==> UserIdKey in old(items)) &&
                (UserIdKey in items ==> items[UserIdKey] == old(items)[UserIdKey]) &&
                GetUserId() == old(GetUserId()) && IsUserLoggedIn() == old(IsUserLoggedIn())
      ensures Others(items) == Others(old(items))
    {
      items := items[UserDataKey := Json(u)];
      if HasTruthyId(u) {
        SaveUserId(u.id.value);
      }
    }

    /** `clearUserData`: logs out by removing both keys. */
    method ClearUserData()
      requires Valid()
      modifies this
      ensures Valid()
      ensures items == old(items) - {UserIdKey, UserDataKey}
      ensures GetUserId() == None && !IsUserLoggedIn() && GetUserData() == None
      ensures Others(items) == Others(old(items))
    {
      items := items - {UserIdKey} - {UserDataKey};
    }
  }
}
