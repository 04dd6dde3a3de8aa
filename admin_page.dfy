/** The admin settings page: checks that the visitor is a signed-in admin,
    loads the (masked) configuration rows, lets each value be edited and, for
    secrets, revealed, and saves one value at a time through `POST
    /api/config`. The session, the user row and the two requests are inputs
    to the model. */
module AdminPage {
  import opened Wrappers
  import opened ConfigRoute

  const LoginRedirect: string := "/login?redirect=/admin"
  const DashboardPath: string := "/dashboard"
  const NotLoggedInToast: string := "You must be logged in to access admin settings"
  const UserDataToast: string := "Failed to load user data"
  const NoPermissionToast: string := "You don't have permission to access admin settings"
  const LoadFailedToast: string := "Failed to load admin settings"

  // ---------------------------------------------------------------------
  // The edited values

  /** The `values` record built from the loaded rows with `values[config.key]
      = config.value`, row by row. */
  function ValuesOf(rows: seq<ConfigRow>): (m: map<string, string>)
    ensures forall k :: k in m <==> exists i :: 0 <= i < |rows| && rows[i].key == k
  {
    if rows == [] then map[]
    else
      var init := rows[..|rows| - 1];
      var last := rows[|rows| - 1];
      var m := ValuesOf(init)[last.key := last.value];
      assert forall k :: k in m <==> exists i :: 0 <= i < |rows| && rows[i].key == k by {
        forall k | k in m ensures exists i :: 0 <= i < |rows| && rows[i].key == k {
          if k != last.key {
            var i :| 0 <= i < |init| && init[i].key == k;
            assert rows[i].key == k;
          }
        }
        forall k | exists i :: 0 <= i < |rows| && rows[i].key == k ensures k in m {
          var i :| 0 <= i < |rows| && rows[i].key == k;
          if i < |init| {
            assert init[i].key == k;
          }
        }
      }
      m
  }

  /** When a key occurs several times, the last row's value is the one kept. */
  lemma {:induction false} LastWriteWins(rows: seq<ConfigRow>, i: int)
    requires 0 <= i < |rows|
    requires forall j :: i < j < |rows| ==> rows[j].key != rows[i].key
    ensures rows[i].key in ValuesOf(rows)
    ensures ValuesOf(rows)[rows[i].key] == rows[i].value
    decreases |rows|
  {
    if i < |rows| - 1 {
      var init := rows[..|rows| - 1];
      assert init[i] == rows[i];
      LastWriteWins(init, i);
    }
  }

  /** The `forEach` over the loaded rows that fills `values`. */
  method CollectValues(data: seq<ConfigRow>) returns (values: map<string, string>)
    ensures values == ValuesOf(data)
  {
    values := map[];
    for i := 0 to |data|
      invariant values == ValuesOf(data[..i])
    {
      assert data[..i + 1][..i] == data[..i];
      values := values[data[i].key := data[i].value];
    }
    assert data[..|data|] == data;
  }

  /** Whether a secret is revealed: `showSecret[key]`, where a missing entry
      is `undefined` and so falsy. */
  predicate Revealed(showSecret: map<string, bool>, key: string)
  {
    key in showSecret && showSecret[key]
  }

  /** `{ ...prev, [key]: !prev[key] }`. */
  function Toggled(showSecret: map<string, bool>, key: string): (r: map<string, bool>)
    ensures Revealed(r, key) <==> !Revealed(showSecret, key)
    ensures forall k :: k != key ==> (k in r <==> k in showSecret)
    ensures forall k :: k != key && k in showSecret ==> r[k] == showSecret[k]
  {
    showSecret[key := !Revealed(showSecret, key)]
  }

  /** Toggling a key twice reveals exactly what was revealed before, even
      though a missing entry has become `false`. */
  lemma ToggleTwiceRestores(showSecret: map<string, bool>, key: string, k: string)
    ensures Revealed(Toggled(Toggled(showSecret, key), key), k) == Revealed(showSecret, k)
  {
  }

  /** The `type` of a value input: a secret is a password field until it is
      revealed. */
  function InputType(row: ConfigRow, showSecret: map<string, bool>): (t: string)
    ensures t == "password" <==> row.isSecret && !Revealed(showSecret, row.key)
    ensures t == "text" <==> !(row.isSecret && !Revealed(showSecret, row.key))
  {
    if row.isSecret && !Revealed(showSecret, row.key) then "password" else "text"
  }

  /** The `value` of a value input: `updatedValues[config.key] || ""`. */
  function InputValue(updatedValues: map<string, string>, key: string): (v: string)
    ensures key in updatedValues ==> v == updatedValues[key]
    ensures key !in updatedValues ==> v == ""
  {
    if key in updatedValues && updatedValues[key] != "" then updatedValues[key] else ""
  }

  /** The body `saveConfig` posts: the key and the edited value, which
      `JSON.stringify` drops when it is `undefined`. */
  function SaveRequest(updatedValues: map<string, string>, key: string): (body: PostBody)
    ensures body.PostBody? && body.key == Some(key)
    ensures body.value.Some? <==> key in updatedValues
    ensures body.value.Some? ==> body.value.value == updatedValues[key]
  {
    PostBody(Some(key), if key in updatedValues then Some(updatedValues[key]) else None)
  }

  /** The page loads what `GET /api/config` returns, so a secret it has not
      edited holds the mask, and saving it posts the mask, which `POST
      /api/config` stores over the real secret. */
  lemma SavingUneditedSecretStoresMask(userId: string, userData: UserRow,
                                      table: seq<ConfigRow>, i: int, now: string)
    requires IsAdmin(Some(userData))
    requires 0 <= i < |table| && table[i].isSecret && table[i].value != "" && table[i].key != ""
    requires forall j :: i < j < |table| ==> table[j].key != table[i].key
    ensures SaveRequest(ValuesOf(MaskedList(table)), table[i].key) == PostBody(Some(table[i].key), Some(Mask))
    ensures Post(Some(userId), Some(userData), PostBody(Some(table[i].key), Some(Mask)), table, now, None).1[i].value
            == Mask
  {
    var shown := MaskedList(table);
    forall j | i < j < |shown| ensures shown[j].key != shown[i].key {
      assert shown[j].key == table[j].key;
    }
    LastWriteWins(shown, i);
  }

  // ---------------------------------------------------------------------
  // The component

  /** A toast, with its kind. */
  datatype Toast = SuccessToast(text: string) | ErrorToast(text: string)

  /** What the refresh after a save comes to: the rows of an ok response, a
      response that is not ok (ignored), or a throw (a network error, or an
      ok body that is not JSON). */
  datatype Refresh = RefreshRows(rows: seq<ConfigRow>) | RefreshNotOk | RefreshThrew

  /** The component `AdminPage` and its state. */
  class AdminPage {
    var configs: seq<ConfigRow>
    var isLoading: bool
    var isAdminUser: bool
    var showSecret: map<string, bool>
    var updatedValues: map<string, string>
    var isSaving: bool

    /** The initial state: loading, not yet known to be an admin, nothing
        loaded, revealed or edited. */
    constructor ()
      ensures configs == [] && isLoading && !isAdminUser
      ensures showSecret == map[] && updatedValues == map[] && !isSaving
    {
      configs := [];
      isLoading := true;
      isAdminUser := false;
      showSecret := map[];
      updatedValues := map[];
      isSaving := false;
    }

    /** The page shows the configuration list (rather than the skeleton or
        nothing). */
    predicate ShowsConfigs()
      reads this
    {
      !isLoading && isAdminUser
    }

    /** `checkAdminAccess`, run when the page mounts. `session` is the
        signed-in user, `userData` the caller's `users` row (`None` when the
        lookup fails) and `fetched` the rows `GET /api/config` returns
        (`None` when the response is not ok or not JSON). Returns where the
        router is sent and the toast shown. */
    method CheckAdminAccess(session: Option<string>, userData: Option<UserRow>,
                            fetched: Option<seq<ConfigRow>>)
      returns (navigation: Option<string>, toast: Option<string>)
      modifies this
      ensures !isLoading
      ensures session.None? ==> navigation == Some(LoginRedirect) && toast == Some(NotLoggedInToast)
      ensures session.Some? && userData.None? ==>
        navigation == Some(DashboardPath) && toast == Some(UserDataToast)
      ensures session.Some? && userData.Some? && !IsAdmin(userData) ==>
        navigation == Some(DashboardPath) && toast == Some(NoPermissionToast)
      ensures navigation.None? <==> session.Some? && IsAdmin(userData)
      ensures isAdminUser <==> old(isAdminUser) || navigation.None?
      ensures ShowsConfigs() <==> old(isAdminUser) || navigation.None?
      ensures navigation.Some? || fetched.None? ==>
        configs == old(configs) && updatedValues == old(updatedValues)
      ensures navigation.None? && fetched.None? ==> toast == Some(LoadFailedToast)
      ensures navigation.None? && fetched.Some? ==>
        toast.None? && configs == fetched.value && updatedValues == ValuesOf(fetched.value)
      ensures showSecret == old(showSecret) && isSaving == old(isSaving)
    {
      isLoading := true;
      navigation, toast := None, None;
      if session.None? {
        navigation, toast := Some(LoginRedirect), Some(NotLoggedInToast);
      } else if userData.None? {
        navigation, toast := Some(DashboardPath), Some(UserDataToast);
      } else if !IsAdmin(userData) {
        navigation, toast := Some(DashboardPath), Some(NoPermissionToast);
      } else {
        isAdminUser := true;
        match fetched
        case None =>
          toast := Some(LoadFailedToast);
        case Some(data) =>
          configs := data;
          var values := CollectValues(data);
          updatedValues := values;
      }
      isLoading := false;
    }

    /** `handleValueChange`: the edited value of `key` becomes `value`. */
    method HandleValueChange(key: string, value: string)
      modifies this
      ensures updatedValues == old(updatedValues)[key := value]
      ensures InputValue(updatedValues, key) == value
      ensures forall k :: k != key ==> InputValue(updatedValues, k) == InputValue(old(updatedValues), k)
      ensures configs == old(configs) && showSecret == old(showSecret)
      ensures isLoading == old(isLoading) && isAdminUser == old(isAdminUser) && isSaving == old(isSaving)
    {
      updatedValues := updatedValues[key := value];
    }

    /** `toggleShowSecret`: flips whether `key` is revealed. */
    method ToggleShowSecret(key: string)
      modifies this
      ensures showSecret == Toggled(old(showSecret), key)
      ensures Revealed(showSecret, key) <==> !old(Revealed(showSecret, key))
      ensures configs == old(configs) && updatedValues == old(updatedValues)
      ensures isLoading == old(isLoading) && isAdminUser == old(isAdminUser) && isSaving == old(isSaving)
    {
      showSecret := Toggled(showSecret, key);
    }

    /** `saveConfig(key)`, reachable only while no save is in flight (the
        Save buttons are disabled then). `saved` says whether the POST
        answered ok (a request that throws counts as not ok) and `refresh`
        is what the follow-up `GET` came to. Returns the body posted and the
        toasts shown, in order: a refresh that throws, inside the same `try`,
        adds the failure toast after the success toast. */
    method SaveConfig(key: string, saved: bool, refresh: Refresh)
      returns (request: PostBody, toasts: seq<Toast>)
      requires !isSaving
      modifies this
      ensures request == SaveRequest(updatedValues, key)
      ensures !saved ==> toasts == [ErrorToast("Failed to update " + key)]
      ensures saved && !refresh.RefreshThrew? ==> toasts == [SuccessToast(key + " updated successfully")]
      ensures saved && refresh.RefreshThrew? ==>
        toasts == [SuccessToast(key + " updated successfully"), ErrorToast("Failed to update " + key)]
      ensures configs == (if saved && refresh.RefreshRows? then refresh.rows else old(configs))
      ensures !isSaving
      ensures updatedValues == old(updatedValues) && showSecret == old(showSecret)
      ensures isLoading == old(isLoading) && isAdminUser == old(isAdminUser)
    {
      isSaving := true;
      request := SaveRequest(updatedValues, key);
      if saved {
        toasts := [SuccessToast(key + " updated successfully")];
        match refresh {
          case RefreshRows(rows) =>
            configs := rows;
          case RefreshNotOk =>
          case RefreshThrew =>
            toasts := toasts + [ErrorToast("Failed to update " + key)];
        }
      } else {
        toasts := [ErrorToast("Failed to update " + key)];
      }
      isSaving := false;
    }
  }
}
