/** `GET` and `POST /api/config`: the admin-only view of the `app_config`
    table, with secret values masked, and the update of one value. The session,
    the user row and the table queries are inputs to the model. */
module ConfigRoute {
  import opened Wrappers
  import opened JsStrings

  /** The JSON values a metadata flag can hold, as far as `=== true` can tell
      them apart. */
  datatype Json = JBool(b: bool) | JString(s: string) | JNumber(n: int) | JNull

  /** The `users` row of the caller: the `is_admin` entries of its two
      metadata objects (`None` when the object or the entry is missing). */
  datatype UserRow = UserRow(rawIsAdmin: Option<Json>, userIsAdmin: Option<Json>)

  /** A row of `app_config`. Values are strings here. */
  datatype ConfigRow = ConfigRow(
    id: string, key: string, value: string, description: Option<string>,
    isSecret: bool, createdAt: string, updatedAt: string)

  /** What the caller sees instead of a secret value: sixteen bullets. */
  const Mask: string := "\U{2022}\U{2022}\U{2022}\U{2022}\U{2022}\U{2022}\U{2022}\U{2022}\U{2022}\U{2022}\U{2022}\U{2022}\U{2022}\U{2022}\U{2022}\U{2022}"

  /** `=== true`. */
  predicate IsTrue(flag: Option<Json>)
  {
    flag == Some(JBool(true))
  }

  /** `userData?.raw_user_meta_data?.is_admin === true ||
      userData?.user_metadata?.is_admin === true`; `None` is a failed
      lookup. */
  predicate IsAdmin(userData: Option<UserRow>)
  {
    userData.Some? && (IsTrue(userData.value.rawIsAdmin) || IsTrue(userData.value.userIsAdmin))
  }

  /** Only the boolean `true` counts: the string "true", the number 1 or a
      missing flag do not. */
  lemma AdminNeedsBooleanTrue(raw: Option<Json>, user: Option<Json>)
    ensures IsAdmin(Some(UserRow(raw, user))) <==> raw == Some(JBool(true)) || user == Some(JBool(true))
    ensures !IsAdmin(Some(UserRow(Some(JString("true")), Some(JNumber(1)))))
    ensures !IsAdmin(None)
  {
  }

  // ---------------------------------------------------------------------
  // Masking

  /** The single-key rule: a secret's value becomes the mask when it is
      non-empty and "" otherwise. */
  function MaskSingle(row: ConfigRow): (r: ConfigRow)
    ensures r.isSecret ==> r.value in {"", Mask}
    ensures r.isSecret && row.value != "" ==> r.value == Mask
    ensures row.isSecret && row.value == "" ==> r.value == ""
    ensures !row.isSecret ==> r == row
    ensures r == row.(value := r.value)
  {
    if row.isSecret then row.(value := if row.value != "" then Mask else "") else row
  }

  /** The list rule: a secret with a non-empty value gets the mask; every
      other entry is left alone. */
  function MaskEntry(row: ConfigRow): ConfigRow
  {
    if row.isSecret && row.value != "" then row.(value := Mask) else row
  }

  /** The two rules agree on every row. */
  lemma MaskRulesAgree(row: ConfigRow)
    ensures MaskEntry(row) == MaskSingle(row)
  {
  }

  /** The list after the loop: the same rows in the same order, each masked
      by the list rule. */
  function MaskedList(rows: seq<ConfigRow>): (r: seq<ConfigRow>)
    ensures |r| == |rows|
    ensures forall i :: 0 <= i < |r| ==> r[i] == MaskSingle(rows[i])
  {
    seq(|rows|, i requires 0 <= i < |rows| => MaskEntry(rows[i]))
  }

  /** No secret value is ever listed in clear: each listed secret shows the
      mask or "", whatever was stored, and every other entry, and every other
      field, is shown as stored. */
  lemma MaskedListHidesSecrets(rows: seq<ConfigRow>, i: int)
    requires 0 <= i < |rows|
    ensures MaskedList(rows)[i].isSecret ==> MaskedList(rows)[i].value in {"", Mask}
    ensures !rows[i].isSecret ==> MaskedList(rows)[i] == rows[i]
    ensures MaskedList(rows)[i] == rows[i].(value := MaskedList(rows)[i].value)
  {
  }

  /** Masking twice is masking once. */
  lemma MaskIdempotent(rows: seq<ConfigRow>)
    ensures MaskedList(MaskedList(rows)) == MaskedList(rows)
  {
  }

  /** The `for (const config of data)` loop, masking the rows where they
      are. */
  method MaskSecrets(a: array<ConfigRow>)
    modifies a
    ensures a[..] == MaskedList(old(a[..]))
  {
    var i := 0;
    while i < a.Length
      invariant 0 <= i <= a.Length
      invariant a[..i] == MaskedList(old(a[..]))[..i]
      invariant a[i..] == old(a[..])[i..]
    {
      if a[i].isSecret && a[i].value != "" {
        a[i] := a[i].(value := Mask);
      }
      assert a[i] == MaskEntry(old(a[..])[i]);
      i := i + 1;
    }
  }

  // ---------------------------------------------------------------------
  // GET

  datatype GetResponse =
    | GetError(status: int, error: string)
    | OneConfig(config: ConfigRow)
    | AllConfigs(configs: seq<ConfigRow>)

  /** `GET`. `userId` is the session's user, `userData` the caller's `users`
      row, `key` the `key` search parameter, `lookup` the `.single()` query
      for that key and `listing` the query for all rows (ordered by the
      database). */
  method Get(userId: Option<string>, userData: Option<UserRow>, key: Option<string>,
             lookup: Result<ConfigRow, string>, listing: Result<seq<ConfigRow>, string>)
    returns (r: GetResponse)
    ensures userId.None? ==> r == GetError(401, "Unauthorized")
    ensures userId.Some? && !IsAdmin(userData) ==> r == GetError(403, "Forbidden")
    ensures r.OneConfig? || r.AllConfigs? ==> userId.Some? && IsAdmin(userData)
    ensures userId.Some? && IsAdmin(userData) && Truthy(key) ==>
      r == (match lookup
            case Success(row) => OneConfig(MaskSingle(row))
            case Failure(message) => GetError(500, message))
    ensures userId.Some? && IsAdmin(userData) && !Truthy(key) ==>
      r == (match listing
            case Success(rows) => AllConfigs(MaskedList(rows))
            case Failure(message) => GetError(500, message))
  {
    if userId.None? {
      return GetError(401, "Unauthorized");
    }
    if !IsAdmin(userData) {
      return GetError(403, "Forbidden");
    }
    if Truthy(key) {
      match lookup
      case Failure(message) =>
        r := GetError(500, message);
      case Success(row) =>
        r := OneConfig(MaskSingle(row));
    } else {
      match listing
      case Failure(message) =>
        r := GetError(500, message);
      case Success(rows) =>
        var a := new ConfigRow[|rows|](i requires 0 <= i < |rows| => rows[i]);
        assert a[..] == rows;
        MaskSecrets(a);
        r := AllConfigs(a[..]);
    }
  }

  /** Whatever the table holds, no response of `GET` carries a secret's value
      in clear. */
  lemma GetNeverShowsSecrets(rows: seq<ConfigRow>, row: ConfigRow)
    ensures MaskSingle(row).isSecret ==> MaskSingle(row).value in {"", Mask}
    ensures forall i :: 0 <= i < |rows| && MaskedList(rows)[i].isSecret ==>
      MaskedList(rows)[i].value in {"", Mask}
  {
  }

  // ---------------------------------------------------------------------
  // POST

  /** The request body: `Unreadable` when `request.json()` throws; otherwise
      its `key` and `value` (`None` is `undefined`). */
  datatype PostBody = Unreadable | PostBody(key: Option<string>, value: Option<string>)

  datatype PostResponse = PostError(status: int, error: string) | PostSuccess(data: seq<ConfigRow>)

  /** The update `.update({ value, updated_at }).eq('key', key)`: every row with
      the key takes the new value and timestamp; no row is added or removed. */
  function UpdateRows(table: seq<ConfigRow>, key: string, value: string, now: string): (r: seq<ConfigRow>)
    ensures |r| == |table|
    ensures forall i :: 0 <= i < |r| && table[i].key == key ==>
      r[i] == table[i].(value := value, updatedAt := now)
    ensures forall i :: 0 <= i < |r| && table[i].key != key ==> r[i] == table[i]
  {
    seq(|table|, i requires 0 <= i < |table| =>
      if table[i].key == key then table[i].(value := value, updatedAt := now) else table[i])
  }

  /** The rows `.select()` returns after the update: those with the key. */
  function RowsWithKey(rows: seq<ConfigRow>, key: string): (r: seq<ConfigRow>)
    ensures |r| <= |rows|
    ensures forall i :: 0 <= i < |r| ==> r[i].key == key
    ensures forall i :: 0 <= i < |rows| && rows[i].key == key ==> rows[i] in r
  {
    if rows == [] then []
    else if rows[0].key == key then [rows[0]] + RowsWithKey(rows[1..], key)
    else RowsWithKey(rows[1..], key)
  }

  /** The selected rows are rows of the table, and every row of the table
      with the key is selected. */
  lemma {:induction false} RowsWithKeyMembers(rows: seq<ConfigRow>, key: string, x: ConfigRow)
    ensures x in RowsWithKey(rows, key) <==> x in rows && x.key == key
  {
    if rows != [] {
      RowsWithKeyMembers(rows[1..], key, x);
      assert x in rows <==> x == rows[0] || x in rows[1..] by {
        assert rows == [rows[0]] + rows[1..];
      }
    }
  }

  /** A one-row table keeps its row exactly when the row has the key. */
  lemma RowsWithKeyOfRow(x: ConfigRow, key: string)
    ensures RowsWithKey([x], key) == if x.key == key then [x] else []
  {
    assert [x][1..] == [];
  }

  /** Selecting from two tables one after the other is selecting from their
      concatenation. With `RowsWithKeyOfRow` this makes the selection the
      order-keeping filter on the key, which fixes the result, its order and
      how often each row occurs. */
  lemma {:induction false} RowsWithKeyAppend(a: seq<ConfigRow>, b: seq<ConfigRow>, key: string)
    ensures RowsWithKey(a + b, key) == RowsWithKey(a, key) + RowsWithKey(b, key)
  {
    if a == [] {
      assert a + b == b;
    } else {
      var head := if a[0].key == key then [a[0]] else [];
      RowsWithKeyAppend(a[1..], b, key);
      assert a == [a[0]] + a[1..];
      RowsWithKeyCons(a[0], a[1..], key);
      assert a + b == [a[0]] + (a[1..] + b);
      RowsWithKeyCons(a[0], a[1..] + b, key);
      Regroup(RowsWithKey(a + b, key), RowsWithKey(a, key), head,
              RowsWithKey(a[1..], key), RowsWithKey(b, key), RowsWithKey(a[1..] + b, key));
    }
  }

  /** Regrouping a concatenation of three sequences. */
  lemma Regroup<T>(whole: seq<T>, left: seq<T>, head: seq<T>, x: seq<T>, y: seq<T>, rest: seq<T>)
    requires whole == head + rest && rest == x + y && left == head + x
    ensures whole == left + y
  {
    assert head + (x + y) == (head + x) + y;
  }

  /** Selecting from a table with a first row: that row if it has the key,
      then the selection from the rest. */
  lemma RowsWithKeyCons(x: ConfigRow, rest: seq<ConfigRow>, key: string)
    ensures RowsWithKey([x] + rest, key) == (if x.key == key then [x] else []) + RowsWithKey(rest, key)
  {
    assert ([x] + rest)[1..] == rest;
  }

  /** `POST`: returns the response and the table afterwards. `now` is the
      timestamp and `updateError` the error the update reports, if any. */
  function Post(userId: Option<string>, userData: Option<UserRow>, body: PostBody,
                table: seq<ConfigRow>, now: string, updateError: Option<string>)
    : (out: (PostResponse, seq<ConfigRow>))
    ensures userId.None? ==> out == (PostError(401, "Unauthorized"), table)
    ensures userId.Some? && !IsAdmin(userData) ==> out == (PostError(403, "Forbidden"), table)
    ensures userId.Some? && IsAdmin(userData) && body.Unreadable? ==>
      out == (PostError(500, "Failed to update config"), table)
    ensures userId.Some? && IsAdmin(userData) && body.PostBody? &&
            (!Truthy(body.key) || body.value.None?) ==>
      out == (PostError(400, "Key and value are required"), table)
    ensures userId.Some? && IsAdmin(userData) && body.PostBody? && Truthy(body.key) &&
            body.value.Some? && updateError.Some? ==>
      out == (PostError(500, updateError.value), table)
    ensures out.1 != table ==> userId.Some? && IsAdmin(userData) && updateError.None?
    ensures out.0.PostSuccess? <==>
      userId.Some? && IsAdmin(userData) && body.PostBody? && Truthy(body.key) &&
      body.value.Some? && updateError.None?
    ensures out.0.PostSuccess? ==>
      out.1 == UpdateRows(table, body.key.value, body.value.value, now) &&
      out.0.data == RowsWithKey(out.1, body.key.value)
  {
    if userId.None? then (PostError(401, "Unauthorized"), table)
    else if !IsAdmin(userData) then (PostError(403, "Forbidden"), table)
    else
      match body
      case Unreadable => (PostError(500, "Failed to update config"), table)
      case PostBody(key, value) =>
        if !Truthy(key) || value.None? then (PostError(400, "Key and value are required"), table)
        else
          match updateError
          case Some(message) => (PostError(500, message), table)
          case None =>
            var updated := UpdateRows(table, key.value, value.value, now);
            (PostSuccess(RowsWithKey(updated, key.value)), updated)
  }

  /** An empty string is a value like any other and is stored. */
  lemma EmptyValueAccepted(userId: string, userData: UserRow, key: string,
                           table: seq<ConfigRow>, now: string)
    requires IsAdmin(Some(userData)) && key != ""
    ensures Post(Some(userId), Some(userData), PostBody(Some(key), Some("")), table, now, None).0.PostSuccess?
  {
  }

  /** `POST` only updates: a key not in the table is not added, and the
      success response then lists no row. */
  lemma {:induction false} PostNeverInserts(userId: string, userData: UserRow, key: string,
                                            value: string, table: seq<ConfigRow>, now: string)
    requires IsAdmin(Some(userData)) && key != ""
    requires forall i :: 0 <= i < |table| ==> table[i].key != key
    ensures Post(Some(userId), Some(userData), PostBody(Some(key), Some(value)), table, now, None)
         == (PostSuccess([]), table)
  {
    var updated := UpdateRows(table, key, value, now);
    assert updated == table;
    RowsWithKeyAbsent(table, key);
  }

  lemma {:induction false} RowsWithKeyAbsent(rows: seq<ConfigRow>, key: string)
    requires forall i :: 0 <= i < |rows| ==> rows[i].key != key
    ensures RowsWithKey(rows, key) == []
  {
    if rows != [] {
      RowsWithKeyAbsent(rows[1..], key);
    }
  }
}
