/**
 * The settings endpoints of src/app/api/settings/route.ts. GET returns a user's preference record
 * and api keys. POST upserts the preference record and then, key by key, updates each posted
 * key that carries an id and creates each one that does not. Nothing is ever deleted, and the
 * writes made before a failing one stay (there is no transaction).
 *
 * Fresh ids of created keys are an input: `newId(i)` is the id the i-th posted key would get.
 * So is the store's validation of a written preference record (`accepted`).
 */
module SettingsRoute {
  import opened Common
  import opened Store
  import UseSettings

  /** The `apiKeys` field of a posted body: absent, present but not an array, or a list of keys. */
  datatype KeysField = Absent | NotArray | KeyArray(keys: seq<KeyEntry>)

  /** The posted body; only a string user id is modelled, and an absent or empty one is refused. */
  datatype SettingsPost = SettingsPost(userId: Option<string>, preferences: Option<Fields>, apiKeys: KeysField)

  datatype Body = Data(preferences: Option<Fields>, apiKeys: set<ApiKey>) | Saved(message: string) | ErrorBody(error: string)

  datatype Reply = Reply(status: int, body: Body)

  /**
   * The user id the preference record carries after the upsert. A posted `userId` field wins,
   * since `update` writes it and `create` spreads it after the request's. A posted `userId`
   * that is not a string gives None, because Prisma rejects it.
   */
  function RecordOwner(userId: string, posted: Fields): Option<string>
  {
    if "userId" !in posted then Some(userId)
    else if posted["userId"].Str? then Some(posted["userId"].s)
    else None
  }

  /**
   * The preference upsert. With no posted record, nothing is written.
   *
   * Otherwise the posted fields are written over the user's record, or a new record is created
   * with the user id. The write fails (None) in three cases:
   * - `accepted` refuses the written fields. This is Prisma's validation: an unknown column, a
   *   mistyped value, or a user id with no user behind it.
   * - The posted `userId` is not a string.
   * - The posted `userId` moves the record onto another user's record, which the unique index
   *   on `userId` refuses.
   */
  function PreferencesAfter(rows: map<string, Fields>, userId: string, preferences: Option<Fields>,
                            accepted: Fields -> bool)
    : (r: Option<map<string, Fields>>)
    ensures preferences.None? ==> r == Some(rows)
    ensures preferences.Some? ==>
              var p := preferences.value;
              var written := if userId in rows then p else map["userId" := Str(userId)] + p;
              var owner := RecordOwner(userId, p);
              && (r.Some? <==> accepted(written) && owner.Some? && (owner.value == userId || owner.value !in rows))
              && (r.Some? ==>
                    && r.value.Keys == (rows.Keys - {userId}) + {owner.value}
                    && (forall k | k in p :: k in r.value[owner.value] && r.value[owner.value][k] == p[k])
                    && (forall u | u in rows && u != userId :: r.value[u] == rows[u])
                    && (userId in rows ==>
                          forall k | k in rows[userId] && k !in p ::
                            k in r.value[owner.value] && r.value[owner.value][k] == rows[userId][k])
                    && (userId !in rows ==>
                          "userId" in r.value[owner.value] && r.value[owner.value]["userId"] == Str(owner.value)))
  {
    if preferences.None? then Some(rows)
    else
      var p := preferences.value;
      var owner := RecordOwner(userId, p);
      if owner.None? || (owner.value != userId && owner.value in rows) then None
      else if userId in rows then
        if accepted(p) then Some((rows - {userId})[owner.value := rows[userId] + p]) else None
      else
        var created := map["userId" := Str(userId)] + p;
        if accepted(created) then Some(rows[owner.value := created]) else None
  }

  /** A posted `userId` naming another user's record makes the upsert fail, whether it updates or creates. */
  lemma ClashingOwnerRefused(rows: map<string, Fields>, userId: string, other: string, p: Fields,
                             accepted: Fields -> bool)
    requires other != userId && other in rows
    requires "userId" in p && p["userId"] == Str(other)
    ensures PreferencesAfter(rows, userId, Some(p), accepted).None?
  {
  }

  /** A posted key names a stored record when its id is truthy. */
  predicate Names(e: KeyEntry)
  {
    e.id.Some? && e.id.value != ""
  }

  /** A record other than the one under `id` already holds the pair, so the unique index refuses a write giving it to `id`. */
  predicate PairTaken(rows: map<string, ApiKey>, id: string, userId: string, serviceName: string)
  {
    exists k | k in rows && k != id :: Matches(rows[k], userId, serviceName)
  }

  /**
   * One posted key: with an id, that record's service, ciphertext and flag are rewritten
   * (nothing when no record has the id, which makes the store throw); without one, a record is
   * created for the user under the fresh id (nothing when it is taken). Either write is refused
   * when another record already holds the owner's pair for the posted service.
   */
  function SaveKey(rows: map<string, ApiKey>, userId: string, e: KeyEntry, id: string): (r: Option<map<string, ApiKey>>)
    ensures r.Some? ==> rows.Keys <= r.value.Keys
  {
    if Names(e) then
      if e.id.value !in rows || PairTaken(rows, e.id.value, rows[e.id.value].userId, e.serviceName) then None
      else
        Some(rows[e.id.value := rows[e.id.value].(serviceName := e.serviceName, encryptedKey := e.encryptedKey,
                                                  isActive := e.isActive)])
    else if id in rows || PairTaken(rows, id, userId, e.serviceName) then None
    else Some(rows[id := ApiKey(id, userId, e.serviceName, e.encryptedKey, e.isActive)])
  }

  /** A successful key write keeps the table's ids and its (userId, serviceName) index consistent. */
  lemma SaveKeyKeepsIndex(rows: map<string, ApiKey>, userId: string, e: KeyEntry, id: string)
    requires UniqueIndex(rows) && SaveKey(rows, userId, e, id).Some?
    ensures UniqueIndex(SaveKey(rows, userId, e, id).value)
  {
    var r := SaveKey(rows, userId, e, id).value;
    var written := if Names(e) then e.id.value else id;
    assert forall k | k in r && k != written :: r[k] == rows[k];
    assert !PairTaken(rows, written, r[written].userId, r[written].serviceName);
  }

  /** A second key for a service the user already has a record for is refused, and nothing is written. */
  lemma SecondKeyForServiceRefused(rows: map<string, ApiKey>, userId: string, e: KeyEntry, id: string, held: string)
    requires !Names(e) && held in rows && Matches(rows[held], userId, e.serviceName)
    ensures SaveKey(rows, userId, e, id).None?
  {
    if id !in rows {
      assert held != id;
    }
  }

  /** The key table and whether every write so far succeeded. */
  datatype KeysSaved = KeysSaved(ok: bool, rows: map<string, ApiKey>)

  /** The first `n` posted keys written in order, stopping at the first failing write. */
  function SaveKeys(rows: map<string, ApiKey>, userId: string, posted: seq<KeyEntry>, newId: nat -> string, n: nat)
    : (r: KeysSaved)
    requires n <= |posted|
  {
    if n == 0 then KeysSaved(true, rows)
    else
      var before := SaveKeys(rows, userId, posted, newId, n - 1);
      if !before.ok then before
      else
        var after := SaveKey(before.rows, userId, posted[n - 1], newId(n - 1));
        if after.None? then KeysSaved(false, before.rows) else KeysSaved(true, after.value)
  }

  /** Once a write has failed, the later keys change nothing. */
  lemma {:induction false} FailureStops(rows: map<string, ApiKey>, userId: string, posted: seq<KeyEntry>,
                                        newId: nat -> string, i: nat, n: nat)
    requires i <= n <= |posted| && !SaveKeys(rows, userId, posted, newId, i).ok
    ensures SaveKeys(rows, userId, posted, newId, n) == SaveKeys(rows, userId, posted, newId, i)
  {
    if n > i {
      FailureStops(rows, userId, posted, newId, i, n - 1);
    }
  }

  /** However far the keys get, the table's ids and its (userId, serviceName) index stay consistent. */
  lemma {:induction false} SaveKeysKeepIndex(rows: map<string, ApiKey>, userId: string, posted: seq<KeyEntry>,
                                             newId: nat -> string, n: nat)
    requires n <= |posted| && UniqueIndex(rows)
    ensures UniqueIndex(SaveKeys(rows, userId, posted, newId, n).rows)
  {
    if n > 0 {
      SaveKeysKeepIndex(rows, userId, posted, newId, n - 1);
      var before := SaveKeys(rows, userId, posted, newId, n - 1);
      if before.ok && SaveKey(before.rows, userId, posted[n - 1], newId(n - 1)).Some? {
        SaveKeyKeepsIndex(before.rows, userId, posted[n - 1], newId(n - 1));
      }
    }
  }

  /**
   * There is no delete path: every stored key is still stored after a POST, and a key no posted
   * entry names keeps its service, ciphertext, flag and owner. A key created by the POST belongs
   * to the posting user.
   */
  lemma {:induction false} NothingIsDeleted(rows: map<string, ApiKey>, userId: string, posted: seq<KeyEntry>,
                                            newId: nat -> string, n: nat)
    requires n <= |posted|
    ensures var r := SaveKeys(rows, userId, posted, newId, n).rows;
            && rows.Keys <= r.Keys
            && (forall id | id in rows && (forall j | 0 <= j < n :: posted[j].id != Some(id)) :: r[id] == rows[id])
            && (forall id | id in r && id !in rows :: r[id].userId == userId)
  {
    if n > 0 {
      NothingIsDeleted(rows, userId, posted, newId, n - 1);
      var before := SaveKeys(rows, userId, posted, newId, n - 1);
      if before.ok && SaveKey(before.rows, userId, posted[n - 1], newId(n - 1)).Some? {
        SaveKeyKeeps(before.rows, userId, posted[n - 1], newId(n - 1));
      }
    }
  }

  /** One key write keeps every stored key and its owner, leaves the keys it does not name alone, and creates only for the user. */
  lemma SaveKeyKeeps(rows: map<string, ApiKey>, userId: string, e: KeyEntry, id: string)
    requires SaveKey(rows, userId, e, id).Some?
    ensures var r := SaveKey(rows, userId, e, id).value;
            && rows.Keys <= r.Keys
            && (forall k | k in rows :: r[k].userId == rows[k].userId)
            && (forall k | k in rows && e.id != Some(k) :: r[k] == rows[k])
            && (forall k | k in r && k !in rows :: r[k].userId == userId)
  {
  }

  /**
   * A posted id is all it takes to rewrite a key: unless the owner already holds another record
   * for the posted service, the write succeeds, the record keeps its owner, even when that is
   * another user, and takes the posted service, ciphertext and flag.
   */
  lemma PostedIdRewritesAnyOwner(rows: map<string, ApiKey>, userId: string, e: KeyEntry, id: string)
    requires Names(e) && e.id.value in rows
    ensures SaveKey(rows, userId, e, id).Some? <==> !PairTaken(rows, e.id.value, rows[e.id.value].userId, e.serviceName)
    ensures SaveKey(rows, userId, e, id).Some? ==>
              var k := SaveKey(rows, userId, e, id).value[e.id.value];
              k.userId == rows[e.id.value].userId && k.serviceName == e.serviceName
              && k.encryptedKey == e.encryptedKey && k.isActive == e.isActive
  {
  }

  /**
   * Removing a key on the settings screen does not remove it: when every posted entry with the
   * key's id is for the key's own service, the list without that service leaves the stored key
   * exactly as it was.
   */
  lemma RemovedKeyStays(rows: map<string, ApiKey>, userId: string, keys: seq<KeyEntry>, serviceName: string,
                        newId: nat -> string, id: string)
    requires id in rows && rows[id].serviceName == serviceName
    requires forall e | e in keys && e.id == Some(id) :: e.serviceName == serviceName
    ensures var posted := UseSettings.RemoveKey(keys, serviceName);
            var r := SaveKeys(rows, userId, posted, newId, |posted|).rows;
            id in r && r[id] == rows[id]
  {
    var posted := UseSettings.RemoveKey(keys, serviceName);
    forall j | 0 <= j < |posted| ensures posted[j].id != Some(id) {
      assert posted[j] in posted;
    }
    NothingIsDeleted(rows, userId, posted, newId, |posted|);
  }

  /** The keys a POST processes: only an array is looked at. */
  function PostedKeys(field: KeysField): seq<KeyEntry>
  {
    if field.KeyArray? then field.keys else []
  }

  /** The settings store: preference records by user id and api keys by id. */
  class SettingsStore {
    var preferences: map<string, Fields>
    var apiKeys: map<string, ApiKey>

    /** GET: 400 without a user id, otherwise the user's preference record (if any) and keys. */
    function Get(userId: Option<string>): (r: Reply)
      reads this
      ensures userId.None? || userId.value == "" ==> r == Reply(400, ErrorBody("User ID is required"))
      ensures userId.Some? && userId.value != "" ==>
                && r.status == 200 && r.body.Data?
                && (r.body.preferences.Some? <==> userId.value in preferences)
                && (r.body.preferences.Some? ==> r.body.preferences.value == preferences[userId.value])
                && (forall k :: k in r.body.apiKeys <==> k in apiKeys.Values && k.userId == userId.value)
    {
      if userId.None? || userId.value == "" then Reply(400, ErrorBody("User ID is required"))
      else
        var u := userId.value;
        Reply(200, Data(if u in preferences then Some(preferences[u]) else None,
                        set k | k in apiKeys.Values && k.userId == u))
    }

    /**
     * One posted key: the update of the record its id names, or the create of a record under
     * `id` when it has none; false, and no write, when the update finds no record, the id is
     * taken, or another record holds the owner's pair for the posted service.
     */
    method SaveOne(userId: string, apiKey: KeyEntry, id: string) returns (saved: bool)
      modifies this
      ensures saved <==> SaveKey(old(apiKeys), userId, apiKey, id).Some?
      ensures saved ==> apiKeys == SaveKey(old(apiKeys), userId, apiKey, id).value
      ensures !saved ==> apiKeys == old(apiKeys)
      ensures preferences == old(preferences)
      ensures UniqueIndex(old(apiKeys)) ==> UniqueIndex(apiKeys)
    {
      if Names(apiKey) {
        var keyId := apiKey.id.value;
        if keyId !in apiKeys || PairTaken(apiKeys, keyId, apiKeys[keyId].userId, apiKey.serviceName) {
          return false;
        }
        apiKeys := apiKeys[keyId := apiKeys[keyId].(serviceName := apiKey.serviceName,
                                                   encryptedKey := apiKey.encryptedKey, isActive := apiKey.isActive)];
      } else {
        if id in apiKeys || PairTaken(apiKeys, id, userId, apiKey.serviceName) {
          return false;
        }
        apiKeys := apiKeys[id := ApiKey(id, userId, apiKey.serviceName, apiKey.encryptedKey, apiKey.isActive)];
      }
      saved := true;
      if UniqueIndex(old(apiKeys)) {
        SaveKeyKeepsIndex(old(apiKeys), userId, apiKey, id);
      }
    }

    /** The preference upsert of a POST; `ok` is false when the store refuses it, and then nothing changes. */
    method UpsertPreferences(userId: string, posted: Option<Fields>, accepted: Fields -> bool) returns (ok: bool)
      modifies this
      ensures var after := PreferencesAfter(old(preferences), userId, posted, accepted);
              && (ok <==> after.Some?)
              && preferences == (if ok then after.value else old(preferences))
      ensures apiKeys == old(apiKeys)
    {
      if posted.None? {
        return true;
      }
      var owner := RecordOwner(userId, posted.value);
      if owner.None? || (owner.value != userId && owner.value in preferences) {
        return false;
      }
      if userId in preferences {
        if !accepted(posted.value) {
          return false;
        }
        var record := preferences[userId] + posted.value;
        preferences := (preferences - {userId})[owner.value := record];
      } else {
        var created := map["userId" := Str(userId)] + posted.value;
        if !accepted(created) {
          return false;
        }
        preferences := preferences[owner.value := created];
      }
      ok := true;
    }

    /** The posted keys written one by one, stopping at the first failing write. */
    method SaveAll(userId: string, posted: seq<KeyEntry>, newId: nat -> string) returns (ok: bool)
      modifies this
      ensures KeysSaved(ok, apiKeys) == SaveKeys(old(apiKeys), userId, posted, newId, |posted|)
      ensures preferences == old(preferences)
      ensures UniqueIndex(old(apiKeys)) ==> UniqueIndex(apiKeys)
    {
      if UniqueIndex(apiKeys) {
        SaveKeysKeepIndex(apiKeys, userId, posted, newId, |posted|);
      }
      for i := 0 to |posted|
        invariant preferences == old(preferences)
        invariant KeysSaved(true, apiKeys) == SaveKeys(old(apiKeys), userId, posted, newId, i)
      {
        var saved := SaveOne(userId, posted[i], newId(i));
        if !saved {
          assert SaveKeys(old(apiKeys), userId, posted, newId, i + 1) == KeysSaved(false, apiKeys);
          FailureStops(old(apiKeys), userId, posted, newId, i + 1, |posted|);
          return false;
        }
      }
      ok := true;
    }

    /**
     * POST: 400 and no write without a user id. Otherwise the preference upsert comes first; if
     * the store refuses it, the reply is 500 and nothing is written. Then the keys are written one
     * by one; a failing key write gives 500 and keeps every earlier write.
     */
    method Post(body: SettingsPost, newId: nat -> string, accepted: Fields -> bool) returns (reply: Reply)
      modifies this
      ensures body.userId.None? || body.userId.value == "" ==>
                reply == Reply(400, ErrorBody("User ID is required"))
                && preferences == old(preferences) && apiKeys == old(apiKeys)
      ensures body.userId.Some? && body.userId.value != "" ==>
                var after := PreferencesAfter(old(preferences), body.userId.value, body.preferences, accepted);
                after.None? ==>
                  reply == Reply(500, ErrorBody("Failed to save settings"))
                  && preferences == old(preferences) && apiKeys == old(apiKeys)
      ensures body.userId.Some? && body.userId.value != "" ==>
                var after := PreferencesAfter(old(preferences), body.userId.value, body.preferences, accepted);
                var posted := PostedKeys(body.apiKeys);
                var saved := SaveKeys(old(apiKeys), body.userId.value, posted, newId, |posted|);
                after.Some? ==>
                  && preferences == after.value
                  && apiKeys == saved.rows
                  && reply == (if saved.ok then Reply(200, Saved("Settings saved successfully"))
                               else Reply(500, ErrorBody("Failed to save settings")))
      ensures UniqueIndex(old(apiKeys)) ==> UniqueIndex(apiKeys)
    {
      if body.userId.None? || body.userId.value == "" {
        return Reply(400, ErrorBody("User ID is required"));
      }
      var userId := body.userId.value;
      var upserted := UpsertPreferences(userId, body.preferences, accepted);
      if !upserted {
        return Reply(500, ErrorBody("Failed to save settings"));
      }
      var saved := SaveAll(userId, PostedKeys(body.apiKeys), newId);
      if !saved {
        return Reply(500, ErrorBody("Failed to save settings"));
      }
      reply := Reply(200, Saved("Settings saved successfully"));
    }
  }
}
