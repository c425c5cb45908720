/**
 * The client-side settings state of src/hooks/use-settings.ts: the last fetched settings (user
 * preferences and api keys), a loading flag and the last error. Every change is sent to the
 * server as a whole list (or a whole preference record) and becomes visible only through the
 * refetch that follows a successful save.
 */
module UseSettings {
  import opened Common
  import opened Store

  /** The settings as fetched: either part may be missing. */
  datatype Settings = Settings(preferences: Option<Fields>, apiKeys: Option<seq<KeyEntry>>)

  /** `settings.apiKeys || []`. */
  function CurrentKeys(settings: Settings): seq<KeyEntry>
  {
    if settings.apiKeys.Some? then settings.apiKeys.value else []
  }

  /** `findIndex`: the position of the first key for the service, or -1. */
  function FindKey(keys: seq<KeyEntry>, serviceName: string): (i: int)
    ensures -1 <= i < |keys|
    ensures i >= 0 ==> keys[i].serviceName == serviceName
    ensures forall j | 0 <= j < |keys| && (i < 0 || j < i) :: keys[j].serviceName != serviceName
  {
    if keys == [] then -1
    else if keys[0].serviceName == serviceName then 0
    else
      var j := FindKey(keys[1..], serviceName);
      if j < 0 then -1 else j + 1
  }

  /**
   * The list `updateApiKey` saves: the first key for the service gets the new ciphertext and
   * flag in place; without one, a new key (no id yet) is appended.
   */
  function UpsertKey(keys: seq<KeyEntry>, userId: string, serviceName: string, encryptedKey: string, isActive: bool)
    : seq<KeyEntry>
  {
    var i := FindKey(keys, serviceName);
    if i >= 0 then keys[i := keys[i].(encryptedKey := encryptedKey, isActive := isActive)]
    else keys + [KeyEntry(None, userId, serviceName, encryptedKey, isActive)]
  }

  /**
   * With a key for the service, the upsert keeps the length and every other entry, and rewrites
   * only the ciphertext and flag of the first such key; without one it appends exactly one key.
   */
  lemma UpsertKeyCases(keys: seq<KeyEntry>, userId: string, serviceName: string, encryptedKey: string, isActive: bool)
    ensures var r := UpsertKey(keys, userId, serviceName, encryptedKey, isActive);
            var i := FindKey(keys, serviceName);
            && ((exists e | e in keys :: e.serviceName == serviceName) <==> i >= 0)
            && (i >= 0 ==>
                  && |r| == |keys|
                  && r[i] == KeyEntry(keys[i].id, keys[i].userId, serviceName, encryptedKey, isActive)
                  && (forall j | 0 <= j < |keys| && j != i :: r[j] == keys[j]))
            && (i < 0 ==> r == keys + [KeyEntry(None, userId, serviceName, encryptedKey, isActive)])
  {
  }

  /** After an upsert the first key for the service holds the new ciphertext and flag, and a second identical upsert changes nothing. */
  lemma UpsertKeyIsFoundAndIdempotent(keys: seq<KeyEntry>, userId: string, serviceName: string, encryptedKey: string,
                                      isActive: bool)
    ensures var r := UpsertKey(keys, userId, serviceName, encryptedKey, isActive);
            var i := FindKey(r, serviceName);
            && i >= 0 && r[i].encryptedKey == encryptedKey && r[i].isActive == isActive
            && UpsertKey(r, userId, serviceName, encryptedKey, isActive) == r
  {
    var r := UpsertKey(keys, userId, serviceName, encryptedKey, isActive);
    var i := FindKey(keys, serviceName);
    if i >= 0 {
      assert r[i].serviceName == serviceName;
      assert forall j | 0 <= j < i :: r[j] == keys[j];
      assert FindKey(r, serviceName) == i;
      assert r[i := r[i].(encryptedKey := encryptedKey, isActive := isActive)] == r;
    } else {
      assert r[|keys|].serviceName == serviceName;
      assert forall j | 0 <= j < |keys| :: r[j] == keys[j];
      assert FindKey(r, serviceName) == |keys|;
      assert r[|keys| := r[|keys|].(encryptedKey := encryptedKey, isActive := isActive)] == r;
    }
  }

  /** `keys.filter(key => key.serviceName !== serviceName)`. */
  function RemoveKey(keys: seq<KeyEntry>, serviceName: string): (r: seq<KeyEntry>)
    ensures |r| <= |keys|
    ensures forall e :: e in r <==> e in keys && e.serviceName != serviceName
  {
    if keys == [] then []
    else if keys[0].serviceName == serviceName then RemoveKey(keys[1..], serviceName)
    else [keys[0]] + RemoveKey(keys[1..], serviceName)
  }

  /** Removal keeps the remaining keys in their order: it distributes over concatenation. */
  lemma {:induction false} RemoveKeyAppend(a: seq<KeyEntry>, b: seq<KeyEntry>, serviceName: string)
    ensures RemoveKey(a + b, serviceName) == RemoveKey(a, serviceName) + RemoveKey(b, serviceName)
  {
    if a != [] {
      var s := a + b;
      assert s[0] == a[0] && s[1..] == a[1..] + b;
      RemoveKeyAppend(a[1..], b, serviceName);
      if a[0].serviceName != serviceName {
        var rest := RemoveKey(a[1..], serviceName);
        assert RemoveKey(s, serviceName) == [a[0]] + (rest + RemoveKey(b, serviceName));
        assert [a[0]] + (rest + RemoveKey(b, serviceName)) == [a[0]] + rest + RemoveKey(b, serviceName);
      }
    } else {
      assert a + b == b;
    }
  }

  /** Removing a service undoes an upsert of it: the result is the same as removing it from the original list. */
  lemma {:induction false} RemoveUndoesUpsert(keys: seq<KeyEntry>, userId: string, serviceName: string,
                                              encryptedKey: string, isActive: bool)
    ensures RemoveKey(UpsertKey(keys, userId, serviceName, encryptedKey, isActive), serviceName)
            == RemoveKey(keys, serviceName)
  {
    var i := FindKey(keys, serviceName);
    var e := KeyEntry(None, userId, serviceName, encryptedKey, isActive);
    if i < 0 {
      RemoveKeyAppend(keys, [e], serviceName);
      assert RemoveKey([e], serviceName) == [];
    } else {
      var u := keys[i].(encryptedKey := encryptedKey, isActive := isActive);
      var r := keys[i := u];
      assert keys == keys[..i] + [keys[i]] + keys[i + 1..];
      assert r == keys[..i] + [u] + keys[i + 1..];
      RemoveKeyAppend(keys[..i] + [keys[i]], keys[i + 1..], serviceName);
      RemoveKeyAppend(keys[..i], [keys[i]], serviceName);
      RemoveKeyAppend(keys[..i] + [u], keys[i + 1..], serviceName);
      RemoveKeyAppend(keys[..i], [u], serviceName);
      assert RemoveKey([u], serviceName) == [] == RemoveKey([keys[i]], serviceName);
    }
  }

  /** `{...current, ...updates}`: every key of either record, the update's value winning. */
  function MergePreferences(current: Option<Fields>, updates: Fields): (r: Fields)
    ensures forall k :: k in r <==> k in updates || (current.Some? && k in current.value)
    ensures forall k | k in updates :: r[k] == updates[k]
    ensures forall k | current.Some? && k in current.value && k !in updates :: r[k] == current.value[k]
  {
    (if current.Some? then current.value else map[]) + updates
  }

  /** Merging the same updates a second time changes nothing. */
  lemma MergeIdempotent(current: Option<Fields>, updates: Fields)
    ensures MergePreferences(Some(MergePreferences(current, updates)), updates) == MergePreferences(current, updates)
  {
  }

  const FetchFailure := "Failed to fetch settings"
  const SaveFailure := "Failed to save settings"

  /** The hook's state. */
  class SettingsState {
    var settings: Settings
    var loading: bool
    var error: Option<string>

    /** The initial state: nothing fetched, loading, no error. */
    constructor ()
      ensures settings == Settings(None, None) && loading && error == None
    {
      settings := Settings(None, None);
      loading := true;
      error := None;
    }

    /** `fetchSettings`: the fetched settings replace the state; a failure is recorded, not thrown. */
    method FetchSettings(response: Exchange<Settings>)
      modifies this
      ensures !loading
      ensures response.Replied? ==> settings == response.payload && error == None
      ensures !response.Replied? ==> settings == old(settings) && error == Some(FailureMessage(response, FetchFailure))
    {
      loading := true;
      error := None;
      if response.Replied? {
        settings := response.payload;
      } else {
        error := Some(FailureMessage(response, FetchFailure));
      }
      loading := false;
    }

    /** The effect run when the user changes: a fetch, only for a non-empty user id. */
    method Mount(userId: string, response: Exchange<Settings>)
      modifies this
      ensures userId == "" ==> settings == old(settings) && loading == old(loading) && error == old(error)
      ensures userId != "" ==> !loading && (response.Replied? ==> settings == response.payload && error == None)
    {
      if userId != "" {
        FetchSettings(response);
      }
    }

    /**
     * `saveSettings`: the post, then a refetch only when the post succeeded; a failure of either
     * is recorded and not thrown, and the local settings change only through the refetch.
     */
    method SaveSettings(response: Exchange<()>, refetch: Exchange<Settings>)
      modifies this
      ensures !loading
      ensures response.Replied? && refetch.Replied? ==> settings == refetch.payload && error == None
      ensures response.Replied? && !refetch.Replied? ==>
                settings == old(settings) && error == Some(FailureMessage(refetch, FetchFailure))
      ensures !response.Replied? ==> settings == old(settings) && error == Some(FailureMessage(response, SaveFailure))
    {
      loading := true;
      error := None;
      if response.Replied? {
        FetchSettings(refetch);
      } else {
        error := Some(FailureMessage(response, SaveFailure));
      }
      loading := false;
    }

    /** `updateApiKey`: posts the current keys with the service's key upserted (active unless told otherwise). */
    method UpdateApiKey(userId: string, serviceName: string, encryptedKey: string, response: Exchange<()>,
                        refetch: Exchange<Settings>, isActive: bool := true)
      returns (sent: seq<KeyEntry>)
      modifies this
      ensures sent == UpsertKey(CurrentKeys(old(settings)), userId, serviceName, encryptedKey, isActive)
      ensures !loading
      ensures response.Replied? && refetch.Replied? ==> settings == refetch.payload
      ensures !(response.Replied? && refetch.Replied?) ==> settings == old(settings)
    {
      var currentApiKeys := CurrentKeys(settings);
      var existingKeyIndex := FindKey(currentApiKeys, serviceName);
      var updatedApiKeys;
      if existingKeyIndex >= 0 {
        updatedApiKeys := currentApiKeys;
        updatedApiKeys := updatedApiKeys[existingKeyIndex := updatedApiKeys[existingKeyIndex].(encryptedKey := encryptedKey,
                                                                                             isActive := isActive)];
      } else {
        updatedApiKeys := currentApiKeys + [KeyEntry(None, userId, serviceName, encryptedKey, isActive)];
      }
      sent := updatedApiKeys;
      SaveSettings(response, refetch);
    }

    /** `removeApiKey`: posts the current keys without the service's. */
    method RemoveApiKey(serviceName: string, response: Exchange<()>, refetch: Exchange<Settings>)
      returns (sent: seq<KeyEntry>)
      modifies this
      ensures sent == RemoveKey(CurrentKeys(old(settings)), serviceName)
      ensures !loading
      ensures response.Replied? && refetch.Replied? ==> settings == refetch.payload
      ensures !(response.Replied? && refetch.Replied?) ==> settings == old(settings)
    {
      sent := RemoveKey(CurrentKeys(settings), serviceName);
      SaveSettings(response, refetch);
    }

    /** `updatePreferences`: posts the current preferences merged with the updates. */
    method UpdatePreferences(preferences: Fields, response: Exchange<()>, refetch: Exchange<Settings>)
      returns (sent: Fields)
      modifies this
      ensures sent == MergePreferences(old(settings).preferences, preferences)
      ensures !loading
      ensures response.Replied? && refetch.Replied? ==> settings == refetch.payload
      ensures !(response.Replied? && refetch.Replied?) ==> settings == old(settings)
    {
      sent := MergePreferences(settings.preferences, preferences);
      SaveSettings(response, refetch);
    }
  }
}
