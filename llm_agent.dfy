/**
 * The language-model specialist of src/lib/agents/LLMApiAgent.ts: a vault of per-user service
 * credentials (one record per user and service name) and a prompt forwarded to the completion
 * service once the user's key for the service is found.
 *
 * The cipher is not modelled: saving takes the ciphertext the cipher produced, and reading
 * takes the decryption as a function that may fail. The completion service is a function from
 * the prompt to the reply text (absent when the reply has no content) or a failure.
 */
module LlmAgent {
  import opened Common
  import opened Strings
  import opened Store
  import opened Responses
  import Tracker

  // ---------------------------------------------------------------------------
  // The credential vault

  /** `findUnique` on the pair (userId, serviceName). */
  function FindUnique(keys: map<string, ApiKey>, userId: string, serviceName: string): (r: Option<ApiKey>)
    requires UniqueIndex(keys)
    ensures r.Some? <==> exists id | id in keys :: Matches(keys[id], userId, serviceName)
    ensures r.Some? ==> r.value.id in keys && keys[r.value.id] == r.value && Matches(r.value, userId, serviceName)
  {
    if exists id | id in keys :: Matches(keys[id], userId, serviceName) then
      var id :| id in keys && Matches(keys[id], userId, serviceName);
      Some(keys[id])
    else None
  }

  /** The result of `saveUserApiKey`: whether it reported success, and the vault afterwards. */
  datatype Saved = Saved(ok: bool, keys: map<string, ApiKey>)

  /**
   * `saveUserApiKey`: the user's record for the service, when there is one, gets the new
   * ciphertext and is made active; otherwise an active record is created under the fresh id. A
   * failed write (the id in use) is caught and reported as false with nothing written.
   */
  function SaveUserApiKey(keys: map<string, ApiKey>, serviceName: string, encrypted: string, userId: string,
                          newId: string): Saved
    requires UniqueIndex(keys)
  {
    var existing := FindUnique(keys, userId, serviceName);
    if existing.Some? then
      Saved(true, keys[existing.value.id := existing.value.(encryptedKey := encrypted, isActive := true)])
    else if newId in keys then Saved(false, keys)
    else Saved(true, keys[newId := ApiKey(newId, userId, serviceName, encrypted, true)])
  }

  /**
   * Saving keeps the index unique; it fails only when a new record is needed and the fresh id is
   * taken; after a success the user's record for the service is active with the new ciphertext,
   * and the record of every other user or service is as it was.
   */
  lemma {:induction false} SaveIsUpsert(keys: map<string, ApiKey>, serviceName: string, encrypted: string,
                                        userId: string, newId: string)
    requires UniqueIndex(keys)
    ensures var s := SaveUserApiKey(keys, serviceName, encrypted, userId, newId);
            && UniqueIndex(s.keys)
            && (s.ok <==> FindUnique(keys, userId, serviceName).Some? || newId !in keys)
            && (!s.ok ==> s.keys == keys)
            && (s.ok ==> var k := FindUnique(s.keys, userId, serviceName);
                         k.Some? && k.value.encryptedKey == encrypted && k.value.isActive)
            && (s.ok ==> |s.keys| <= |keys| + 1)
            && (forall u, n | !(u == userId && n == serviceName) :: FindUnique(s.keys, u, n) == FindUnique(keys, u, n))
  {
    var existing := FindUnique(keys, userId, serviceName);
    var s := SaveUserApiKey(keys, serviceName, encrypted, userId, newId);
    var id := if existing.Some? then existing.value.id else newId;
    var rec := if existing.Some? then existing.value.(encryptedKey := encrypted, isActive := true)
               else ApiKey(newId, userId, serviceName, encrypted, true);
    if s.ok {
      assert s.keys == keys[id := rec];
      assert Matches(rec, userId, serviceName);
      assert UniqueIndex(s.keys);
      assert s.keys[id] == rec;
      UpsertKeepsOthers(keys, id, rec, userId, serviceName);
    }
  }

  /** Writing the record of one pair under its id leaves every lookup of another pair as it was. */
  lemma UpsertKeepsOthers(keys: map<string, ApiKey>, id: string, rec: ApiKey, userId: string, serviceName: string)
    requires UniqueIndex(keys) && UniqueIndex(keys[id := rec]) && Matches(rec, userId, serviceName)
    requires id in keys ==> Matches(keys[id], userId, serviceName)
    ensures forall u, n | !(u == userId && n == serviceName) ::
              FindUnique(keys[id := rec], u, n) == FindUnique(keys, u, n)
  {
    var updated := keys[id := rec];
    forall u, n | !(u == userId && n == serviceName)
      ensures FindUnique(updated, u, n) == FindUnique(keys, u, n)
    {
      var before := FindUnique(keys, u, n);
      var after := FindUnique(updated, u, n);
      if after.Some? {
        assert after.value.id != id;
        assert keys[after.value.id] == after.value;
      }
      if before.Some? {
        assert before.value.id != id;
        assert updated[before.value.id] == before.value;
      }
    }
  }

  /**
   * `getUserApiKey`: the decrypted key of the user's record for the service; nothing when there is
   * no record, when the record is inactive, when the decryption fails, or when the service name is
   * not text (the store rejects the lookup and the error is caught).
   */
  function GetUserApiKey(keys: map<string, ApiKey>, userId: string, serviceName: Value,
                         decrypt: string -> Result<string>): (r: Option<string>)
    requires UniqueIndex(keys)
    ensures r.Some? <==>
              && serviceName.Str?
              && FindUnique(keys, userId, serviceName.s).Some?
              && FindUnique(keys, userId, serviceName.s).value.isActive
              && decrypt(FindUnique(keys, userId, serviceName.s).value.encryptedKey).Ok?
    ensures r.Some? ==> r.value == decrypt(FindUnique(keys, userId, serviceName.s).value.encryptedKey).value
  {
    if !serviceName.Str? then None
    else
      var record := FindUnique(keys, userId, serviceName.s);
      if record.None? || !record.value.isActive then None
      else
        var key := decrypt(record.value.encryptedKey);
        if key.Err? then None else Some(key.value)
  }

  /** A key just saved is found again, whenever the decryption gives back a value for its ciphertext. */
  lemma SavedKeyIsFound(keys: map<string, ApiKey>, serviceName: string, encrypted: string, userId: string,
                        newId: string, decrypt: string -> Result<string>)
    requires UniqueIndex(keys) && decrypt(encrypted).Ok?
    requires SaveUserApiKey(keys, serviceName, encrypted, userId, newId).ok
    ensures UniqueIndex(SaveUserApiKey(keys, serviceName, encrypted, userId, newId).keys)
    ensures GetUserApiKey(SaveUserApiKey(keys, serviceName, encrypted, userId, newId).keys, userId, Str(serviceName),
                          decrypt) == Some(decrypt(encrypted).value)
  {
    SaveIsUpsert(keys, serviceName, encrypted, userId, newId);
  }

  /** The vault table of the store. */
  class Vault {
    var keys: map<string, ApiKey>

    predicate Valid()
      reads this
    {
      UniqueIndex(keys)
    }

    constructor ()
      ensures keys == map[] && Valid()
    {
      keys := map[];
    }

    /** `saveUserApiKey` on the table: look the pair up, then update that record or create one. */
    method SaveUserApiKeyIn(serviceName: string, encrypted: string, userId: string, newId: string)
      returns (saved: bool)
      requires Valid()
      modifies this
      ensures Saved(saved, keys) == SaveUserApiKey(old(keys), serviceName, encrypted, userId, newId)
      ensures Valid()
    {
      SaveIsUpsert(keys, serviceName, encrypted, userId, newId);
      if exists id | id in keys :: Matches(keys[id], userId, serviceName) {
        var id :| id in keys && Matches(keys[id], userId, serviceName);
        var existing := keys[id];
        keys := keys[id := existing.(encryptedKey := encrypted, isActive := true)];
        saved := true;
      } else if newId in keys {
        saved := false;
      } else {
        keys := keys[newId := ApiKey(newId, userId, serviceName, encrypted, true)];
        saved := true;
      }
    }
  }

  // ---------------------------------------------------------------------------
  // callLlmApi

  const CallFailure := "Failed to call LLM API: "

  /**
   * `callLlmApi`: without a (non-empty) key for the service it throws before the completion
   * service is called; a failed call or an empty reply throws too; every error is rethrown with
   * the same prefix. The key is only checked, not passed on.
   */
  function CallLlmApi(keys: map<string, ApiKey>, userId: string, prompt: Value, serviceName: Value,
                      decrypt: string -> Result<string>, complete: Value -> Result<Option<string>>)
    : (r: Result<string>)
    requires UniqueIndex(keys)
    ensures r.Err? ==> |CallFailure| <= |r.message| && r.message[..|CallFailure|] == CallFailure
    ensures r.Ok? ==> r.value != "" && GetUserApiKey(keys, userId, serviceName, decrypt).Some?
  {
    var key := GetUserApiKey(keys, userId, serviceName, decrypt);
    if key.None? || key.value == "" then Err(CallFailure + "No API key found for service: " + TemplateText(serviceName))
    else
      match complete(prompt)
      case Err(m) => Err(CallFailure + m)
      case Ok(text) =>
        if text.None? || text.value == "" then Err(CallFailure + "No response received from LLM API")
        else Ok(text.value)
  }

  /** Without a usable key the outcome does not depend on the completion service: it is never called. */
  lemma NoKeyNoCall(keys: map<string, ApiKey>, userId: string, prompt: Value, serviceName: Value,
                    decrypt: string -> Result<string>, complete1: Value -> Result<Option<string>>,
                    complete2: Value -> Result<Option<string>>)
    requires UniqueIndex(keys)
    requires var key := GetUserApiKey(keys, userId, serviceName, decrypt); key.None? || key.value == ""
    ensures CallLlmApi(keys, userId, prompt, serviceName, decrypt, complete1)
            == CallLlmApi(keys, userId, prompt, serviceName, decrypt, complete2)
            == Err(CallFailure + "No API key found for service: " + TemplateText(serviceName))
  {
  }

  /** With a usable key the reply text is passed through exactly when it is non-empty. */
  lemma ReplyPassesThrough(keys: map<string, ApiKey>, userId: string, prompt: Value, serviceName: Value,
                           decrypt: string -> Result<string>, complete: Value -> Result<Option<string>>)
    requires UniqueIndex(keys)
    requires var key := GetUserApiKey(keys, userId, serviceName, decrypt); key.Some? && key.value != ""
    ensures var r := CallLlmApi(keys, userId, prompt, serviceName, decrypt, complete);
            && (r.Ok? <==> complete(prompt).Ok? && complete(prompt).value.Some? && complete(prompt).value.value != "")
            && (r.Ok? ==> r.value == complete(prompt).value.value)
  {
  }

  // ---------------------------------------------------------------------------
  // execute

  /** `command.parameters?.prompt`. */
  function PromptOf(command: Command): (p: Option<Value>)
    ensures p.Some? <==> command.parameters.Some? && "prompt" in command.parameters.value
  {
    if command.parameters.Some? then Get(command.parameters.value, "prompt") else None
  }

  /** The service name: 'default' exactly when the parameter is absent (a destructuring default). */
  function ServiceOf(command: Command): (s: Value)
    ensures command.parameters.Some? && "serviceName" in command.parameters.value ==>
              s == command.parameters.value["serviceName"]
    ensures !(command.parameters.Some? && "serviceName" in command.parameters.value) ==> s == Str("default")
  {
    if command.parameters.Some? && "serviceName" in command.parameters.value
    then command.parameters.value["serviceName"] else Str("default")
  }

  /** What `execute` returns once its record is logged: a response, or the rethrown error of the call. */
  function Run(keys: map<string, ApiKey>, command: Command, userId: string, decrypt: string -> Result<string>,
               complete: Value -> Result<Option<string>>): Result<Response>
    requires UniqueIndex(keys)
  {
    var prompt := PromptOf(command);
    if !GivenOpt(prompt) then Ok(ErrorResponse("No prompt provided for LLM API call"))
    else
      match CallLlmApi(keys, userId, prompt.value, ServiceOf(command), decrypt, complete)
      case Err(m) => Err(m)
      case Ok(text) => Ok(SuccessResponse(text, Text, Some(LlmRaw(text))))
  }

  /**
   * The record `execute` leaves: still RUNNING when no prompt was given (it returns before the
   * update), FAILED with the error when the call throws (provided the id is truthy), COMPLETED
   * with the reply otherwise.
   */
  function FinalRecord(pending: Tracker.ExecutionRecord, keys: map<string, ApiKey>, command: Command, userId: string,
                       decrypt: string -> Result<string>, complete: Value -> Result<Option<string>>, now: int)
    : Tracker.ExecutionRecord
    requires UniqueIndex(keys)
  {
    var started := Tracker.Started(pending, now);
    if !GivenOpt(PromptOf(command)) then started
    else
      match CallLlmApi(keys, userId, PromptOf(command).value, ServiceOf(command), decrypt, complete)
      case Err(m) => if pending.id != "" then Tracker.Finished(started, Tracker.FAILED, None, Some(m), now) else started
      case Ok(text) => Tracker.Finished(started, Tracker.COMPLETED, Some(Tracker.LlmPayload(text)), None, now)
  }

  /**
   * Of the three ways out of `execute`, only the missing prompt leaves the record unfinished:
   * it stays RUNNING with no completion time, while the other two end in a terminal,
   * well-formed record whose status says whether the call succeeded. (The store's ids are never
   * empty; an empty one would also keep a failed call's record RUNNING, as the error handler
   * tests the id for truthiness.)
   */
  lemma MissingPromptLeavesRecordRunning(keys: map<string, ApiKey>, id: string, command: Command, userId: string,
                                         decrypt: string -> Result<string>,
                                         complete: Value -> Result<Option<string>>, now: int)
    requires UniqueIndex(keys) && id != ""
    ensures var f := FinalRecord(Tracker.Pending(id, Tracker.LLM, userId, command.text, command.intent,
                                                 command.parameters, now), keys, command, userId, decrypt, complete, now);
            var r := Run(keys, command, userId, decrypt, complete);
            && (f.status == Tracker.RUNNING <==> !GivenOpt(PromptOf(command)))
            && (f.status == Tracker.RUNNING ==> r == Ok(ErrorResponse("No prompt provided for LLM API call"))
                                                && f.completedAt.None?)
            && (f.status != Tracker.RUNNING ==> Tracker.Terminal(f.status) && Tracker.WellFormed(f))
            && (f.status == Tracker.FAILED <==> r.Err?)
            && (f.status == Tracker.COMPLETED <==> r.Ok? && r.value.status == Success)
  {
  }

  /**
   * `execute`: logs and starts the record; without a prompt returns the error response at once;
   * otherwise calls the service, records the reply as COMPLETED and returns it as text, or, when
   * the call throws, marks the record FAILED and rethrows.
   */
  method Execute(log: Tracker.ExecutionLog, keys: map<string, ApiKey>, id: string, command: Command, userId: string,
                 decrypt: string -> Result<string>, complete: Value -> Result<Option<string>>, now: int)
    returns (r: Result<Response>)
    requires UniqueIndex(keys)
    modifies log
    ensures id in old(log.records) ==> r.Err? && log.records == old(log.records)
    ensures id !in old(log.records) ==>
              && r == Run(keys, command, userId, decrypt, complete)
              && log.records == old(log.records)[id := FinalRecord(Tracker.Pending(id, Tracker.LLM, userId, command.text,
                                                                                   command.intent, command.parameters, now),
                                                                   keys, command, userId, decrypt, complete, now)]
  {
    var logged := log.LogExecution(id, Tracker.LLM, userId, command.text, command.intent, command.parameters, now);
    if logged.Err? {
      return Err(logged.message);
    }
    ghost var pending := Tracker.Pending(id, Tracker.LLM, userId, command.text, command.intent, command.parameters, now);
    log.StartExecution(id, now);
    r := Finish(log, keys, id, command, userId, decrypt, complete, pending, now);
  }

  /**
   * The part of `execute` after the record is started: the prompt check, the call, and the
   * update or the failure mark.
   */
  method Finish(log: Tracker.ExecutionLog, keys: map<string, ApiKey>, id: string, command: Command, userId: string,
                decrypt: string -> Result<string>, complete: Value -> Result<Option<string>>,
                ghost pending: Tracker.ExecutionRecord, now: int)
    returns (r: Result<Response>)
    requires UniqueIndex(keys)
    requires pending.id == id && id in log.records && log.records[id] == Tracker.Started(pending, now)
    modifies log
    ensures r == Run(keys, command, userId, decrypt, complete)
    ensures log.records == old(log.records)[id := FinalRecord(pending, keys, command, userId, decrypt, complete, now)]
  {
    var prompt := PromptOf(command);
    if !GivenOpt(prompt) {
      r := log.WithErrorHandling(Ok(ErrorResponse("No prompt provided for LLM API call")), id, now);
      assert log.records == old(log.records)[id := Tracker.Started(pending, now)];
      return;
    }
    var result := CallLlmApi(keys, userId, prompt.value, ServiceOf(command), decrypt, complete);
    if result.Err? {
      r := log.WithErrorHandling(Err(result.message), id, now);
      return;
    }
    log.UpdateExecution(id, Tracker.COMPLETED, Some(Tracker.LlmPayload(result.value)), None, now);
    r := log.WithErrorHandling(Ok(SuccessResponse(result.value, Text, Some(LlmRaw(result.value)))), id, now);
  }
}
