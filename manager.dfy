/**
 * The entry point of src/lib/agents/AgentManager.ts: a registry holding one agent per kind,
 * filled once when the manager is built, and the boundary methods that never throw, each turning
 * any error into a fixed apology (or, for saving a key, into false).
 */
module Manager {
  import opened Common
  import opened Responses
  import opened Tracker
  import Classifier
  import Orchestrator
  import LlmAgent
  import Store

  /** The eight agent kinds. */
  const AllKinds: set<AgentType> := {ORCHESTRATOR, COMMAND, LLM, TASK, CALENDAR, EMAIL, DOC, WEB_SEARCH}

  /** Every kind of agent is in the set of all kinds, and there are eight of them. */
  lemma AllKindsComplete(t: AgentType)
    ensures t in AllKinds && |AllKinds| == 8
  {
    assert AllKinds == {ORCHESTRATOR, COMMAND, LLM, TASK, CALENDAR, EMAIL, DOC, WEB_SEARCH};
  }

  const ProcessingApology := "I apologize, Sir/Madam. I encountered an error while processing your request."
  const TaskApology := "I apologize, Sir/Madam. I encountered an error while executing your task."
  const ResearchApology := "I apologize, Sir/Madam. I encountered an error while conducting research."

  /** The errors a boundary reports when the registry lacks an agent it needs. */
  const CommandMissing := "CommandAgent not available"
  const OrchestratorMissing := "OrchestratorAgent not available"

  /** The response of a catch-all boundary: an error of type text with the apology as content and the error text as message. */
  function Apology(content: string, error: string): (r: Response)
    ensures r.status == Error && r.kind == Text && r.content == content && r.message == Some(error)
    ensures r.raw == None && r.personality == None
  {
    Response(Error, Text, content, None, None, Some(error))
  }

  /** A boundary passes the delegate's response on unchanged and turns a thrown error into the apology. */
  function Boundary(outcome: Result<Response>, apology: string): (r: Response)
    ensures outcome.Ok? ==> r == outcome.value
    ensures outcome.Err? ==> r == Apology(apology, outcome.message)
  {
    match outcome
    case Ok(response) => response
    case Err(message) => Apology(apology, message)
  }

  /** The registry of agents. */
  class AgentManager {
    /** The kinds that have an agent; each agent is the implementation of its kind. */
    var agents: set<AgentType>

    /** The constructor fills the registry with all eight kinds; no method changes it afterwards. */
    constructor ()
      ensures agents == AllKinds
    {
      agents := {};
      new;
      InitializeAgents();
    }

    /** `initializeAgents`: registers one agent per kind, one after the other. */
    method InitializeAgents()
      modifies this
      ensures agents == old(agents) + AllKinds
    {
      agents := agents + {ORCHESTRATOR};
      agents := agents + {COMMAND};
      agents := agents + {LLM};
      agents := agents + {TASK};
      agents := agents + {CALENDAR};
      agents := agents + {EMAIL};
      agents := agents + {DOC};
      agents := agents + {WEB_SEARCH};
    }

    /** `getAgent`: the agent of a kind, when registered. */
    function GetAgent(t: AgentType): (a: Option<AgentType>)
      reads this
      ensures a.Some? <==> t in agents
      ensures a.Some? ==> a.value == t
    {
      if t in agents then Some(t) else None
    }

    /**
     * `processUserCommand`: never throws. The classifier is called directly, so the
     * orchestrator's record is the only one created for the command; any error becomes the
     * apology with the error text as message. A missing agent is such an error.
     */
    method ProcessUserCommand(log: ExecutionLog, id: string, text: string, userId: string, preferences: Option<Fields>,
                              hour: int, roll: bool, phrase: nat, now: int) returns (response: Response)
      requires phrase < |Orchestrator.HumourPhrases|
      modifies log
      ensures COMMAND !in agents ==>
                response == Apology(ProcessingApology, CommandMissing) && log.records == old(log.records)
      ensures COMMAND in agents && ORCHESTRATOR !in agents ==>
                response == Apology(ProcessingApology, OrchestratorMissing)
                && log.records == old(log.records)
      ensures COMMAND in agents && ORCHESTRATOR in agents && id in old(log.records) ==>
                response == Apology(ProcessingApology, Store.StoreFailure) && log.records == old(log.records)
      ensures COMMAND in agents && ORCHESTRATOR in agents && id !in old(log.records) ==>
                var command := Classifier.Processed(text);
                && response == Orchestrator.Respond(command, Formality(preferences), Humour(preferences), hour, roll, phrase)
                && log.records == old(log.records)[id := CompletedRecord(id, ORCHESTRATOR, userId, command,
                                                                         ResponsePayload(response), now)]
    {
      if COMMAND !in agents {
        return Apology(ProcessingApology, CommandMissing);
      }
      if ORCHESTRATOR !in agents {
        return Apology(ProcessingApology, OrchestratorMissing);
      }
      response := Classify(log, id, text, userId, preferences, hour, roll, phrase, now);
    }

    /**
     * The classification of the text and the orchestrator's execution of the command behind the
     * catch-all. The handler classifies before it looks up the orchestrator; classification
     * neither fails nor changes state, so taking it after the lookup changes no outcome.
     */
    method Classify(log: ExecutionLog, id: string, text: string, userId: string, preferences: Option<Fields>,
                    hour: int, roll: bool, phrase: nat, now: int) returns (response: Response)
      requires phrase < |Orchestrator.HumourPhrases|
      modifies log
      ensures id in old(log.records) ==>
                response == Apology(ProcessingApology, Store.StoreFailure) && log.records == old(log.records)
      ensures id !in old(log.records) ==>
                var command := Classifier.Processed(text);
                && response == Orchestrator.Respond(command, Formality(preferences), Humour(preferences), hour, roll, phrase)
                && log.records == old(log.records)[id := CompletedRecord(id, ORCHESTRATOR, userId, command,
                                                                         ResponsePayload(response), now)]
    {
      var processed := Classifier.ProcessUserCommand(text);
      response := Delegate(log, id, processed, userId, preferences, hour, roll, phrase, now);
    }

    /** The orchestrator's execution of a processed command behind the catch-all. */
    method Delegate(log: ExecutionLog, id: string, command: Command, userId: string, preferences: Option<Fields>,
                    hour: int, roll: bool, phrase: nat, now: int) returns (response: Response)
      requires phrase < |Orchestrator.HumourPhrases|
      modifies log
      ensures id in old(log.records) ==>
                response == Apology(ProcessingApology, Store.StoreFailure) && log.records == old(log.records)
      ensures id !in old(log.records) ==>
                && response == Orchestrator.Respond(command, Formality(preferences), Humour(preferences), hour, roll, phrase)
                && log.records == old(log.records)[id := CompletedRecord(id, ORCHESTRATOR, userId, command,
                                                                         ResponsePayload(response), now)]
    {
      var outcome := Orchestrator.Execute(log, id, command, userId, preferences, hour, roll, phrase, now);
      response := Boundary(outcome, ProcessingApology);
    }

    /** `executeTask`: the orchestrator's task execution behind the same catch-all, with its own apology. */
    method ExecuteTask(log: ExecutionLog, id: string, intent: string, params: Fields, userId: string,
                       preferences: Option<Fields>, hour: int, roll: bool, phrase: nat, now: int)
      returns (response: Response)
      requires phrase < |Orchestrator.HumourPhrases|
      modifies log
      ensures ORCHESTRATOR !in agents ==>
                response == Apology(TaskApology, OrchestratorMissing) && log.records == old(log.records)
      ensures ORCHESTRATOR in agents && id in old(log.records) ==>
                response == Apology(TaskApology, Store.StoreFailure) && log.records == old(log.records)
      ensures ORCHESTRATOR in agents && id !in old(log.records) ==>
                && response == Orchestrator.Respond(Orchestrator.TaskCommand(intent, params), Formality(preferences),
                                                    Humour(preferences), hour, roll, phrase)
                && log.records == old(log.records)[id := CompletedRecord(id, ORCHESTRATOR, userId,
                                                                         Orchestrator.TaskCommand(intent, params),
                                                                         ResponsePayload(response), now)]
    {
      if ORCHESTRATOR !in agents {
        return Apology(TaskApology, OrchestratorMissing);
      }
      var outcome := Orchestrator.ExecuteTask(log, id, intent, params, userId, preferences, hour, roll, phrase, now);
      response := Boundary(outcome, TaskApology);
    }

    /** `runResearchWorkflow`: the orchestrator's research workflow behind the same catch-all, with its own apology. */
    method RunResearchWorkflow(log: ExecutionLog, id: string, query: string, userId: string,
                               preferences: Option<Fields>, hour: int, roll: bool, phrase: nat, now: int)
      returns (response: Response)
      requires phrase < |Orchestrator.HumourPhrases|
      modifies log
      ensures ORCHESTRATOR !in agents ==>
                response == Apology(ResearchApology, OrchestratorMissing)
                && log.records == old(log.records)
      ensures ORCHESTRATOR in agents && id in old(log.records) ==>
                response == Apology(ResearchApology, Store.StoreFailure) && log.records == old(log.records)
      ensures ORCHESTRATOR in agents && id !in old(log.records) ==>
                && response == Orchestrator.GeneralResponse(Formality(preferences), Humour(preferences), hour, roll, phrase)
                && log.records == old(log.records)[id := CompletedRecord(id, ORCHESTRATOR, userId,
                                                                         Orchestrator.ResearchCommand(query),
                                                                         ResponsePayload(response), now)]
    {
      if ORCHESTRATOR !in agents {
        return Apology(ResearchApology, OrchestratorMissing);
      }
      var outcome := Orchestrator.RunResearchWorkflow(log, id, query, userId, preferences, hour, roll, phrase, now);
      response := Boundary(outcome, ResearchApology);
    }

    /** `saveApiKey`: the vault's upsert, reported as false when the LLM agent is missing or the write fails. */
    method SaveApiKey(vault: LlmAgent.Vault, serviceName: string, encrypted: string, userId: string, newId: string)
      returns (saved: bool)
      requires vault.Valid()
      modifies vault
      ensures vault.Valid()
      ensures LLM !in agents ==> !saved && vault.keys == old(vault.keys)
      ensures LLM in agents ==>
                LlmAgent.Saved(saved, vault.keys)
                == LlmAgent.SaveUserApiKey(old(vault.keys), serviceName, encrypted, userId, newId)
    {
      if LLM !in agents {
        return false;
      }
      saved := vault.SaveUserApiKeyIn(serviceName, encrypted, userId, newId);
    }
  }

  /** A freshly built manager has every agent, so its boundaries reach the orchestrator and the vault. */
  method BuiltManagerIsComplete() returns (manager: AgentManager)
    ensures fresh(manager) && manager.agents == AllKinds
    ensures forall t: AgentType :: manager.GetAgent(t) == Some(t)
  {
    manager := new AgentManager();
    forall t: AgentType ensures manager.GetAgent(t) == Some(t) {
      AllKindsComplete(t);
    }
  }
}
