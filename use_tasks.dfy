/**
 * The client-side task state of src/hooks/use-tasks.ts: the active and archived task lists, a
 * loading flag and the last error, kept up to date from the server's replies without refetching
 * (except after subtasks or follow-ups are generated).
 *
 * Each request is an input: the outcome of the exchange with the server.
 */
module UseTasks {
  import opened Common
  import opened Store

  // ---------------------------------------------------------------------------
  // The list updates

  /** `list.map(task => task.id === id ? updated : task)`. */
  function Replaced(list: seq<Task>, id: string, updated: Task): (r: seq<Task>)
    ensures |r| == |list|
    ensures forall i | 0 <= i < |list| :: list[i].id == id ==> r[i] == updated
    ensures forall i | 0 <= i < |list| :: list[i].id != id ==> r[i] == list[i]
  {
    if list == [] then []
    else [if list[0].id == id then updated else list[0]] + Replaced(list[1..], id, updated)
  }

  /** `list.filter(task => task.id !== id)`. */
  function Without(list: seq<Task>, id: string): (r: seq<Task>)
    ensures |r| <= |list|
    ensures forall t :: t in r <==> t in list && t.id != id
  {
    if list == [] then []
    else if list[0].id == id then Without(list[1..], id)
    else [list[0]] + Without(list[1..], id)
  }

  /** Filtering keeps the order: filtering two lists one after the other is filtering their concatenation. */
  lemma {:induction false} WithoutAppend(a: seq<Task>, b: seq<Task>, id: string)
    ensures Without(a + b, id) == Without(a, id) + Without(b, id)
  {
    if a != [] {
      assert (a + b)[0] == a[0] && (a + b)[1..] == a[1..] + b;
      WithoutAppend(a[1..], b, id);
      if a[0].id != id {
        calc {
          Without(a + b, id);
          [a[0]] + Without(a[1..] + b, id);
          [a[0]] + (Without(a[1..], id) + Without(b, id));
          ([a[0]] + Without(a[1..], id)) + Without(b, id);
        }
      }
    } else {
      assert a + b == b;
    }
  }

  /** A list without the id is left as it is by filtering, and unchanged by replacing. */
  lemma {:induction false} AbsentIdChangesNothing(list: seq<Task>, id: string, updated: Task)
    requires forall t | t in list :: t.id != id
    ensures Without(list, id) == list
    ensures Replaced(list, id, updated) == list
  {
    if list != [] {
      AbsentIdChangesNothing(list[1..], id, updated);
    }
  }

  /** Replacing the same id twice keeps only the later task: a second update overrides the first. */
  lemma {:induction false} ReplacedTwice(list: seq<Task>, id: string, first: Task, second: Task)
    requires first.id == id
    ensures Replaced(Replaced(list, id, first), id, second) == Replaced(list, id, second)
  {
    if list != [] {
      ReplacedTwice(list[1..], id, first, second);
    }
  }

  const FetchFailure := "Failed to fetch tasks"
  const FetchArchivedFailure := "Failed to fetch archived tasks"
  const CreateFailure := "Failed to create task"
  const UpdateFailure := "Failed to update task"
  const DeleteFailure := "Failed to delete task"
  const ArchiveFailure := "Failed to archive task"
  const UnarchiveFailure := "Failed to unarchive task"
  const SubtasksFailure := "Failed to create subtasks"
  const FollowupsFailure := "Failed to create follow-up tasks"

  /** The hook's state. */
  class TaskState {
    var tasks: seq<Task>
    var archivedTasks: seq<Task>
    var loading: bool
    var error: Option<string>

    /** The initial state: both lists empty, not loading, no error. */
    constructor ()
      ensures tasks == [] && archivedTasks == [] && !loading && error == None
    {
      tasks := [];
      archivedTasks := [];
      loading := false;
      error := None;
    }

    /** `fetchTasks`: replaces the active list with the listing (empty when it has none); a failure is kept in `error`, not thrown. */
    method FetchTasks(response: Exchange<Option<seq<Task>>>)
      modifies this
      ensures !loading && archivedTasks == old(archivedTasks)
      ensures response.Replied? ==>
                error == None && tasks == (if response.payload.Some? then response.payload.value else [])
      ensures !response.Replied? ==> error == Some(FailureMessage(response, FetchFailure)) && tasks == old(tasks)
    {
      loading := true;
      error := None;
      if response.Replied? {
        tasks := if response.payload.Some? then response.payload.value else [];
      } else {
        error := Some(FailureMessage(response, FetchFailure));
      }
      loading := false;
    }

    /** `fetchArchivedTasks`: the same for the archived list. */
    method FetchArchivedTasks(response: Exchange<Option<seq<Task>>>)
      modifies this
      ensures !loading && tasks == old(tasks)
      ensures response.Replied? ==>
                error == None && archivedTasks == (if response.payload.Some? then response.payload.value else [])
      ensures !response.Replied? ==>
                error == Some(FailureMessage(response, FetchArchivedFailure)) && archivedTasks == old(archivedTasks)
    {
      loading := true;
      error := None;
      if response.Replied? {
        archivedTasks := if response.payload.Some? then response.payload.value else [];
      } else {
        error := Some(FailureMessage(response, FetchArchivedFailure));
      }
      loading := false;
    }

    /** The effect run when the user changes: both lists are fetched, but only for a non-empty user id. */
    method Mount(userId: string, active: Exchange<Option<seq<Task>>>, archived: Exchange<Option<seq<Task>>>)
      modifies this
      ensures userId == "" ==> tasks == old(tasks) && archivedTasks == old(archivedTasks)
                               && loading == old(loading) && error == old(error)
      ensures userId != "" ==> !loading
      ensures userId != "" && active.Replied? ==>
                tasks == (if active.payload.Some? then active.payload.value else [])
      ensures userId != "" && archived.Replied? ==>
                archivedTasks == (if archived.payload.Some? then archived.payload.value else [])
    {
      if userId != "" {
        FetchTasks(active);
        FetchArchivedTasks(archived);
      }
    }

    /** `addTask`: the created task goes to the front of the active list; a failure is stored and rethrown. */
    method AddTask(response: Exchange<Task>) returns (thrown: Option<string>)
      modifies this
      ensures !loading && archivedTasks == old(archivedTasks) && error == thrown
      ensures response.Replied? ==> thrown == None && tasks == [response.payload] + old(tasks)
      ensures !response.Replied? ==> thrown == Some(FailureMessage(response, CreateFailure)) && tasks == old(tasks)
    {
      loading := true;
      error := None;
      if response.Replied? {
        tasks := [response.payload] + tasks;
        thrown := None;
      } else {
        error := Some(FailureMessage(response, CreateFailure));
        thrown := error;
      }
      loading := false;
    }

    /** `updateTask`: the server's task replaces every task with the id, in whichever list it is. */
    method UpdateTask(id: string, response: Exchange<Task>) returns (thrown: Option<string>)
      modifies this
      ensures !loading && error == thrown
      ensures response.Replied? ==>
                && thrown == None
                && tasks == Replaced(old(tasks), id, response.payload)
                && archivedTasks == Replaced(old(archivedTasks), id, response.payload)
      ensures !response.Replied? ==>
                thrown == Some(FailureMessage(response, UpdateFailure))
                && tasks == old(tasks) && archivedTasks == old(archivedTasks)
    {
      loading := true;
      error := None;
      if response.Replied? {
        tasks := Replaced(tasks, id, response.payload);
        archivedTasks := Replaced(archivedTasks, id, response.payload);
        thrown := None;
      } else {
        error := Some(FailureMessage(response, UpdateFailure));
        thrown := error;
      }
      loading := false;
    }

    /** `deleteTask`: every task with the id leaves both lists. */
    method DeleteTask(id: string, response: Exchange<()>) returns (thrown: Option<string>)
      modifies this
      ensures !loading && error == thrown
      ensures response.Replied? ==>
                && thrown == None
                && tasks == Without(old(tasks), id) && archivedTasks == Without(old(archivedTasks), id)
      ensures !response.Replied? ==>
                thrown == Some(FailureMessage(response, DeleteFailure))
                && tasks == old(tasks) && archivedTasks == old(archivedTasks)
    {
      loading := true;
      error := None;
      if response.Replied? {
        tasks := Without(tasks, id);
        archivedTasks := Without(archivedTasks, id);
        thrown := None;
      } else {
        error := Some(FailureMessage(response, DeleteFailure));
        thrown := error;
      }
      loading := false;
    }

    /** `archiveTask`: the task leaves the active list and the server's copy goes to the front of the archived list. */
    method ArchiveTask(id: string, response: Exchange<Task>) returns (thrown: Option<string>)
      modifies this
      ensures !loading && error == thrown
      ensures response.Replied? ==>
                && thrown == None
                && tasks == Without(old(tasks), id) && archivedTasks == [response.payload] + old(archivedTasks)
      ensures !response.Replied? ==>
                thrown == Some(FailureMessage(response, ArchiveFailure))
                && tasks == old(tasks) && archivedTasks == old(archivedTasks)
    {
      loading := true;
      error := None;
      if response.Replied? {
        tasks := Without(tasks, id);
        archivedTasks := [response.payload] + archivedTasks;
        thrown := None;
      } else {
        error := Some(FailureMessage(response, ArchiveFailure));
        thrown := error;
      }
      loading := false;
    }

    /** `unarchiveTask`: the reverse move, from the archived list to the front of the active one. */
    method UnarchiveTask(id: string, response: Exchange<Task>) returns (thrown: Option<string>)
      modifies this
      ensures !loading && error == thrown
      ensures response.Replied? ==>
                && thrown == None
                && archivedTasks == Without(old(archivedTasks), id) && tasks == [response.payload] + old(tasks)
      ensures !response.Replied? ==>
                thrown == Some(FailureMessage(response, UnarchiveFailure))
                && tasks == old(tasks) && archivedTasks == old(archivedTasks)
    {
      loading := true;
      error := None;
      if response.Replied? {
        archivedTasks := Without(archivedTasks, id);
        tasks := [response.payload] + tasks;
        thrown := None;
      } else {
        error := Some(FailureMessage(response, UnarchiveFailure));
        thrown := error;
      }
      loading := false;
    }

    /**
     * `createSubtasks` and `createFollowups`: no local edit; after a successful request the active
     * list is refetched (whose own failure is only recorded), otherwise the failure is stored and
     * rethrown. `notOk` is the request's own failure message.
     */
    method GenerateThenRefetch(response: Exchange<()>, refetch: Exchange<Option<seq<Task>>>, notOk: string)
      returns (thrown: Option<string>)
      modifies this
      ensures !loading && archivedTasks == old(archivedTasks)
      ensures response.Replied? ==>
                && thrown == None
                && (refetch.Replied? ==>
                      error == None && tasks == (if refetch.payload.Some? then refetch.payload.value else []))
                && (!refetch.Replied? ==> error == Some(FailureMessage(refetch, FetchFailure)) && tasks == old(tasks))
      ensures !response.Replied? ==>
                thrown == Some(FailureMessage(response, notOk)) && error == thrown && tasks == old(tasks)
    {
      loading := true;
      error := None;
      if response.Replied? {
        FetchTasks(refetch);
        thrown := None;
      } else {
        error := Some(FailureMessage(response, notOk));
        thrown := error;
      }
      loading := false;
    }

    /** `createSubtasks`. */
    method CreateSubtasks(response: Exchange<()>, refetch: Exchange<Option<seq<Task>>>) returns (thrown: Option<string>)
      modifies this
      ensures !loading && archivedTasks == old(archivedTasks)
      ensures response.Replied? ==>
                && thrown == None
                && (refetch.Replied? ==>
                      error == None && tasks == (if refetch.payload.Some? then refetch.payload.value else []))
                && (!refetch.Replied? ==> error == Some(FailureMessage(refetch, FetchFailure)) && tasks == old(tasks))
      ensures !response.Replied? ==>
                thrown == Some(FailureMessage(response, SubtasksFailure)) && error == thrown && tasks == old(tasks)
    {
      thrown := GenerateThenRefetch(response, refetch, SubtasksFailure);
    }

    /** `createFollowups`. */
    method CreateFollowups(response: Exchange<()>, refetch: Exchange<Option<seq<Task>>>) returns (thrown: Option<string>)
      modifies this
      ensures !loading && archivedTasks == old(archivedTasks)
      ensures response.Replied? ==>
                && thrown == None
                && (refetch.Replied? ==>
                      error == None && tasks == (if refetch.payload.Some? then refetch.payload.value else []))
                && (!refetch.Replied? ==> error == Some(FailureMessage(refetch, FetchFailure)) && tasks == old(tasks))
      ensures !response.Replied? ==>
                thrown == Some(FailureMessage(response, FollowupsFailure)) && error == thrown && tasks == old(tasks)
    {
      thrown := GenerateThenRefetch(response, refetch, FollowupsFailure);
    }
  }

  /**
   * Archiving moves a task: afterwards no active task has the id and the archived list starts
   * with the server's copy; unarchiving it again puts that copy back at the front of the active
   * list and leaves no archived task with the id.
   */
  lemma ArchiveRoundTrip(active: seq<Task>, archived: seq<Task>, id: string, t: Task)
    requires t.id == id && forall u | u in archived :: u.id != id
    ensures forall u | u in Without(active, id) :: u.id != id
    ensures Without([t] + archived, id) == archived
  {
    assert ([t] + archived)[1..] == archived;
    AbsentIdChangesNothing(archived, id, t);
  }
}
