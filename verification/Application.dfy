/**
 The sections of the application and of its tasks that run under one lock, as they update their fields.
 Each refines one step of the protocol.
 */
module Applications {
  import opened Options
  import opened Lifecycle
  import P = Protocol

  class Task {
    const placeholder: bool
    var sm: TaskState
    var allocationKey: string
    var nodeName: string

    ghost function View(): P.Task
      reads this
    {
      P.Task(placeholder, sm, allocationKey, nodeName)
    }

    constructor (placeholder: bool)
      ensures View() == P.NewTask(placeholder)
    {
      this.placeholder := placeholder;
      sm, allocationKey, nodeName := TNew, "", "";
    }

    /** The state is set before the lock is taken for the fields. */
    method MarkState(key: string, node: string)
      modifies this`sm
      ensures View() == P.Advance(old(View()), P.Assumed(key, node), true, P.MarkState).task
    {
      sm := TBound;
    }

    method MarkFields(key: string, node: string)
      modifies this`allocationKey, this`nodeName
      ensures View() == P.Advance(old(View()), P.Marking(key, node), true, P.MarkFields).task
    {
      allocationKey := key;
      nodeName := node;
    }

    /** Handles TaskAllocated: tells whether the pod is to be bound, and whether the allocation is to be released. */
    method HandleAllocated(key: string, node: string) returns (binds: bool, releases: bool)
      modifies this
      ensures var o := P.Advance(old(View()), P.Queued(key, node), true, P.Deliver);
              View() == o.task && releases == o.releases && binds == o.work.Some?
    {
      binds, releases := false, false;
      var dst := TaskNext(sm, TaskAllocated);
      if dst.None? { return; }
      allocationKey := key;
      nodeName := node;
      if sm == TCompleted {
        releases := true;
      } else {
        sm := dst.value;
        binds := true;
      }
    }

    method RollbackOnAssumePodFailure(key: string, node: string)
      modifies this`allocationKey, this`nodeName
      ensures View() == P.Cleared(old(View()))
      ensures !placeholder ==> View() == P.Advance(old(View()), P.AssumeFailed(key, node), true, P.CallFails).task
    {
      allocationKey := "";
      nodeName := "";
    }

    method RescheduleOnBindFailure(key: string, node: string)
      modifies this
      ensures View() == P.Advance(old(View()), P.Binding(key, node), true, P.BindFails).task
    {
      if sm != TScheduling {
        sm := TScheduling;
      }
      allocationKey := "";
      nodeName := "";
    }
  }

  /** The tasks that are still to be looked at or have not ended. */
  ghost function Unfinished(tasks: map<P.Id, P.Task>, todo: set<P.Id>): map<P.Id, P.Task> {
    map t | t in tasks && (t in todo || !Terminated(tasks[t].state)) :: tasks[t]
  }

  lemma UnfinishedStep(tasks: map<P.Id, P.Task>, todo: set<P.Id>, t: P.Id)
    requires t in tasks && t !in todo
    ensures Unfinished(tasks, todo)
         == if Terminated(tasks[t].state) then Unfinished(tasks, todo + {t}) - {t} else Unfinished(tasks, todo + {t})
  {
  }

  lemma RunMore(w: P.World, steps: seq<P.Step>, s: P.Step)
    ensures P.Run(w, steps + [s]) == P.Next(P.Run(w, steps), s)
  {
    assert (steps + [s])[..|steps|] == steps;
  }

  class Application {
    var sm: AppState
    var releaseableTasks: seq<P.Id>
    var taskMap: map<P.Id, P.Task>
    var requests: seq<P.Request>
    ghost var world: P.World

    ghost predicate Valid()
      reads this
    {
      && world.app == sm
      && world.releaseable == releaseableTasks
      && world.log == requests
      && world.listed == taskMap.Keys
      && forall t :: t in taskMap ==> t in world.tasks && world.tasks[t] == taskMap[t]
    }

    constructor ()
      ensures Valid() && world == P.START
    {
      sm, releaseableTasks, taskMap, requests := New, [], map[], [];
      world := P.START;
    }

    /** Tells whether the release has to wait. */
    method TryAddReleasableTask(t: P.Id) returns (recorded: bool)
      requires Valid()
      modifies this
      ensures Valid() && world == P.TryAdd(old(world), t) && recorded == P.Unaccepted(old(sm))
    {
      if sm == New || sm == Submitted {
        for i := 0 to |releaseableTasks|
          invariant t !in releaseableTasks[..i]
        {
          if releaseableTasks[i] == t { return true; }
        }
        assert releaseableTasks[..|releaseableTasks|] == releaseableTasks;
        releaseableTasks := releaseableTasks + [t];
        world := P.TryAdd(world, t);
        return true;
      }
      return false;
    }

    method AreAllTasksTerminated() returns (all: bool)
      requires Valid()
      ensures all == P.AllTerminated(world.tasks, world.listed)
    {
      var todo := taskMap.Keys;
      while todo != {}
        invariant todo <= taskMap.Keys
        invariant forall t :: t in taskMap && t !in todo ==> Terminated(taskMap[t].state)
        decreases todo
      {
        var t :| t in todo;
        if !Terminated(taskMap[t].state) { return false; }
        todo := todo - {t};
      }
      return true;
    }

    method AddTask(t: P.Id, placeholder: bool)
      requires Valid() && (t in taskMap || (t !in world.work && t !in world.releasing))
      modifies this
      ensures Valid() && world == P.TaskNextWorld(old(world), t, P.Add(placeholder))
    {
      if t in taskMap { return; }
      taskMap := taskMap[t := P.NewTask(placeholder)];
      world := P.TaskNextWorld(world, t, P.Add(placeholder));
    }

    /** An event of a task that is handled under its own lock from beginning to end. */
    method HandleTask(t: P.Id, e: TaskEvent)
      requires Valid() && t in taskMap && t !in world.releasing
      requires e in {SubmitTask, TaskBound, KillTask, TaskKilled, TaskRejected}
      modifies this
      ensures Valid() && world == P.TaskNextWorld(old(world), t, P.Handle(e))
    {
      var dst := TaskNext(taskMap[t].state, e);
      if dst.Some? {
        taskMap := taskMap[t := taskMap[t].(state := dst.value)];
        world := P.HandleTask(world, t, e);
      }
    }

    method RemoveTask(t: P.Id)
      requires Valid() && t in taskMap && Terminated(taskMap[t].state)
      modifies this
      ensures Valid() && taskMap == old(taskMap) - {t} && world == P.TaskNextWorld(old(world), t, P.Remove)
    {
      taskMap := taskMap - {t};
      world := P.TaskNextWorld(world, t, P.Remove);
    }

    /** Takes the tasks that have ended out of the map while walking it: a run of removals. */
    method RemoveCompletedTasks() returns (ghost steps: seq<P.Step>)
      requires Valid()
      modifies this
      ensures Valid() && world == P.Run(old(world), steps) && forall s :: s in steps ==> s.TaskStep? && s.action.Remove?
      ensures taskMap == map t | t in old(taskMap) && !Terminated(old(taskMap)[t].state) :: old(taskMap)[t]
    {
      steps := [];
      var todo := taskMap.Keys;
      while todo != {}
        invariant todo <= taskMap.Keys
        invariant Valid() && world == P.Run(old(world), steps)
        invariant forall s :: s in steps ==> s.TaskStep? && s.action.Remove?
        invariant taskMap == Unfinished(old(taskMap), todo)
        decreases todo
      {
        var t :| t in todo;
        todo := todo - {t};
        UnfinishedStep(old(taskMap), todo, t);
        if Terminated(taskMap[t].state) {
          RunMore(old(world), steps, P.TaskStep(t, P.Remove));
          steps := steps + [P.TaskStep(t, P.Remove)];
          RemoveTask(t);
        }
      }
    }

    method ClearReleaseableTasks()
      requires Valid()
      modifies this
      ensures Valid() && world == P.Clear(old(world))
    {
      releaseableTasks := [];
      world := P.Clear(world);
    }

    method FlushReleaseableTasks()
      requires Valid()
      modifies this
      ensures Valid() && world == P.Flush(old(world))
    {
      if |releaseableTasks| == 0 { return; }
      var tasks := releaseableTasks;
      var allTerminated := AreAllTasksTerminated();
      world := P.Flush(world);
      releaseableTasks := [];
      if allTerminated {
        requests := requests + [P.RemoveApplication];
        return;
      }
      for i := 0 to |tasks|
        modifies this`requests
        invariant requests == old(requests) + P.ForcedReleases(tasks, sm)[..i]
      {
        requests := requests + [P.Release(tasks[i], true, sm)];
      }
    }

    method Handle(e: AppEvent)
      requires Valid()
      modifies this
      ensures Valid() && world == P.HandleApp(old(world), e)
    {
      var dst := AppNext(sm, e);
      if dst.None? { return; }
      sm := dst.value;
      world := world.(app := dst.value, reached := world.reached + {dst.value});
      match e
      case AcceptApplication => FlushReleaseableTasks();
      case RejectApplication => ClearReleaseableTasks();
      case FailApplication => ClearReleaseableTasks();
      case _ =>
    }
  }
}
