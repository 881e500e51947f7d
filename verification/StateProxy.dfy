/** The durable scheduler state and the driver, as the scheduler's callbacks see them. */
module StateProxies {
  import opened Types
  import opened Launching
  import opened Reactions

  /** The variable kept in ZooKeeper; it outlives the scheduler process. */
  class DurableCell {
    var value: Persistent

    constructor (v: Persistent)
      ensures value == v
    {
      value := v;
    }
  }

  class SchedulerStateProxy {
    const cell: DurableCell
    var data: Persistent

    /** What is in memory is what has been stored. */
    ghost predicate Valid()
      reads this, cell
    {
      data == cell.value
    }

    /** Starts from whatever the cell holds, so a restart sees the last values written. */
    constructor (cell: DurableCell)
      ensures Valid() && this.cell == cell && data == cell.value
    {
      this.cell := cell;
      this.data := cell.value;
    }

    method WriteBack()
      modifies cell
      ensures Valid()
    {
      cell.value := data;
    }

    method SetFrameworkId(id: string)
      modifies this, cell
      ensures Valid() && data == old(data).(frameworkId := id)
    {
      data := data.(frameworkId := id);
      WriteBack();
    }

    method SetTargetVersion(version: string)
      modifies this, cell
      ensures Valid() && data == old(data).(targetVersion := version)
    {
      data := data.(targetVersion := version);
      WriteBack();
    }

    method Erase()
      modifies this, cell
      ensures Valid() && data == Persistent("", "")
    {
      data := Persistent("", "");
      WriteBack();
    }
  }

  /** The Mesos scheduler driver: a log of the calls made on it. */
  class SchedulerDriver {
    var calls: seq<DriverCall>

    constructor ()
      ensures calls == []
    {
      calls := [];
    }

    method Decline(offerId: string)
      modifies this
      ensures calls == old(calls) + [DeclineOffer(offerId)]
    {
      calls := calls + [DeclineOffer(offerId)];
    }

    method Launch(offerId: string, tasks: seq<TaskInfo>)
      modifies this
      ensures calls == old(calls) + [LaunchTasks(offerId, tasks)]
    {
      calls := calls + [LaunchTasks(offerId, tasks)];
    }

    method Kill(taskId: string)
      modifies this
      ensures calls == old(calls) + [KillTask(taskId)]
    {
      calls := calls + [KillTask(taskId)];
    }

    method SendFrameworkMessage(slaveId: string, clientDirectory: string)
      modifies this
      ensures calls == old(calls) + [SendProbeRequest(slaveId, clientDirectory)]
    {
      calls := calls + [SendProbeRequest(slaveId, clientDirectory)];
    }

    method Reconcile(taskIds: seq<string>)
      modifies this
      ensures calls == old(calls) + [ReconcileTasks(taskIds)]
    {
      calls := calls + [ReconcileTasks(taskIds)];
    }
  }
}
