/** The registry of scan tasks of the multi-user backend (backend.py,
    `scan_tasks` and the operations of start_scan, get_task_status,
    delete_task, get_stats, scan_network_thread's lookup and one pass of
    cleanup_old_tasks). The lock around each operation is not modelled:
    every operation is one sequential step. Times are integer microseconds;
    task ids are inputs. */
module Registry {
  import opened Base
  import opened Scan
  import opened Tasks

  const DefaultNetwork: string := "10.16.65.0/24"
  const DefaultPort: int := 7890
  const DefaultThreads: int := 50

  /** A task older than this and not scanning is swept: one hour. */
  const MaxAge: int := 3600 * 1000000

  const BadRequestPrefix: string := "参数错误: "
  const PortRangeMessage: string := "端口号必须在1-65535之间"

  /** The fields of a scan request's JSON body; an absent field is `None`. */
  datatype ScanRequest = ScanRequest(
    network: Option<string>,
    port: Option<int>,
    threads: Option<int>,
    checkProxyQuality: Option<bool>)

  /** The reply of start_scan: the created task, or a 400 error message. */
  datatype CreateOutcome = Created(task: ScanTask) | Rejected(message: string)

  /** The reply of delete_task: removed, 404, or refused with 400. */
  datatype DeleteOutcome = Deleted | NotFound | StillScanning

  predicate ValidPort(port: int) { 1 <= port <= 65535 }

  /** A task the sweep removes: not scanning and older than an hour. */
  predicate Expired(t: ScanTask, now: int)
    reads t
  {
    !t.isScanning && now - t.createdAt > MaxAge
  }

  class TaskRegistry {
    var tasks: map<string, ScanTask>

    /** Every task is stored under its own id. */
    predicate Valid()
      reads this
    {
      forall id :: id in tasks ==> tasks[id].taskId == id
    }

    constructor ()
      ensures tasks == map[] && Valid()
    {
      tasks := map[];
    }

    /** The entries the sweep keeps. */
    function Survivors(now: int): (m: map<string, ScanTask>)
      reads this, tasks.Values
      ensures m.Keys <= tasks.Keys
      ensures forall id :: id in m ==> m[id] == tasks[id]
      ensures forall id :: id in tasks ==> (id in m <==> !Expired(tasks[id], now))
    {
      map id | id in tasks && !Expired(tasks[id], now) :: tasks[id]
    }

    function ActiveIds(): set<string>
      reads this, tasks.Values
    {
      set id | id in tasks && tasks[id].isScanning
    }

    function CompletedIds(): set<string>
      reads this, tasks.Values
    {
      set id | id in tasks && !tasks[id].isScanning && tasks[id].endTime.Some?
    }

    /** start_scan: applies the defaults, checks that the network parses,
        then that the port is in range, and only then stores a new pristine
        task under the fresh id `id`. */
    method Create(w: World, req: ScanRequest, id: string, now: int) returns (r: CreateOutcome)
      requires Valid()
      modifies this
      ensures Valid()
      ensures var network := OrElse(req.network, DefaultNetwork);
        w.parse(network).Invalid? ==> r == Rejected(BadRequestPrefix + w.parse(network).message) && tasks == old(tasks)
      ensures var network := OrElse(req.network, DefaultNetwork);
        w.parse(network).Parsed? && !ValidPort(OrElse(req.port, DefaultPort)) ==>
          r == Rejected(PortRangeMessage) && tasks == old(tasks)
      ensures r.Created? <==> w.parse(OrElse(req.network, DefaultNetwork)).Parsed? && ValidPort(OrElse(req.port, DefaultPort))
      ensures r.Created? ==>
        && fresh(r.task) && tasks == old(tasks)[id := r.task] && r.task.Pristine()
        && r.task.taskId == id && r.task.createdAt == now
        && r.task.network == OrElse(req.network, DefaultNetwork)
        && r.task.port == OrElse(req.port, DefaultPort)
        && r.task.threads == OrElse(req.threads, DefaultThreads)
        && r.task.checkProxyQuality == OrElse(req.checkProxyQuality, false)
    {
      var network := OrElse(req.network, DefaultNetwork);
      var port := OrElse(req.port, DefaultPort);
      var threads := OrElse(req.threads, DefaultThreads);
      var check := OrElse(req.checkProxyQuality, false);
      var parsed := w.parse(network);
      if parsed.Invalid? {
        return Rejected(BadRequestPrefix + parsed.message);
      }
      if !(1 <= port <= 65535) {
        return Rejected(PortRangeMessage);
      }
      var task := new ScanTask(id, network, port, threads, check, now);
      tasks := tasks[id := task];
      r := Created(task);
    }

    /** get_task_status: the scan task stored under `id`, if any. */
    method Get(id: string) returns (r: Option<ScanTask>)
      requires Valid()
      ensures r.Some? <==> id in tasks
      ensures r.Some? ==> r.value == tasks[id] && r.value.taskId == id
    {
      if id in tasks {
        r := Some(tasks[id]);
      } else {
        r := None;
      }
    }

    /** delete_task: an unknown id and a task still scanning are refused
        with the registry unchanged; otherwise exactly that entry goes. */
    method Delete(id: string) returns (r: DeleteOutcome)
      requires Valid()
      modifies this
      ensures Valid()
      ensures r == NotFound <==> id !in old(tasks)
      ensures r == StillScanning <==> id in old(tasks) && old(tasks)[id].isScanning
      ensures r == Deleted ==> tasks == old(tasks) - {id}
      ensures r != Deleted ==> tasks == old(tasks)
    {
      if id !in tasks {
        return NotFound;
      }
      var task := tasks[id];
      if task.isScanning {
        return StillScanning;
      }
      tasks := tasks - {id};
      r := Deleted;
    }

    /** One pass of cleanup_old_tasks: collects the ids of the expired
        tasks, then deletes them; every other entry is kept as it was. */
    method Sweep(now: int)
      requires Valid()
      modifies this
      ensures Valid()
      ensures tasks == old(Survivors(now))
    {
      var toRemove: seq<string> := [];
      var pending := tasks.Keys;
      while pending != {}
        invariant pending <= tasks.Keys
        invariant tasks == old(tasks)
        invariant forall id :: id in toRemove <==> id in tasks && id !in pending && Expired(tasks[id], now)
        decreases pending
      {
        var id :| id in pending;
        var task := tasks[id];
        if !task.isScanning {
          var age := now - task.createdAt;
          if age > MaxAge {
            toRemove := toRemove + [id];
          }
        }
        pending := pending - {id};
      }
      ghost var keep := Survivors(now);
      var k := 0;
      while k < |toRemove|
        invariant 0 <= k <= |toRemove|
        invariant tasks.Keys == old(tasks).Keys - set j | 0 <= j < k :: toRemove[j]
        invariant forall id :: id in tasks ==> tasks[id] == old(tasks)[id]
      {
        tasks := tasks - {toRemove[k]};
        k := k + 1;
      }
      assert tasks.Keys == keep.Keys by {
        forall id | id in old(tasks) ensures id in tasks <==> id in keep {
          if id in toRemove {
            var j :| 0 <= j < |toRemove| && toRemove[j] == id;
          }
        }
      }
    }

    /** get_stats: the number of tasks, of tasks scanning, and of tasks
        that finished; no task is both scanning and finished. */
    method Stats() returns (total: nat, active: nat, completed: nat)
      ensures total == |tasks|
      ensures active == |ActiveIds()| && completed == |CompletedIds()|
      ensures active + completed <= total
    {
      total := |tasks|;
      active := 0;
      completed := 0;
      var pending := tasks.Keys;
      while pending != {}
        invariant pending <= tasks.Keys
        invariant active == |set id | id in tasks && id !in pending && tasks[id].isScanning|
        invariant completed == |set id | id in tasks && id !in pending && !tasks[id].isScanning && tasks[id].endTime.Some?|
        decreases pending
      {
        var id :| id in pending;
        var task := tasks[id];
        ghost var a := set i | i in tasks && i !in pending && tasks[i].isScanning;
        ghost var c := set i | i in tasks && i !in pending && !tasks[i].isScanning && tasks[i].endTime.Some?;
        pending := pending - {id};
        if task.isScanning {
          assert (set i | i in tasks && i !in pending && tasks[i].isScanning) == a + {id};
          active := active + 1;
        } else {
          assert (set i | i in tasks && i !in pending && tasks[i].isScanning) == a;
        }
        if !task.isScanning && task.endTime.Some? {
          assert (set i | i in tasks && i !in pending && !tasks[i].isScanning && tasks[i].endTime.Some?) == c + {id};
          completed := completed + 1;
        } else {
          assert (set i | i in tasks && i !in pending && !tasks[i].isScanning && tasks[i].endTime.Some?) == c;
        }
      }
      assert ActiveIds() == set id | id in tasks && id !in pending && tasks[id].isScanning;
      assert CompletedIds() == set id | id in tasks && id !in pending && !tasks[id].isScanning && tasks[id].endTime.Some?;
      DisjointWithin(ActiveIds(), CompletedIds(), tasks.Keys);
    }

    /** scan_network_thread: a task missing from the registry is not run;
        otherwise that task, and no other, runs its scan. */
    method Launch(w: World, id: string, startedAt: int, endedAt: int) returns (ran: bool)
      requires Valid()
      modifies tasks.Values
      ensures ran <==> id in tasks
      ensures ran ==> !tasks[id].isScanning && tasks[id].startTime == Some(startedAt) && tasks[id].endTime == Some(endedAt)
      ensures ran ==> (tasks[id].total ==
        (if w.parse(tasks[id].network).Parsed? then w.parse(tasks[id].network).net.numAddresses else old(tasks[id].total)))
      ensures ran ==> tasks[id].scanned == old(tasks[id].scanned) + |tasks[id].ScannedHosts(w)|
      ensures ran ==> (tasks[id].progress ==
        (if tasks[id].ScannedHosts(w) == [] then old(tasks[id].progress) else Percent(tasks[id].scanned, tasks[id].total)))
      ensures ran ==> tasks[id].results == FinalOrder(tasks[id].checkProxyQuality, old(tasks[id].results) + tasks[id].Found(w))
      ensures ran ==> tasks[id].error == (if tasks[id].Failure(w).Some? then tasks[id].Failure(w) else old(tasks[id].error))
      ensures forall other :: other in tasks && other != id ==> unchanged(tasks[other])
    {
      if id !in tasks {
        return false;
      }
      var task := tasks[id];
      task.Run(w, startedAt, endedAt);
      ran := true;
    }
  }

  /** Two disjoint parts of a set are together no larger than it. */
  lemma DisjointWithin<T>(a: set<T>, b: set<T>, c: set<T>)
    requires a !! b && a <= c && b <= c
    ensures |a| + |b| <= |c|
  {
    var both := a + b;
    assert |both| == |a| + |b|;
    assert c == both + (c - both);
    assert |c| == |both| + |c - both|;
  }
}
