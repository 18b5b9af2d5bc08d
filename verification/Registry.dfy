/**
 The worker registry: heartbeats, tracked tasks and eviction of silent workers.
 */
module Registry {
  import opened Tasks

  const HEARTBEAT_TIMEOUT: real := 6.0
  const TICK: real := 2.0

  datatype WorkerInfo = WorkerInfo(lastHeartbeat: real, tracked: set<TaskId>)

  datatype Workers = Workers(info: map<WorkerId, WorkerInfo>, evictions: nat, reassigned: nat)

  const NoWorkers: Workers := Workers(map[], 0, 0)

  /** Registering again forgets what the worker was tracking. */
  function Register(r: Workers, w: WorkerId, now: real): Workers {
    r.(info := r.info[w := WorkerInfo(now, {})])
  }

  function Heartbeat(r: Workers, w: WorkerId, now: real): Workers {
    if w in r.info then r.(info := r.info[w := r.info[w].(lastHeartbeat := now)]) else r
  }

  /** Unregistered workers are silently not tracked. */
  function Assign(r: Workers, w: WorkerId, id: TaskId): Workers {
    if w in r.info then r.(info := r.info[w := r.info[w].(tracked := r.info[w].tracked + {id})]) else r
  }

  function Complete(r: Workers, w: WorkerId, id: TaskId): Workers {
    if w in r.info then r.(info := r.info[w := r.info[w].(tracked := r.info[w].tracked - {id})]) else r
  }

  predicate IsDead(i: WorkerInfo, now: real) {
    now - i.lastHeartbeat > HEARTBEAT_TIMEOUT
  }

  function Dead(r: Workers, now: real): set<WorkerId> {
    set w | w in r.info && IsDead(r.info[w], now)
  }

  /** Tasks tracked by some dead worker. */
  function Orphans(r: Workers, now: real): set<TaskId> {
    set w, id | w in Dead(r, now) && id in r.info[w].tracked :: id
  }

  /** The registry after a tick that handed `requeued` tasks back to their queues. */
  function Evict(r: Workers, now: real, requeued: nat): Workers {
    r.(info := r.info - Dead(r, now),
       evictions := r.evictions + |Dead(r, now)|,
       reassigned := r.reassigned + requeued)
  }
}
