/** The trailing-edge debouncer (rotary/snapcast-volume-rotary.py, lines 29-49).
    Each `trigger` cancels the task it created last and creates a new one; a
    task that wakes up after its delay runs the callback unless it was
    cancelled. Time is abstract: a task waking up is an explicit `Fire` event
    naming the task, and the delay itself is not modelled. Tasks are named by
    the order in which they were created. */
module Debounce {
  import opened Wrappers

  /** The debouncer as the event loop sees it: the task held in `_task`, the
      tasks still waiting to run the callback (created, neither cancelled nor
      finished) and the number of tasks created so far. */
  datatype Schedule = Schedule(task: Option<nat>, live: set<nat>, issued: nat)

  /** Only the task in `_task` can still be waiting, and every task named was
      created. */
  predicate WellFormed(d: Schedule) {
    && d.live <= (if d.task.Some? then {d.task.value} else {})
    && (d.task.Some? ==> d.task.value < d.issued)
  }

  /** A debouncer with no task yet (line 35). */
  const Idle := Schedule(None, {}, 0)

  /** `trigger` (lines 37-41): cancel the task in `_task`, if any, then create
      the next task and keep it in `_task`. The new task is the only one left
      waiting. */
  function Triggered(d: Schedule): (r: Schedule)
    requires WellFormed(d)
    ensures WellFormed(r)
    ensures r.task == Some(d.issued) && r.live == {d.issued} && r.issued == d.issued + 1
  {
    var live := if d.task.Some? then d.live - {d.task.value} else d.live;
    Schedule(Some(d.issued), live + {d.issued}, d.issued + 1)
  }

  /** Task `t` wakes up (lines 43-49): the callback runs exactly when the task
      is still waiting, and the task is then finished. A cancelled or finished
      task runs nothing. */
  function Fired(d: Schedule, t: nat): (r: (Schedule, bool))
    requires WellFormed(d)
    ensures WellFormed(r.0)
    ensures r.1 <==> t in d.live
    ensures r.0.live == d.live - {t} && r.0.task == d.task && r.0.issued == d.issued
  {
    if t in d.live then (d.(live := d.live - {t}), true) else (d, false)
  }

  /** `n` triggers in a row. After a burst, only the last task created is waiting,
      and every earlier one (including one pending before the burst) is
      cancelled. */
  function TriggeredN(d: Schedule, n: nat): (r: Schedule)
    requires WellFormed(d)
    ensures WellFormed(r)
    ensures r.issued == d.issued + n
    ensures n > 0 ==> r.task == Some(d.issued + n - 1) && r.live == {d.issued + n - 1}
    decreases n
  {
    if n == 0 then d else TriggeredN(Triggered(d), n - 1)
  }

  /** The number of callbacks run when the tasks `ts` wake up in that order. */
  function Callbacks(d: Schedule, ts: seq<nat>): nat
    requires WellFormed(d)
    decreases |ts|
  {
    if ts == [] then 0
    else
      var (d', ran) := Fired(d, ts[0]);
      (if ran then 1 else 0) + Callbacks(d', ts[1..])
  }

  /** At most one callback runs, however the tasks wake up, and one runs
      exactly when a waiting task is among those that wake. */
  lemma {:induction false} AtMostOneCallback(d: Schedule, ts: seq<nat>)
    requires WellFormed(d)
    ensures Callbacks(d, ts) <= 1
    ensures Callbacks(d, ts) == 1 <==> exists k :: 0 <= k < |ts| && ts[k] in d.live
    decreases |ts|
  {
    if ts != [] {
      var (d', ran) := Fired(d, ts[0]);
      AtMostOneCallback(d', ts[1..]);
      if ran {
        assert d'.live == {};
        NothingWaitingNoCallback(d', ts[1..]);
      } else {
        assert d'.live == d.live;
        if exists k :: 0 <= k < |ts| && ts[k] in d.live {
          var k :| 0 <= k < |ts| && ts[k] in d.live;
          assert k > 0 && ts[1..][k - 1] in d'.live;
        }
        if exists k :: 0 <= k < |ts| - 1 && ts[1..][k] in d'.live {
          var k :| 0 <= k < |ts| - 1 && ts[1..][k] in d'.live;
          assert ts[k + 1] in d.live;
        }
      }
    }
  }

  lemma {:induction false} NothingWaitingNoCallback(d: Schedule, ts: seq<nat>)
    requires WellFormed(d) && d.live == {}
    ensures Callbacks(d, ts) == 0
    decreases |ts|
  {
    if ts != [] {
      NothingWaitingNoCallback(Fired(d, ts[0]).0, ts[1..]);
    }
  }

  /** A burst of `n` rotations followed by the wake-up of tasks `ts` runs the
      callback exactly once if the burst's last task is among them, and never
      otherwise: the cancelled tasks contribute nothing. */
  lemma BurstRunsCallbackOnce(d: Schedule, n: nat, ts: seq<nat>)
    requires WellFormed(d) && n > 0
    ensures Callbacks(TriggeredN(d, n), ts) == if d.issued + n - 1 in ts then 1 else 0
  {
    AtMostOneCallback(TriggeredN(d, n), ts);
    if d.issued + n - 1 in ts {
      var k :| 0 <= k < |ts| && ts[k] == d.issued + n - 1;
      assert ts[k] in TriggeredN(d, n).live;
    }
  }

  /** A task cancelled by a trigger never runs the callback afterwards. */
  lemma CancelledNeverFires(d: Schedule, t: nat)
    requires WellFormed(d) && t < d.issued
    ensures !Fired(Triggered(d), t).1
  {
  }

  /** The debouncer object: `_task` and the run state of the tasks it created.
      `_loop`, `_delay` and `_callback` are not fields here: the loop is the
      caller, the delay is abstracted into `Fire` events and the callback is
      run by the caller when `Fire` says so. */
  class Debouncer {
    var task: Option<nat>
    var live: set<nat>
    var issued: nat

    function Model(): Schedule
      reads this
    {
      Schedule(task, live, issued)
    }

    ghost predicate Valid()
      reads this
    {
      WellFormed(Model())
    }

    constructor ()
      ensures Valid() && Model() == Idle
    {
      task := None;
      live := {};
      issued := 0;
    }

    /** `trigger`; returns the task it created. */
    method Trigger() returns (t: nat)
      requires Valid()
      modifies this
      ensures Valid()
      ensures Model() == Triggered(old(Model())) && t == old(issued)
    {
      if task.Some? {
        live := live - {task.value};
      }
      t := issued;
      issued := issued + 1;
      live := live + {t};
      task := Some(t);
    }

    /** Task `t` wakes up; `run` says whether it runs the callback. */
    method Fire(t: nat) returns (run: bool)
      requires Valid()
      modifies this
      ensures Valid()
      ensures (Model(), run) == Fired(old(Model()), t)
    {
      run := t in live;
      if run {
        live := live - {t};
      }
    }
  }
}
