/** `utils.py`: the pending-review store (a JSON list of
    `{id, data, amount}` records) and the interruptible sleep. */
module Utils {
  import opened Wrappers
  import opened Jobs
  import KeyedList

  datatype Project = Project(id: string, data: Job, amount: real)

  function ProjectId(p: Project): string {
    p.id
  }

  class ProjectStore {
    var records: seq<Project>

    ghost predicate Valid()
      reads this
    {
      KeyedList.UniqueKeys(records, ProjectId)
    }

    /** No file yet: `load_projects` gives the empty list. */
    constructor ()
      ensures Valid() && records == []
    {
      records := [];
    }

    /** `add_project`: the record is appended when no record has its id,
        and the list is left as it was otherwise; ids stay unique. */
    method Add(id: string, data: Job, amount: real) returns (added: bool)
      modifies this
      ensures added <==> !KeyedList.HasKey(old(records), ProjectId, id)
      ensures records == if added then old(records) + [Project(id, data, amount)] else old(records)
      ensures old(Valid()) ==> Valid()
    {
      if KeyedList.HasKey(records, ProjectId, id) {
        return false;
      }
      records := records + [Project(id, data, amount)];
      added := true;
    }

    /** `delete_project`: every record with that id goes, the others stay
        in their order. */
    method Delete(id: string)
      modifies this
      ensures records == KeyedList.Remove(old(records), ProjectId, id)
      ensures !KeyedList.HasKey(records, ProjectId, id)
      ensures old(Valid()) ==> Valid()
    {
      if Valid() {
        KeyedList.RemoveKeepsUnique(records, ProjectId, id);
      }
      records := KeyedList.Remove(records, ProjectId, id);
    }

    /** `get_project`: the first record with that id, or `None`. */
    function Get(id: string): (r: Option<Project>)
      reads this
      ensures r.None? <==> !KeyedList.HasKey(records, ProjectId, id)
      ensures r.Some? ==> r.value.id == id && r.value in records
      ensures r.Some? && Valid() ==> forall x :: x in records && x.id == id ==> x == r.value
    {
      KeyedList.Find(records, ProjectId, id)
    }
  }

  /** Python's `int()` on a float: truncation toward zero. */
  function Trunc(x: real): (i: int)
    ensures x >= 0.0 ==> i as real <= x < i as real + 1.0
    ensures x < 0.0 ==> i as real - 1.0 < x <= i as real
  {
    if x >= 0.0 then x.Floor else -((-x).Floor)
  }

  function Min(a: int, b: int): int {
    if a <= b then a else b
  }

  /** The slice lengths an uninterrupted `interruptible_sleep` of `total`
      seconds sleeps, in order. */
  function Schedule(total: int, interval: nat): seq<int>
    requires interval > 0
    decreases total
  {
    if total <= 0 then [] else [Min(interval, total)] + Schedule(total - interval, interval)
  }

  function Sum(s: seq<int>): int {
    if s == [] then 0 else s[0] + Sum(s[1..])
  }

  /** Each slice lasts more than zero and at most `interval` seconds, and
      together they last `total` seconds; none when `total <= 0`. */
  lemma {:induction false} ScheduleAddsUp(total: int, interval: nat)
    requires interval > 0
    ensures var plan := Schedule(total, interval);
      && (forall i :: 0 <= i < |plan| ==> 0 < plan[i] <= interval)
      && Sum(plan) == (if total <= 0 then 0 else total)
      && (total <= 0 <==> plan == [])
    decreases total
  {
    if total > 0 {
      ScheduleAddsUp(total - interval, interval);
    }
  }

  /** `interruptible_sleep(hours, check_interval)`. `shutdownAt(k)` is the
      value of `config.shutdown_flag` when slice `k` is about to start;
      `interrupted` stands for the `KeyboardInterrupt` raised, and the ghost
      `slices` records the slice lengths actually slept. The sleep is
      interrupted exactly when the flag is up at the start of some slice of
      the plan, and then after sleeping the slices before it. */
  method InterruptibleSleep(hours: real, checkInterval: int, shutdownAt: nat -> bool)
    returns (interrupted: bool, ghost slices: seq<int>)
    requires checkInterval > 0
    ensures interrupted <==> exists k :: 0 <= k < |Schedule(Trunc(hours * 3600.0), checkInterval)| && shutdownAt(k)
    ensures var plan := Schedule(Trunc(hours * 3600.0), checkInterval);
      && slices <= plan
      && (interrupted ==> |slices| < |plan| && shutdownAt(|slices|))
      && (!interrupted ==> slices == plan)
      && (forall k :: 0 <= k < |slices| ==> !shutdownAt(k))
  {
    var total := Trunc(hours * 3600.0);
    ghost var plan := Schedule(total, checkInterval);
    var slept := 0;
    var k := 0;
    slices := [];
    while slept < total
      invariant k == |slices|
      invariant slices + Schedule(total - slept, checkInterval) == plan
      invariant forall j :: 0 <= j < k ==> !shutdownAt(j)
      decreases total - slept
    {
      PlanStep(slices, total - slept, checkInterval);
      if shutdownAt(k) {
        assert |slices| < |plan|;
        return true, slices;
      }
      slices := slices + [Min(checkInterval, total - slept)];
      slept := slept + checkInterval;
      k := k + 1;
    }
    assert slices + [] == slices;
    interrupted := false;
  }

  /** What is left of the plan, with `left > 0` seconds still to sleep,
      starts with the next slice. */
  lemma {:induction false} PlanStep(done: seq<int>, left: int, interval: nat)
    requires interval > 0 && left > 0
    ensures var rest := Schedule(left, interval);
      && rest == [Min(interval, left)] + Schedule(left - interval, interval)
      && done + rest == (done + [Min(interval, left)]) + Schedule(left - interval, interval)
  {
  }
}
