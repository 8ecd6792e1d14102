/** The dedup table of `database.py`: a SQLite table whose `project_id`
    column is `UNIQUE` and written with `INSERT OR IGNORE`, so it holds a
    set of job ids. */
module Database {

  class DedupStore {
    var ids: set<string>

    /** A freshly created table is empty. */
    constructor ()
      ensures ids == {}
    {
      ids := {};
    }

    /** `project_id_exists`. */
    predicate Exists(id: string)
      reads this
    {
      id in ids
    }

    /** `store_project_keys`: afterwards the id exists, storing an id that
        is already there changes nothing, and no other id changes. */
    method Store(id: string)
      modifies this
      ensures Exists(id)
      ensures old(Exists(id)) ==> ids == old(ids)
      ensures forall other :: other != id ==> (Exists(other) <==> old(Exists(other)))
      ensures ids == old(ids) + {id}
    {
      ids := ids + {id};
    }

    /** `delete_project_by_id`: afterwards the id is gone and no other id
        changes. */
    method Delete(id: string)
      modifies this
      ensures !Exists(id)
      ensures forall other :: other != id ==> (Exists(other) <==> old(Exists(other)))
      ensures ids == old(ids) - {id}
    {
      ids := ids - {id};
    }

    /** `get_all_project_ids`: every stored id exactly once and nothing
        else, in an order the table does not fix. */
    method AllIds() returns (r: seq<string>)
      ensures forall x :: x in r <==> x in ids
      ensures forall i, j :: 0 <= i < j < |r| ==> r[i] != r[j]
      ensures |r| == |ids|
    {
      var rest := ids;
      r := [];
      while rest != {}
        invariant rest <= ids
        invariant forall x :: x in r <==> x in ids && x !in rest
        invariant forall i, j :: 0 <= i < j < |r| ==> r[i] != r[j]
        invariant |r| + |rest| == |ids|
        decreases rest
      {
        var x :| x in rest;
        r := r + [x];
        rest := rest - {x};
      }
    }
  }
}
