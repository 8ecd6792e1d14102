/** Lists of records keyed by a string id, as both JSON stores keep them:
    a list loaded whole, searched for the first record with an id,
    filtered by id, and appended to only when the id is new. `key` picks
    a record's id. */
module KeyedList {
  import opened Wrappers

  predicate HasKey<R>(rs: seq<R>, key: R -> string, id: string) {
    exists i :: 0 <= i < |rs| && key(rs[i]) == id
  }

  /** No two records share an id. */
  predicate UniqueKeys<R>(rs: seq<R>, key: R -> string) {
    forall i, j :: 0 <= i < j < |rs| ==> key(rs[i]) != key(rs[j])
  }

  /** Position of the first record with id `id`, or `|rs|` when there is none. */
  function FirstIndex<R>(rs: seq<R>, key: R -> string, id: string): (i: nat)
    ensures i <= |rs|
    ensures forall j :: 0 <= j < i ==> key(rs[j]) != id
    ensures i < |rs| ==> key(rs[i]) == id
  {
    if rs == [] then 0
    else if key(rs[0]) == id then 0
    else 1 + FirstIndex(rs[1..], key, id)
  }

  /** The first-match search of `get_project`: the earliest record with
      that id, or `None` when no record has it. */
  function Find<R>(rs: seq<R>, key: R -> string, id: string): (r: Option<R>)
    ensures r.None? <==> !HasKey(rs, key, id)
    ensures r.Some? ==> key(r.value) == id
    ensures r.Some? ==> exists i :: 0 <= i < |rs| && rs[i] == r.value && forall j :: 0 <= j < i ==> key(rs[j]) != id
  {
    var i := FirstIndex(rs, key, id);
    if i < |rs| then Some(rs[i]) else None
  }

  /** The comprehension of `delete_project`: the records whose id differs. */
  function Remove<R>(rs: seq<R>, key: R -> string, id: string): (r: seq<R>)
    ensures |r| <= |rs|
    ensures forall i :: 0 <= i < |r| ==> key(r[i]) != id
  {
    if rs == [] then []
    else
      var rest := Remove(rs[1..], key, id);
      if key(rs[0]) == id then rest else [rs[0]] + rest
  }

  /** Removal keeps every record with another id, as many times as it
      occurred. */
  lemma {:induction false} RemoveKeepsOthers<R>(rs: seq<R>, key: R -> string, id: string)
    ensures forall x :: key(x) != id ==> multiset(Remove(rs, key, id))[x] == multiset(rs)[x]
  {
    if rs != [] {
      var rest := Remove(rs[1..], key, id);
      RemoveKeepsOthers(rs[1..], key, id);
      assert rs == [rs[0]] + rs[1..];
      assert multiset(rs) == multiset{rs[0]} + multiset(rs[1..]);
      if key(rs[0]) != id {
        assert multiset([rs[0]] + rest) == multiset{rs[0]} + multiset(rest);
      }
    }
  }

  /** Every record removal keeps was in the list. */
  lemma {:induction false} RemoveSubset<R>(rs: seq<R>, key: R -> string, id: string)
    ensures forall i :: 0 <= i < |Remove(rs, key, id)| ==> Remove(rs, key, id)[i] in rs
  {
    if rs != [] {
      var rest := Remove(rs[1..], key, id);
      RemoveSubset(rs[1..], key, id);
      forall i | 0 <= i < |rest| ensures rest[i] in rs {
        var j :| 0 <= j < |rs[1..]| && rs[1..][j] == rest[i];
        assert rs[j + 1] == rest[i];
      }
    }
  }

  /** The guarded append of `add_project`: `rec` goes at the end unless a
      record with its id is already there. */
  function Insert<R>(rs: seq<R>, key: R -> string, rec: R): seq<R>
  {
    if HasKey(rs, key, key(rec)) then rs else rs + [rec]
  }

  /** Removing distributes over concatenation: what survives keeps its
      order, whichever part it came from. */
  lemma {:induction false} RemoveConcat<R>(a: seq<R>, b: seq<R>, key: R -> string, id: string)
    ensures Remove(a + b, key, id) == Remove(a, key, id) + Remove(b, key, id)
  {
    if a != [] {
      assert (a + b)[1..] == a[1..] + b;
      RemoveConcat(a[1..], b, key, id);
    } else {
      assert a + b == b;
    }
  }

  /** Removing an id no record has changes nothing. */
  lemma {:induction false} RemoveAbsent<R>(rs: seq<R>, key: R -> string, id: string)
    requires !HasKey(rs, key, id)
    ensures Remove(rs, key, id) == rs
  {
    if rs != [] {
      assert key(rs[0]) != id;
      assert !HasKey(rs[1..], key, id) by {
        forall i | 0 <= i < |rs| - 1 ensures key(rs[1..][i]) != id {
          assert rs[1..][i] == rs[i + 1];
        }
      }
      RemoveAbsent(rs[1..], key, id);
    }
  }

  /** After removal the id is gone and nothing else is found differently. */
  lemma {:induction false} RemoveThenFind<R>(rs: seq<R>, key: R -> string, id: string, other: string)
    requires UniqueKeys(rs, key) && other != id
    ensures Find(Remove(rs, key, id), key, id).None?
    ensures Find(Remove(rs, key, id), key, other) == Find(rs, key, other)
  {
    var r := Remove(rs, key, id);
    var f := Find(rs, key, other);
    if f.Some? {
      var x := f.value;
      RemoveKeepsOthers(rs, key, id);
      assert multiset(r)[x] == multiset(rs)[x];
      assert x in r;
      RemoveKeepsUnique(rs, key, id);
      UniqueFind(r, key, x);
      UniqueFind(rs, key, x);
    } else {
      RemoveSubset(rs, key, id);
      forall i | 0 <= i < |r| ensures key(r[i]) != other {
        var j :| 0 <= j < |rs| && rs[j] == r[i];
      }
    }
  }

  /** In a list with unique ids, the record found for an id is the one
      record with that id. */
  lemma {:induction false} UniqueFind<R>(rs: seq<R>, key: R -> string, x: R)
    requires UniqueKeys(rs, key) && x in rs
    ensures Find(rs, key, key(x)) == Some(x)
  {
    var i :| 0 <= i < |rs| && rs[i] == x;
    var f := FirstIndex(rs, key, key(x));
    assert f <= i;
    assert f == i;
  }

  /** Removal keeps the ids unique. */
  lemma {:induction false} RemoveKeepsUnique<R>(rs: seq<R>, key: R -> string, id: string)
    requires UniqueKeys(rs, key)
    ensures UniqueKeys(Remove(rs, key, id), key)
  {
    if rs != [] {
      var rest := Remove(rs[1..], key, id);
      assert UniqueKeys(rs[1..], key) by {
        forall i, j | 0 <= i < j < |rs| - 1 ensures key(rs[1..][i]) != key(rs[1..][j]) {
          assert rs[1..][i] == rs[i + 1] && rs[1..][j] == rs[j + 1];
        }
      }
      RemoveKeepsUnique(rs[1..], key, id);
      if key(rs[0]) != id {
        RemoveSubset(rs[1..], key, id);
        forall k | 0 <= k < |rest| ensures key(rest[k]) != key(rs[0]) {
          var j :| 0 <= j < |rs[1..]| && rs[1..][j] == rest[k];
          assert rs[1..][j] == rs[j + 1];
        }
        assert ([rs[0]] + rest)[1..] == rest;
      }
    }
  }

  /** `add_project` keeps ids unique; a record with a new id is appended
      after the unchanged old ones and is then what a lookup of its id
      finds; with an id already present nothing changes. */
  lemma {:induction false} InsertFacts<R>(rs: seq<R>, key: R -> string, rec: R)
    requires UniqueKeys(rs, key)
    ensures var r := Insert(rs, key, rec);
      && UniqueKeys(r, key)
      && (HasKey(rs, key, key(rec)) ==> r == rs)
      && (!HasKey(rs, key, key(rec)) ==> r == rs + [rec] && Find(r, key, key(rec)) == Some(rec))
  {
    var r := Insert(rs, key, rec);
    if !HasKey(rs, key, key(rec)) {
      assert UniqueKeys(r, key);
      assert rec in r;
      UniqueFind(r, key, rec);
    }
  }

  /** A second insert of a record with the same id changes nothing, so
      inserting twice leaves what inserting once left. */
  lemma {:induction false} InsertTwice<R>(rs: seq<R>, key: R -> string, rec: R, rec': R)
    requires key(rec') == key(rec)
    ensures var r := Insert(rs, key, rec);
      HasKey(r, key, key(rec)) && Insert(r, key, rec') == r
  {
    var r := Insert(rs, key, rec);
    if !HasKey(rs, key, key(rec)) {
      assert r[|rs|] == rec;
    }
  }
}
