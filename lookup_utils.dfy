/** The follow-up store of `lookup_utils.py`: a JSON list of `{id}`
    records naming the jobs whose "awarded" alert has gone out. */
module LookupUtils {
  import opened Wrappers
  import KeyedList

  datatype Entry = Entry(id: string)

  function EntryId(e: Entry): string {
    e.id
  }

  class LookupStore {
    var entries: seq<Entry>

    ghost predicate Valid()
      reads this
    {
      KeyedList.UniqueKeys(entries, EntryId)
    }

    /** No file yet: `lookup_load_projects` gives the empty list. */
    constructor ()
      ensures Valid() && entries == []
    {
      entries := [];
    }

    /** `lookup_add_project`: `{id}` is appended when no record has that
        id, and the list is left as it was otherwise; ids stay unique. */
    method Add(id: string) returns (added: bool)
      modifies this
      ensures added <==> !KeyedList.HasKey(old(entries), EntryId, id)
      ensures entries == if added then old(entries) + [Entry(id)] else old(entries)
      ensures old(Valid()) ==> Valid()
    {
      if KeyedList.HasKey(entries, EntryId, id) {
        return false;
      }
      entries := entries + [Entry(id)];
      added := true;
    }

    /** `lookup_delete_project`: every record with that id goes, the others
        stay in their order. */
    method Delete(id: string)
      modifies this
      ensures entries == KeyedList.Remove(old(entries), EntryId, id)
      ensures !KeyedList.HasKey(entries, EntryId, id)
      ensures old(Valid()) ==> Valid()
    {
      if Valid() {
        KeyedList.RemoveKeepsUnique(entries, EntryId, id);
      }
      entries := KeyedList.Remove(entries, EntryId, id);
    }

    /** `lookup_get_project`: the first record with that id, or `None`. */
    function Get(id: string): (r: Option<Entry>)
      reads this
      ensures r.None? <==> !KeyedList.HasKey(entries, EntryId, id)
      ensures r.Some? ==> r.value.id == id && r.value in entries
      ensures r.Some? && Valid() ==> forall x :: x in entries && x.id == id ==> x == r.value
    {
      KeyedList.Find(entries, EntryId, id)
    }
  }
}
