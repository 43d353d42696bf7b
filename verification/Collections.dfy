/**
 Picking a member of a set, for the walks over the keys of a table.
 */
module Collections {
  ghost function OneOf<T>(ids: set<T>): (id: T)
    requires ids != {}
    ensures id in ids
  {
    var id :| id in ids;
    id
  }

  lemma HasMember(ids: set<int>)
    requires ids != {}
    ensures exists id: int :: id in ids
  {
    var id := OneOf(ids);
    assert id in ids;
  }
}
