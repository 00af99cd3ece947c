/**
 The data migration that moves profiles out of the legacy `oc_lettings_site`
 application into the `profiles` application.

 Forward copies every legacy Profile row into the new Profile table under
 the same primary key, with its favourite city and its user key copied as
 they are; nothing is looked up, so it cannot fail for want of a parent row.
 Reverse empties the new Profile table and leaves the legacy one alone.
 */
module ProfilesMigration {
  import opened Tables

  /** A profile's columns besides its primary key: the favourite city and the
      key of the user account it belongs to. */
  datatype Profile = Profile(favoriteCity: string, userId: int)

  /** After forward, each legacy profile (unless a later row shares its key)
      is in the new table under its own key, with its favourite city and its
      user key. */
  lemma ForwardCopiesProfiles(newProfiles: map<int, Profile>, oldProfiles: seq<Row<Profile>>, i: int)
    requires 0 <= i < |oldProfiles| && LastWithItsId(oldProfiles, i)
    ensures var p := oldProfiles[i];
            && p.id in SaveAll(newProfiles, oldProfiles)
            && SaveAll(newProfiles, oldProfiles)[p.id].favoriteCity == p.fields.favoriteCity
            && SaveAll(newProfiles, oldProfiles)[p.id].userId == p.fields.userId
  {
    SaveAllStores(newProfiles, oldProfiles, i);
  }

  /** From an empty new table and legacy rows with distinct keys, forward
      yields a table holding exactly the legacy keys, one row per legacy
      row. */
  lemma ForwardFromEmpty(oldProfiles: seq<Row<Profile>>)
    requires DistinctIds(oldProfiles)
    ensures SaveAll(map[], oldProfiles).Keys == Ids(oldProfiles)
    ensures |SaveAll(map[], oldProfiles)| == |oldProfiles|
    ensures forall id :: id in SaveAll(map[], oldProfiles) ==>
              exists i :: 0 <= i < |oldProfiles| && oldProfiles[i] == Row(id, SaveAll(map[], oldProfiles)[id])
  {
    SaveAllIntoEmpty(oldProfiles);
    forall id | id in SaveAll(map[], oldProfiles)
      ensures exists i :: 0 <= i < |oldProfiles| && oldProfiles[i] == Row(id, SaveAll(map[], oldProfiles)[id])
    {
      var i :| 0 <= i < |oldProfiles| && oldProfiles[i].id == id;
      SaveAllStoresDistinct(map[], oldProfiles, i);
    }
  }

  /** The database as the migration sees it: the legacy Profile table and the
      new one. */
  class ProfilesDatabase {
    /** Rows of `oc_lettings_site.Profile`, in the order a query yields them. */
    var oldProfiles: seq<Row<Profile>>
    /** `profiles.Profile`, by primary key. */
    var newProfiles: map<int, Profile>

    constructor (oldProfiles: seq<Row<Profile>>, newProfiles: map<int, Profile>)
      ensures this.oldProfiles == oldProfiles && this.newProfiles == newProfiles
    {
      this.oldProfiles := oldProfiles;
      this.newProfiles := newProfiles;
    }

    /** The forward step: save a copy of each legacy profile into the new
        table. It only reads the legacy table. */
    method Forward()
      modifies this`newProfiles
      ensures newProfiles == SaveAll(old(newProfiles), oldProfiles)
    {
      ghost var start := newProfiles;
      for i := 0 to |oldProfiles|
        invariant newProfiles == SaveAll(start, oldProfiles[..i])
      {
        var row := oldProfiles[i];
        newProfiles := newProfiles[row.id := Profile(row.fields.favoriteCity, row.fields.userId)];
        assert oldProfiles[..i + 1][..i] == oldProfiles[..i];
      }
      assert oldProfiles[..|oldProfiles|] == oldProfiles;
    }

    /** The reverse step: delete every new profile. The legacy table is
        neither touched nor refilled. */
    method Reverse()
      modifies this`newProfiles
      ensures newProfiles == map[]
    {
      newProfiles := map[];
    }
  }

  /** Forward followed by reverse: the legacy table holds what it held and the
      new table is empty, whatever it held before. */
  method ForwardThenReverse(db: ProfilesDatabase)
    modifies db`newProfiles
    ensures db.oldProfiles == old(db.oldProfiles)
    ensures db.newProfiles == map[]
  {
    db.Forward();
    db.Reverse();
  }
}
