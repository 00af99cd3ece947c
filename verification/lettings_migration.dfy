/**
 The data migration that moves addresses and lettings out of the legacy
 `oc_lettings_site` application into the `lettings` application.

 Forward copies every legacy Address row into the new Address table under
 the same primary key, then copies every legacy Letting row into the new
 Letting table, pointing it at the NEW Address found by the legacy row's
 address key. Reverse empties the new Letting table and then the new
 Address table; it leaves the legacy tables alone and copies nothing back.
 */
module LettingsMigration {
  import opened Tables

  datatype Address = Address(
    number: int,
    street: string,
    city: string,
    state: string,
    zipCode: int,
    countryIsoCode: string)

  /** A letting's columns besides its primary key. In a legacy row
      `addressId` is a key of the legacy Address table; in a new row it is a
      key of the new Address table. */
  datatype Letting = Letting(title: string, addressId: int)

  /** `NewAddress.objects.get` found no address for the letting being copied.
      The lookup raises DoesNotExist, which names no letting; the letting's key
      records where the loop stopped. */
  datatype Error = AddressDoesNotExist(lettingId: int, addressId: int)

  /** What the letting loop and the forward step yield: a value, or the
      failed lookup that aborted them. */
  datatype Result<T> = Success(value: T) | Failure(error: Error)

  /** The two tables the migration writes. */
  datatype NewTables = NewTables(addresses: map<int, Address>, lettings: map<int, Letting>)

  /** Every letting points at an address of the table beside it. */
  predicate LinksResolve(addresses: map<int, Address>, lettings: map<int, Letting>)
  {
    forall id :: id in lettings ==> lettings[id].addressId in addresses
  }

  /** Row `i` is the first legacy letting whose address is missing from
      `addresses`. */
  predicate FirstDangling(addresses: map<int, Address>, rows: seq<Row<Letting>>, i: int)
  {
    && 0 <= i < |rows|
    && rows[i].fields.addressId !in addresses
    && forall j :: 0 <= j < i ==> rows[j].fields.addressId in addresses
  }

  /** The second loop of forward: each legacy letting, first to last, looks up
      its address in the new Address table `addresses` and is saved into the
      new Letting table `t`; the first failed lookup aborts. */
  function CopyLettings(addresses: map<int, Address>, t: map<int, Letting>, rows: seq<Row<Letting>>): (r: Result<map<int, Letting>>)
    ensures r.Failure? <==> exists i :: 0 <= i < |rows| && rows[i].fields.addressId !in addresses
    ensures r.Failure? ==> exists i :: FirstDangling(addresses, rows, i)
                                    && r.error == AddressDoesNotExist(rows[i].id, rows[i].fields.addressId)
    ensures r.Success? ==> r.value == SaveAll(t, rows)
    decreases |rows|
  {
    if rows == [] then Success(t)
    else
      var n := |rows| - 1;
      var last := rows[n];
      var prefix := rows[..n];
      assert forall j :: 0 <= j < n ==> prefix[j] == rows[j];
      match CopyLettings(addresses, t, prefix)
      case Failure(e) => Failure(e)
      case Success(copied) =>
        match Get(addresses, last.fields.addressId)
        case None => Failure(AddressDoesNotExist(last.id, last.fields.addressId))
        case Some(address) => Success(copied[last.id := Letting(last.fields.title, address.id)])
  }

  /** Once the letting loop has aborted on a prefix of the rows, it aborts
      with the same error on the whole sequence. */
  lemma CopyLettingsAbortStands(addresses: map<int, Address>, t: map<int, Letting>, rows: seq<Row<Letting>>, k: nat)
    requires k <= |rows| && CopyLettings(addresses, t, rows[..k]).Failure?
    ensures CopyLettings(addresses, t, rows) == CopyLettings(addresses, t, rows[..k])
  {
    var prefix := rows[..k];
    var partial := CopyLettings(addresses, t, prefix);
    var i :| FirstDangling(addresses, prefix, i)
             && partial.error == AddressDoesNotExist(prefix[i].id, prefix[i].fields.addressId);
    assert forall m :: 0 <= m <= i ==> prefix[m] == rows[m];
    assert FirstDangling(addresses, rows, i);
    var whole := CopyLettings(addresses, t, rows);
    var j :| FirstDangling(addresses, rows, j)
             && whole.error == AddressDoesNotExist(rows[j].id, rows[j].fields.addressId);
    assert i == j;
  }

  /** What forward does to the new tables, given the legacy rows in the order
      the queries yield them: addresses first, then lettings. */
  function MigrateForward(oldAddresses: seq<Row<Address>>, oldLettings: seq<Row<Letting>>,
                          newAddresses: map<int, Address>, newLettings: map<int, Letting>): (r: Result<NewTables>)
    ensures r.Failure? <==> exists i :: 0 <= i < |oldLettings|
                                        && oldLettings[i].fields.addressId !in newAddresses.Keys + Ids(oldAddresses)
    ensures r.Success? ==> && r.value.addresses == SaveAll(newAddresses, oldAddresses)
                           && r.value.lettings == SaveAll(newLettings, oldLettings)
  {
    var addresses := SaveAll(newAddresses, oldAddresses);
    match CopyLettings(addresses, newLettings, oldLettings)
    case Failure(e) => Failure(e)
    case Success(lettings) => Success(NewTables(addresses, lettings))
  }

  /** From an empty new Address table, as the initial schema migration leaves
      it, forward aborts exactly when some legacy letting points at a key that
      is not a legacy address key. */
  lemma ForwardFailsIffDangling(oldAddresses: seq<Row<Address>>, oldLettings: seq<Row<Letting>>,
                                newAddresses: map<int, Address>, newLettings: map<int, Letting>)
    ensures newAddresses == map[] ==>
            (MigrateForward(oldAddresses, oldLettings, newAddresses, newLettings).Failure?
             <==> exists i :: 0 <= i < |oldLettings| && oldLettings[i].fields.addressId !in Ids(oldAddresses))
  {
  }

  /** After forward, each legacy address (unless a later row shares its key)
      is in the new Address table under its own key with all six columns. */
  lemma ForwardCopiesAddresses(oldAddresses: seq<Row<Address>>, oldLettings: seq<Row<Letting>>,
                               newAddresses: map<int, Address>, newLettings: map<int, Letting>, i: int)
    requires 0 <= i < |oldAddresses| && LastWithItsId(oldAddresses, i)
    requires MigrateForward(oldAddresses, oldLettings, newAddresses, newLettings).Success?
    ensures var after := MigrateForward(oldAddresses, oldLettings, newAddresses, newLettings).value;
            var a := oldAddresses[i];
            && a.id in after.addresses
            && after.addresses[a.id].number == a.fields.number
            && after.addresses[a.id].street == a.fields.street
            && after.addresses[a.id].city == a.fields.city
            && after.addresses[a.id].state == a.fields.state
            && after.addresses[a.id].zipCode == a.fields.zipCode
            && after.addresses[a.id].countryIsoCode == a.fields.countryIsoCode
  {
    SaveAllStores(newAddresses, oldAddresses, i);
  }

  /** After forward, each legacy letting (unless a later row shares its key)
      is in the new Letting table under its own key, with its title and its
      address key. */
  lemma ForwardCopiesLettings(oldAddresses: seq<Row<Address>>, oldLettings: seq<Row<Letting>>,
                              newAddresses: map<int, Address>, newLettings: map<int, Letting>, i: int)
    requires 0 <= i < |oldLettings| && LastWithItsId(oldLettings, i)
    requires MigrateForward(oldAddresses, oldLettings, newAddresses, newLettings).Success?
    ensures var after := MigrateForward(oldAddresses, oldLettings, newAddresses, newLettings).value;
            var l := oldLettings[i];
            && l.id in after.lettings
            && after.lettings[l.id].title == l.fields.title
            && after.lettings[l.id].addressId == l.fields.addressId
  {
    SaveAllStores(newLettings, oldLettings, i);
  }

  /** Following a migrated letting's address key in the new tables yields
      the columns of the legacy address that the legacy letting pointed at.
      From an empty new Address table, as the initial schema migration leaves
      it, a successful forward guarantees that the key is a legacy one
      (`ForwardFailsIffDangling`). */
  lemma ForwardResolvesAddress(oldAddresses: seq<Row<Address>>, oldLettings: seq<Row<Letting>>,
                               newAddresses: map<int, Address>, newLettings: map<int, Letting>, i: int)
    requires DistinctIds(oldAddresses) && DistinctIds(oldLettings) && 0 <= i < |oldLettings|
    requires oldLettings[i].fields.addressId in Ids(oldAddresses)
    requires MigrateForward(oldAddresses, oldLettings, newAddresses, newLettings).Success?
    ensures var after := MigrateForward(oldAddresses, oldLettings, newAddresses, newLettings).value;
            var key := oldLettings[i].fields.addressId;
            && oldLettings[i].id in after.lettings
            && after.lettings[oldLettings[i].id].addressId == key
            && key in after.addresses
            && exists j :: 0 <= j < |oldAddresses| && oldAddresses[j].id == key
                           && after.addresses[key] == oldAddresses[j].fields
  {
    var key := oldLettings[i].fields.addressId;
    SaveAllStoresDistinct(newLettings, oldLettings, i);
    var j :| 0 <= j < |oldAddresses| && oldAddresses[j].id == key;
    SaveAllStoresDistinct(newAddresses, oldAddresses, j);
  }

  /** Forward keeps every letting of the new tables pointing at an address of
      the new tables. */
  lemma ForwardKeepsLinks(oldAddresses: seq<Row<Address>>, oldLettings: seq<Row<Letting>>,
                          newAddresses: map<int, Address>, newLettings: map<int, Letting>)
    requires LinksResolve(newAddresses, newLettings)
    requires MigrateForward(oldAddresses, oldLettings, newAddresses, newLettings).Success?
    ensures var after := MigrateForward(oldAddresses, oldLettings, newAddresses, newLettings).value;
            LinksResolve(after.addresses, after.lettings)
  {
    var after := MigrateForward(oldAddresses, oldLettings, newAddresses, newLettings).value;
    forall id | id in after.lettings ensures after.lettings[id].addressId in after.addresses {
      SaveAllOrigin(newLettings, oldLettings, id);
    }
  }

  /** From empty new tables and legacy tables with distinct keys, forward
      yields new tables holding exactly the legacy keys, as many rows as the
      legacy tables. */
  lemma ForwardFromEmpty(oldAddresses: seq<Row<Address>>, oldLettings: seq<Row<Letting>>)
    requires DistinctIds(oldAddresses) && DistinctIds(oldLettings)
    requires MigrateForward(oldAddresses, oldLettings, map[], map[]).Success?
    ensures var after := MigrateForward(oldAddresses, oldLettings, map[], map[]).value;
            && after.addresses.Keys == Ids(oldAddresses)
            && after.lettings.Keys == Ids(oldLettings)
            && |after.addresses| == |oldAddresses|
            && |after.lettings| == |oldLettings|
  {
    SaveAllIntoEmpty(oldAddresses);
    SaveAllIntoEmpty(oldLettings);
  }

  /** Whether forward aborts, and what it writes when it does not, depend
      only on which rows the legacy tables hold, not on the order the queries
      yield them. */
  lemma ForwardOrderIrrelevant(oldAddresses: seq<Row<Address>>, oldLettings: seq<Row<Letting>>,
                               oldAddresses': seq<Row<Address>>, oldLettings': seq<Row<Letting>>,
                               newAddresses: map<int, Address>, newLettings: map<int, Letting>)
    requires DistinctIds(oldAddresses) && DistinctIds(oldAddresses')
    requires DistinctIds(oldLettings) && DistinctIds(oldLettings')
    requires forall r :: r in oldAddresses <==> r in oldAddresses'
    requires forall r :: r in oldLettings <==> r in oldLettings'
    ensures MigrateForward(oldAddresses, oldLettings, newAddresses, newLettings).Success?
        == MigrateForward(oldAddresses', oldLettings', newAddresses, newLettings).Success?
    ensures MigrateForward(oldAddresses, oldLettings, newAddresses, newLettings).Success? ==>
            MigrateForward(oldAddresses, oldLettings, newAddresses, newLettings)
            == MigrateForward(oldAddresses', oldLettings', newAddresses, newLettings)
  {
    SaveAllOrderIrrelevant(newAddresses, oldAddresses, oldAddresses');
    SaveAllOrderIrrelevant(newLettings, oldLettings, oldLettings');
    var addresses := SaveAll(newAddresses, oldAddresses);
    if CopyLettings(addresses, newLettings, oldLettings).Failure? {
      DanglingInBoth(addresses, oldLettings, oldLettings');
    }
    if CopyLettings(addresses, newLettings, oldLettings').Failure? {
      DanglingInBoth(addresses, oldLettings', oldLettings);
    }
  }

  /** A letting whose address is missing is found in any other listing of
      the same rows. */
  lemma DanglingInBoth(addresses: map<int, Address>, rows: seq<Row<Letting>>, rows': seq<Row<Letting>>)
    requires forall r :: r in rows ==> r in rows'
    requires exists i :: 0 <= i < |rows| && rows[i].fields.addressId !in addresses
    ensures exists j :: 0 <= j < |rows'| && rows'[j].fields.addressId !in addresses
  {
    var i :| 0 <= i < |rows| && rows[i].fields.addressId !in addresses;
    assert rows[i] in rows';
    var j :| 0 <= j < |rows'| && rows'[j] == rows[i];
  }

  /** The database as the migration sees it: the two legacy tables and the
      two new ones. */
  class LettingsDatabase {
    /** Rows of `oc_lettings_site.Address`, in the order a query yields them. */
    var oldAddresses: seq<Row<Address>>
    /** Rows of `oc_lettings_site.Letting`, in the order a query yields them. */
    var oldLettings: seq<Row<Letting>>
    /** `lettings.Address`, by primary key. */
    var newAddresses: map<int, Address>
    /** `lettings.Letting`, by primary key. */
    var newLettings: map<int, Letting>

    constructor (oldAddresses: seq<Row<Address>>, oldLettings: seq<Row<Letting>>,
                 newAddresses: map<int, Address>, newLettings: map<int, Letting>)
      ensures this.oldAddresses == oldAddresses && this.oldLettings == oldLettings
      ensures this.newAddresses == newAddresses && this.newLettings == newLettings
    {
      this.oldAddresses := oldAddresses;
      this.oldLettings := oldLettings;
      this.newAddresses := newAddresses;
      this.newLettings := newLettings;
    }

    /** Every new letting points at a new address. */
    predicate Linked()
      reads this
    {
      LinksResolve(newAddresses, newLettings)
    }

    /** The forward step. It only reads the legacy tables. If a lookup of a
        new address fails, the step aborts and its transaction is rolled
        back, leaving the new tables as they were. */
    method Forward() returns (outcome: Result<()>)
      modifies this`newAddresses, this`newLettings
      ensures match MigrateForward(oldAddresses, oldLettings, old(newAddresses), old(newLettings))
              case Success(after) =>
                outcome == Success(()) && newAddresses == after.addresses && newLettings == after.lettings
              case Failure(e) =>
                outcome == Failure(e) && newAddresses == old(newAddresses) && newLettings == old(newLettings)
      ensures old(Linked()) ==> Linked()
    {
      var startAddresses, startLettings := newAddresses, newLettings;

      // Copy the addresses.
      for i := 0 to |oldAddresses|
        invariant newAddresses == SaveAll(startAddresses, oldAddresses[..i])
        invariant newLettings == startLettings
      {
        var row := oldAddresses[i];
        var a := row.fields;
        newAddresses := newAddresses[row.id := Address(a.number, a.street, a.city, a.state, a.zipCode, a.countryIsoCode)];
        assert oldAddresses[..i + 1][..i] == oldAddresses[..i];
      }
      assert oldAddresses[..|oldAddresses|] == oldAddresses;

      // Copy the lettings, each pointing at the new address.
      for i := 0 to |oldLettings|
        invariant newAddresses == SaveAll(startAddresses, oldAddresses)
        invariant CopyLettings(newAddresses, startLettings, oldLettings[..i]) == Success(newLettings)
      {
        var row := oldLettings[i];
        assert oldLettings[..i + 1][..i] == oldLettings[..i];
        var found := Get(newAddresses, row.fields.addressId);
        if found.None? {
          var error := AddressDoesNotExist(row.id, row.fields.addressId);
          assert CopyLettings(newAddresses, startLettings, oldLettings[..i + 1]) == Failure(error);
          CopyLettingsAbortStands(newAddresses, startLettings, oldLettings, i + 1);
          newAddresses, newLettings := startAddresses, startLettings;
          return Failure(error);
        }
        newLettings := newLettings[row.id := Letting(row.fields.title, found.value.id)];
      }
      assert oldLettings[..|oldLettings|] == oldLettings;
      if LinksResolve(startAddresses, startLettings) {
        ForwardKeepsLinks(oldAddresses, oldLettings, startAddresses, startLettings);
      }
      outcome := Success(());
    }

    /** The reverse step: delete every new letting, then every new address.
        The legacy tables are neither touched nor refilled. */
    method Reverse()
      modifies this`newAddresses, this`newLettings
      ensures newLettings == map[] && newAddresses == map[]
      ensures Linked()
    {
      DeleteLettings();
      DeleteAddresses();
    }

    /** `NewLetting.objects.all().delete()`: every new letting goes, and no
        new letting is left pointing at a missing address. */
    method DeleteLettings()
      modifies this`newLettings
      ensures newLettings == map[]
      ensures Linked()
    {
      newLettings := map[];
    }

    /** `NewAddress.objects.all().delete()`. The model has no cascade from an
        address to its letting, so this step requires the Letting table to be
        empty already; that records the order the migration deletes in,
        lettings first. */
    method DeleteAddresses()
      requires newLettings == map[]
      modifies this`newAddresses
      ensures newAddresses == map[]
      ensures Linked()
    {
      newAddresses := map[];
    }
  }

  /** Forward followed by reverse: whatever forward did, the legacy tables
      hold what they held and both new tables are empty, so reverse is no
      restoration of data. */
  method ForwardThenReverse(db: LettingsDatabase) returns (outcome: Result<()>)
    modifies db`newAddresses, db`newLettings
    ensures db.oldAddresses == old(db.oldAddresses) && db.oldLettings == old(db.oldLettings)
    ensures db.newAddresses == map[] && db.newLettings == map[]
  {
    outcome := db.Forward();
    db.Reverse();
  }

  /** The migration on two legacy addresses and one letting at each: both
      new tables hold two rows, address 1 keeps all six columns and letting 1
      keeps its title and still leads to "123 Main St". */
  lemma ForwardExample()
    ensures var a1 := Address(1, "123 Main St", "Test City", "TS", 12345, "TST");
            var a2 := Address(2, "456 Oak Ave", "Another City", "AC", 67890, "ANT");
            var r := MigrateForward([Row(1, a1), Row(2, a2)],
                                    [Row(1, Letting("Nice Apartment", 1)), Row(2, Letting("Cozy House", 2))],
                                    map[], map[]);
            && r.Success?
            && |r.value.addresses| == 2 && |r.value.lettings| == 2
            && r.value.addresses[1] == a1
            && r.value.lettings[1].title == "Nice Apartment"
            && r.value.addresses[r.value.lettings[1].addressId].street == "123 Main St"
  {
    var a1 := Address(1, "123 Main St", "Test City", "TS", 12345, "TST");
    var a2 := Address(2, "456 Oak Ave", "Another City", "AC", 67890, "ANT");
    var addresses := [Row(1, a1), Row(2, a2)];
    var lettings := [Row(1, Letting("Nice Apartment", 1)), Row(2, Letting("Cozy House", 2))];
    assert addresses[0].id == 1 && addresses[1].id == 2;
    assert Ids(addresses) == {1, 2};
    assert forall i :: 0 <= i < |lettings| ==> lettings[i].fields.addressId in Ids(addresses);
    ForwardFromEmpty(addresses, lettings);
    SaveAllStoresDistinct(map[], addresses, 0);
    SaveAllStoresDistinct(map[], lettings, 0);
  }
}
