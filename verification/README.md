# Lettings and profiles data migrations

This project models the two data migrations of the OC Lettings web
application. They split the legacy `oc_lettings_site` application into a
`lettings` application and a `profiles` application.

- `lettings/migrations/0002_migrate_data.py` forward copies every legacy
  Address row into the new Address table. Each copy keeps its primary key and
  its six columns. It then copies every legacy Letting row into the new Letting
  table, keeping its key and title. The copy points at the new Address fetched
  by the legacy row's address key. Reverse deletes every new Letting, then
  every new Address.
- `profiles/migrations/0002_migrate_data.py` forward copies every legacy Profile
  row, keeping its key, favourite city and user key. Reverse deletes every new
  Profile.

Files:

- `tables.dfy` (module `Tables`): rows, the lookup `objects.get(id=…)` as
  `Get`, and the table after a sequence of `save()` calls as `SaveAll`, with
  its lemmas.
- `lettings_migration.dfy` (module `LettingsMigration`): class
  `LettingsDatabase`. It holds the two legacy tables and the two new tables
  and has the methods `Forward` and `Reverse`. The module also has the
  specification functions `CopyLettings` and `MigrateForward` and the lemmas
  about them.
- `profiles_migration.dfy` (module `ProfilesMigration`): class
  `ProfilesDatabase`, with `Forward` and `Reverse`, and the lemmas about them.

Modelling choices:

- A legacy table is what `objects.all()` yields: a sequence of rows in an
  order the database picks. No order is assumed. Every lemma holds for every
  order. When keys are distinct, `ForwardOrderIrrelevant` and
  `SaveAllOrderIrrelevant` show that the order changes neither whether forward
  aborts nor the tables it writes. Which letting a failure names can depend on
  the order.
- A new table is a map from primary key to the other columns. `save()` with an
  explicit key inserts or overwrites, so it is a map update.
- The `apps.get_model` lookups become the fields of the database classes.
- A failed `NewAddress.objects.get` raises, and the migration's transaction is
  rolled back. `LettingsDatabase.Forward` then returns `Failure` and puts back
  the new tables it started from. The error carries the key of the letting
  whose lookup failed and the address key it looked for. `DoesNotExist` names
  no letting; the letting key marks where the loop stopped.
- The tests expect reverse to refill the legacy tables and expect the schema
  editor to drop models. The migration code does neither, so the model follows
  the code: reverse only empties the new tables, and forward never deletes the
  legacy tables.

## Model

| member | source | states |
|---|---|---|
| `Tables.Get` | lettings/migrations/0002_migrate_data.py:26 | the lookup by primary key finds a row exactly when the key is in the table, and the row it yields carries that key and the stored columns |
| `Tables.SaveAll` | lettings/migrations/0002_migrate_data.py:12-22 | saving rows one by one leaves exactly the keys already present plus the saved rows' keys, and rows whose key was not saved are unchanged |
| `Tables.SaveAllStores` | lettings/migrations/0002_migrate_data.py:13-22 | a saved row's columns are in the table under its key unless a later saved row has the same key (insert-or-overwrite) |
| `Tables.SaveAllOrigin` | lettings/migrations/0002_migrate_data.py:12-22 | every row of the table after saving either was there before or is one of the saved rows |
| `Tables.SaveAllStoresDistinct` | profiles/migrations/0002_migrate_data.py:10-16 | when keys are distinct, every saved row's columns are in the table under its key |
| `Tables.SaveAllOrderIrrelevant` | lettings/migrations/0002_migrate_data.py:12 | two orders of the same rows with distinct keys give the same table, so the unspecified order of `all()` does not matter |
| `Tables.DistinctIdsCount` | profiles/migrations/0002_migrate_data.py:10-16 | rows with distinct keys have as many keys as rows |
| `Tables.SaveAllIntoEmpty` | profiles/migrations/0002_migrate_data.py:10-16 | saving rows with distinct keys into an empty table gives exactly those keys, one row per saved row |
| `LettingsMigration.CopyLettings` | lettings/migrations/0002_migrate_data.py:25-32 | the letting loop aborts exactly when some legacy letting's address key is missing from the new Address table; the error is raised at the first such letting in iteration order, whose key the model records; on success the new Letting table is the legacy lettings saved with title and address key unchanged |
| `LettingsMigration.CopyLettingsAbortStands` | lettings/migrations/0002_migrate_data.py:25-26 | once a lookup has failed, the remaining lettings do not change the outcome: the loop aborts with that error |
| `LettingsMigration.MigrateForward` | lettings/migrations/0002_migrate_data.py:11-32 | forward as a function of the legacy rows and the new tables: it aborts exactly when some legacy letting's address key is neither a legacy address key nor already a new address key; on success the new Address table is the legacy addresses saved over the old one, and the new Letting table is the legacy lettings saved with title and address key unchanged |
| `LettingsMigration.ForwardFailsIffDangling` | lettings/migrations/0002_migrate_data.py:11-26 | from an empty new Address table, forward aborts exactly when some legacy letting points at a key that is not a legacy address key |
| `LettingsMigration.ForwardCopiesAddresses` | lettings/migrations/0002_migrate_data.py:12-22 | after forward, each legacy address is in the new table under its own key with equal number, street, city, state, zip code and country ISO code |
| `LettingsMigration.ForwardCopiesLettings` | lettings/migrations/0002_migrate_data.py:25-32 | after forward, each legacy letting is in the new table under its own key with its title and address key |
| `LettingsMigration.ForwardResolvesAddress` | lettings/migrations/0002_migrate_data.py:26-30 | when a legacy letting points at a legacy address, the migrated letting keeps that address key, and it leads to the new Address holding the columns of that legacy address. This holds whatever the new Address table held before |
| `LettingsMigration.ForwardKeepsLinks` | lettings/migrations/0002_migrate_data.py:24-32 | if every new letting pointed at a new address before forward, that still holds after it |
| `LettingsMigration.ForwardFromEmpty` | lettings/migrations/0002_migrate_data.py:11-32 | from empty new tables and legacy tables with distinct keys, the new tables hold exactly the legacy keys, with as many rows as the legacy tables |
| `LettingsMigration.ForwardOrderIrrelevant` | lettings/migrations/0002_migrate_data.py:12-32 | whether forward aborts, and the tables it writes, do not depend on the order in which the legacy rows are read |
| `LettingsMigration.ForwardExample` | lettings/tests_migrations.py:141-227 | on the two addresses and two lettings of the forward test, forward succeeds; both new tables hold two rows, address 1 keeps all six columns, and letting 1 keeps its title "Nice Apartment" and leads to the street "123 Main St" |
| `LettingsMigration.LettingsDatabase.constructor` | lettings/migrations/0002_migrate_data.py:4-9 | the database holds the two legacy tables and the two new tables it is given |
| `LettingsMigration.LettingsDatabase.Forward` | lettings/migrations/0002_migrate_data.py:4-32 | forward leaves the legacy tables untouched. It either reports `Success` with the new tables of `MigrateForward`, or reports `Failure` with the first failed lookup and leaves the new tables as they were. It keeps every new letting pointing at a new address |
| `LettingsMigration.LettingsDatabase.Reverse` | lettings/migrations/0002_migrate_data.py:35-41 | reverse leaves both new tables empty, every new letting still points at a new address, and the legacy tables are untouched. It runs `DeleteLettings` and then `DeleteAddresses`, the source's order. Because `DeleteAddresses` requires an empty Letting table, the opposite order does not verify in this model; in the database a cascade would empty the lettings in either order |
| `LettingsMigration.LettingsDatabase.DeleteLettings` | lettings/migrations/0002_migrate_data.py:40 | the new Letting table becomes empty, so no new letting points at a missing address; nothing else changes |
| `LettingsMigration.LettingsDatabase.DeleteAddresses` | lettings/migrations/0002_migrate_data.py:41 | the model has no cascade from an address to its letting, so this step requires the new Letting table to be empty already, which records that the source deletes lettings first. The new Address table becomes empty; nothing else changes |
| `LettingsMigration.ForwardThenReverse` | lettings/migrations/0002_migrate_data.py:4-41 | forward then reverse leaves the legacy tables as they were and both new tables empty, whatever forward reported |
| `ProfilesMigration.ForwardCopiesProfiles` | profiles/migrations/0002_migrate_data.py:10-16 | after forward, each legacy profile is in the new table under its own key with its favourite city and user key |
| `ProfilesMigration.ForwardFromEmpty` | profiles/migrations/0002_migrate_data.py:10-16 | from an empty new table and distinct legacy keys, the new table holds exactly the legacy keys, one row per legacy row, and each new row is a legacy row |
| `ProfilesMigration.ProfilesDatabase.constructor` | profiles/migrations/0002_migrate_data.py:4-7 | the database holds the legacy table and the new table it is given |
| `ProfilesMigration.ProfilesDatabase.Forward` | profiles/migrations/0002_migrate_data.py:4-16 | forward saves every legacy profile into the new table and cannot fail; it leaves the legacy table untouched |
| `ProfilesMigration.ProfilesDatabase.Reverse` | profiles/migrations/0002_migrate_data.py:19-22 | reverse empties the new table and leaves the legacy table untouched |
| `ProfilesMigration.ForwardThenReverse` | profiles/migrations/0002_migrate_data.py:4-22 | forward then reverse leaves the legacy table as it was and the new table empty |

## Left out

- The `Migration` classes' `dependencies` and `RunPython` wiring, and all
  schema (DDL) work: framework metadata, not data logic.
- The `schema_editor` argument: both migrations ignore it.
- Transactions beyond one forward step: a failed step is modelled as leaving
  the new tables as they were, which is all that the atomic migration makes
  observable.
- Database constraints that live in the model classes, which are not part of
  this model. The one-to-one uniqueness of `Letting.address` and `Profile.user`
  is not modelled. When the new tables start non-empty, those constraints can
  make `save()` raise an integrity error. `MigrateForward` and
  `ForwardFailsIffDangling` ("aborts exactly when a key dangles") and
  `ProfilesDatabase.Forward` ("cannot fail") therefore hold as stated only
  from the empty new tables the initial schema migration leaves. There the
  legacy tables already satisfy the same constraints, so the copy cannot
  break them.
- The validators of Address (number, zip code, state and ISO code bounds), the
  string forms of the entities, and cascade deletion: defined in model files
  that are not part of this model.
- Field widths: numbers, zip codes and keys are unbounded integers; the
  favourite city is a string that may be empty.
- The views, URL routing, templates, settings, the Sphinx configuration, the
  ASGI entry point and the login-failure signal handler (it only reports to an
  external error tracker).
