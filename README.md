# django-ldapdb entry synchroniser, modelled in Dafny

This project models the core of `ldapdb/models/base.py`: the base class of
django-ldapdb's LDAP models. That core does four things:

- it names an entry: `build_rdn` and `build_dn`, callable on the model class or on
  an instance;
- it synchronises an instance with the directory: `save` either adds a new entry,
  or diffs the last-persisted snapshot against the current values, renames the
  entry when its DN changed and then modifies it; `delete` removes the entry;
- it picks the connection alias: `_get_connection`;
- it derives model variants: `scoped` (another base DN) and `bind_as` (a
  connection bound to another LDAP user, registered in `settings.DATABASES`).

Modules, one file each:

- `Wrappers` (`wrappers.dfy`): `Option` for Python's `None`, and `Result` for a
  value or a raised exception.
- `Sift` (`sift.dfy`): an ordered filter-map over field indices. Each loop of
  the source that walks `_meta.fields` in order and appends for some fields has
  this shape. Lemmas say which indices are kept, in what order, and with what.
- `Schema` (`schema.dfy`): the data.
  - Field values are `Null | Text | Number`.
  - `IsEmpty` is Python truthiness: `None`, `""` and `0` are empty.
  - `Show` is what `"%s"` prints.
  - A field is its name, its `db_column` and its `primary_key` flag.
  - `ModelClass` holds the class-level metadata: `base_dn`, `object_classes`
    and `bound_alias`.
- `Naming` (`naming.dfy`): `build_rdn` and `build_dn`.
  - `Rdn` and `Dn` are the specification functions.
  - `BuildRdn` and `BuildDn` are the methods that run the source's loop.
  - `classorinstancemethod` becomes a `Caller` parameter: `ClassLevel`, or
    `OnInstance(values)`.
- `Directory` (`directory.dfy`): the directory is an append-only `Journal` of
  events, kept in call order.
  - It records the calls (`add_s`, `rename_s`, `modify_s`, `delete_s`), each
    tagged with the connection alias it used.
  - It also records the `post_save` and `post_delete` signals.
  - This turns "exactly one add" and "rename before modify" into facts about
    the journal.
- `Scoping` (`scoping.dfy`): `_get_connection`, `scoped`, and `bind_as`.
  - `bind_as` is a method of a `Settings` object whose `databases` map stands
    for `settings.DATABASES`.
- `Sync` (`sync.dfy`): the `Entry` class (fields `values`, `dn`, `saved_pk`)
  with `Save` and `Delete`.
  - `SaveEffect` is the specification function of `save`.
  - `NewEntryAttributes` and `Diff` specify the two loops of `save`.

Collaborators the model takes as parameters:

- the field codec `get_db_prep_save`: an uninterpreted function
  `(Field, Value) -> Wire`;
- the point lookup `objects.get(pk=saved_pk)`: a function from a key to the
  snapshot's field values. A missing attribute reads as `None`, as
  `getattr(orig, name, None)` does;
- the router's answer `router.db_for_write(...)`: a string parameter.

Both `None` and `""` stand for "no `db_column`": the source tests it by
truthiness. The model's field list leaves out the `dn` field itself. That field
has no `db_column`, so every loop of the source skips it anyway.

## Behaviour worth knowing

- `bind_as` registers the alias in `DATABASES` before it calls `build_dn`
  (base.py:96-104). When `build_dn` then fails, the alias stays
  registered holding an unmodified copy of the routed alias's entry, including
  that entry's own `USER` and `PASSWORD` (typically the administrative bind).
  See `BindAsFailureKeepsRegistration`.
- When the alias is new, `bind_as` copies the entry of
  `router.db_for_write(base_class)` (base.py:97), not that of the class's own
  `bound_alias`.
- A class-level `build_rdn` raises only for a mapped primary-key field missing
  from the keys, at the first such field (base.py:134-136). A mapped non-key
  field that is not in the keys is skipped silently.
- `bind_as("")` sets `USER` and `PASSWORD` under the alias `""`. The variant's
  `bound_alias` is then `""`, which is falsy in `_get_connection` (base.py:81),
  so its instances go through the router and never use those credentials. See
  `EmptyAliasBindingUnused`.
- `save` tests values by truthiness (base.py:175, 195), and the integer `0` is
  falsy. So a new entry leaves out an integer field set to `0` (such as a
  `uidNumber` of 0), and changing such a field from 5 to 0 queues a
  `MOD_DELETE` rather than a replace. See `ZeroIsEmptyExample`.

## Model

| member | source | states |
|---|---|---|
| `Naming.BuildRdn` | ldapdb/models/base.py:118-141 | The loop returns exactly what `Rdn` specifies: `KeysRequired` for a class-level call that leaves a mapped primary-key field out of `keys`, `NoRdn` when no bit was emitted, else the `+`-join of the bits |
| `Naming.RdnFields` | ldapdb/models/base.py:127-141 | A successful RDN is the `+`-join of `column=value`, in declaration order, for exactly the mapped fields named in `keys` or that are the primary key; the value is the supplied key when there is one, else the instance's own value; unmapped fields never appear |
| `Naming.RdnFailures` | ldapdb/models/base.py:134-140 | `build_rdn` raises the class-level error if and only if a class-level call misses a mapped primary-key field; it raises "Could not build Distinguished Name" if and only if no mapped field is named in `keys` or is the primary key (and no key is missing) |
| `Naming.BuildDn` | ldapdb/models/base.py:143-149 | `build_dn` returns exactly `Dn`: the result of `build_rdn`, then `,` and the base DN, or the same error |
| `Naming.DnShape` | ldapdb/models/base.py:148 | `build_dn` succeeds exactly when `build_rdn` does, with the same error otherwise; on success it is the RDN, then `,` and the base DN, so it ends with `","` + `base_dn` |
| `Naming.PeopleRdnExamples` | ldapdb/models/base.py:127-141 | On a `uid` model: an instance with `uid="alice"` gives `uid=alice`; the class with `uid="bob"` gives `uid=bob`; the class with no key fails; an extra `cn` key gives the multi-valued `uid=carol+cn=Carol` |
| `Schema.Pk` | ldapdb/models/base.py:75 | `self.pk` is the value of the first primary-key field, or `None` when no field is the primary key |
| `Scoping.ConnectionAliasTruthiness` | ldapdb/models/base.py:81-82 | `using or bound_alias or router` tests truthiness. An empty `using` or `bound_alias` acts as if it were absent. Once a truthy `using` or `bound_alias` decides, the router's answer does not matter. The result is always one of the three candidates |
| `Scoping.Scoped` | ldapdb/models/base.py:220-231 | `scoped(b)` changes `base_dn` to `b` and nothing else: same fields, object classes and bound alias |
| `Scoping.ScopedDn` | ldapdb/models/base.py:220-231 | The scoped variant builds a DN exactly when the original does, with the same RDN; it ends with the new base DN, and the original class's DN still ends with its own base DN |
| `Scoping.Settings.BindAs` | ldapdb/models/base.py:86-116 | The method leaves `DATABASES` as `BindAsEffect` says and returns its class. It reuses the entry of `alias` or copies the routed alias's entry (a `KeyError` if that is missing). It registers the entry and then sets `USER` to the DN given, or `build_dn(**kwargs)` on the class, and `PASSWORD` to `password or ''`. It returns the class bound to `alias` |
| `Scoping.BindAsOnlyTouchesAlias` | ldapdb/models/base.py:96-101 | Every other alias keeps its entry; the only key that can be added is `alias`; the unknown-database error happens exactly when neither `alias` nor the routed alias is registered, and then nothing changes |
| `Scoping.BindAsCredentials` | ldapdb/models/base.py:96-106 | After a successful `bind_as`, `USER` is the credential DN and `PASSWORD` the password or `""`. The entry's other keys are those of the entry it started from: the alias's own if registered, else the routed alias's |
| `Scoping.BindAsFailureKeepsRegistration` | ldapdb/models/base.py:96-104 | When no DN is given and `build_dn` fails, the error is returned and `alias` is still registered, holding an unmodified copy of its base entry. For a new alias, that copy keeps the routed alias's own `USER` |
| `Scoping.BindAsIdempotent` | ldapdb/models/base.py:96-106 | Repeating a successful `bind_as` with the same arguments reuses the entry and changes nothing more |
| `Scoping.BoundVariantRoutes` | ldapdb/models/base.py:81-82 | For a non-empty alias, instances of the bound variant use `alias` unless a call passes a truthy `using`. They get the same DNs as instances of the original class |
| `Scoping.EmptyAliasBindingUnused` | ldapdb/models/base.py:81-82 | `bind_as("", dn)` succeeds and sets `USER` under the alias `""`. The variant's `bound_alias` is `""`, which is falsy, so its instances go through the router |
| `Sync.NewEntryExactly` | ldapdb/models/base.py:168-176 | A new entry lists `('objectClass', object_classes)` first, then, in declaration order, `(db_column, encoded value)` for exactly the mapped fields whose value is not empty |
| `Sync.NewEntry` | ldapdb/models/base.py:168-176 | The create loop builds exactly `NewEntryAttributes`, the attribute list `NewEntryExactly` describes |
| `Sync.ComputeModlist` | ldapdb/models/base.py:187-198 | The diff loop builds exactly `Diff`, the modify list `DiffExactly` describes |
| `Sync.DiffExactly` | ldapdb/models/base.py:189-198 | The modify list holds one entry per changed mapped field, in declaration order: a field changed when old differs from new and not both are empty; the entry is a replace with the encoded new value when new is not empty, else a delete |
| `Sync.DiffEmptyIff` | ldapdb/models/base.py:189-200 | The modify list is empty if and only if every mapped field is equal in snapshot and instance, or empty in both |
| `Sync.DiffOfSame` | ldapdb/models/base.py:194 | Diffing values against themselves gives an empty modify list |
| `Sync.ZeroIsEmptyExample` | ldapdb/models/base.py:175-198 | An integer field changed from 5 to 0 yields `MOD_DELETE`, not a replace; a new entry with that field at 0 holds only `objectClass` |
| `Sync.SaveCreates` | ldapdb/models/base.py:165-182 | A save with an empty DN succeeds exactly when `build_dn()` does. It then makes exactly one directory call, an add at `build_dn()` with the new entry's attributes, followed by `post_save` with `created` true. The record's DN becomes that address, which ends with `","` + `base_dn` |
| `Sync.SaveRenamesBeforeModify` | ldapdb/models/base.py:200-209 | With a non-empty modify list, the journal gets either one modify or one rename then one modify, followed by `post_save`. The rename goes from the old DN to `build_rdn()`, and it happens exactly when `build_dn()` differs from the old DN. The modify carries the diff and targets `build_dn()`, which becomes the record's DN |
| `Sync.SaveNoop` | ldapdb/models/base.py:200-211 | When no mapped field changed, an update makes no directory call, keeps the DN and still refreshes `saved_pk` |
| `Sync.SaveBookkeeping` | ldapdb/models/base.py:213-215 | A successful save sets `saved_pk` to the current `pk`, reports `created` exactly when the DN was empty, and sends `post_save` last. A save that fails to build a DN changes nothing and calls nothing |
| `Sync.SaveStaysUnderBase` | ldapdb/models/base.py:169-182 | A DN that is empty or under `base_dn` stays empty or under `base_dn` after a save |
| `Sync.ResaveIsNoop` | ldapdb/models/base.py:188-215 | After a successful save, a second save against a snapshot equal to the saved values makes no directory call |
| `Sync.Entry.constructor` | ldapdb/models/base.py:73-75 | A new instance starts with `saved_pk` equal to its own `pk` |
| `Sync.Entry.Save` | ldapdb/models/base.py:160-215 | `save` appends to the journal exactly the events `SaveEffect` gives and sets `dn` and `saved_pk` as it says. The snapshot it diffs is the one fetched by the old `saved_pk`. It uses the alias from `_get_connection(using)` and leaves the field values alone |
| `Sync.Entry.Delete` | ldapdb/models/base.py:151-158 | `delete` appends exactly one delete call at the current DN through the resolved alias, then `post_delete`, and leaves `dn` and `saved_pk` unchanged |

## Left out

- LDAP transport errors: every directory call succeeds in the model, so a failed
  `add_s`, `rename_s` or `modify_s`, and any state such a failure leaves behind,
  is not modelled.
- `exit` (`unbind`): connection teardown, external I/O.
- `connections[using]` raising for an unknown alias, and `objects.get` raising
  `DoesNotExist`: both belong to Django, whose machinery is not part of this
  model.
- The `connection` argument of the field codec: the codec is uninterpreted, and
  so is its dependence on the connection.
- The `sender` and `instance` arguments of the signals: only their order and
  `created` are recorded.
- Dynamic class synthesis in `scoped` and `bind_as` (the proxy `Meta`, the
  generated class name, the `re.sub` suffix): a variant is the `ModelClass`
  record with one field changed.
- `copy.deepcopy` is a value copy. `bind_as` mutates the dict stored under
  `alias` in place. The model replaces the map entry instead, so a holder of a
  reference to that dict would see the change in Python but not in the model.
- Values other than `None`, strings and integers (booleans, lists, bytes): their
  truthiness, `"%s"` rendering and equality are not modelled.
- `base_dn` left as `None`, which Python renders as `None` in the DN: the base
  DN is a string.
- A `DATABASES` entry is modelled as a map from string to string, though real
  entries also hold non-string values (`OPTIONS`, `TEST`, ports). `bind_as` only
  writes the string keys `USER` and `PASSWORD` and copies the rest unchanged, so
  nothing it does is lost.
- `search_scope`: metadata that this file never reads.
- Logging: it has no behavioural content.
- Concurrency and the window between the snapshot read and the modify: the code
  does not handle them.
