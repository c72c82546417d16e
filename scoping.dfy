/**
 * Connection selection (`_get_connection`) and the two variant factories of a model
 * class: `scoped`, which moves it under another base DN, and `bind_as`, which
 * registers a connection bound to another LDAP user and routes the variant through it.
 */
module Scoping {
  import opened Wrappers
  import opened Schema
  import opened Naming

  /** Python truthiness of an optional string: `None` and `""` are false. */
  predicate Given(o: Option<string>)
  {
    o.Some? && o.value != ""
  }

  /** `using or self.bound_alias or router.db_for_write(...)`; `routed` is the router's answer. */
  function ConnectionAlias(using: Option<string>, bound: Option<string>, routed: string): (a: string)
    ensures Given(using) ==> a == using.value
    ensures !Given(using) && Given(bound) ==> a == bound.value
    ensures !Given(using) && !Given(bound) ==> a == routed
  {
    if Given(using) then using.value
    else if Given(bound) then bound.value
    else routed
  }

  /**
   * `or` tests truthiness: an empty `using` counts as no `using` at all, and once a
   * truthy alias decides, the router's answer plays no part.
   */
  lemma ConnectionAliasTruthiness(using: Option<string>, bound: Option<string>, routed: string, routed': string)
    ensures ConnectionAlias(Some(""), bound, routed) == ConnectionAlias(None, bound, routed)
    ensures ConnectionAlias(using, Some(""), routed) == ConnectionAlias(using, None, routed)
    ensures Given(using) || Given(bound) ==> ConnectionAlias(using, bound, routed) == ConnectionAlias(using, bound, routed')
    ensures ConnectionAlias(using, bound, routed) in
              (if using.Some? then {using.value} else {}) + (if bound.Some? then {bound.value} else {}) + {routed}
  {
  }

  /** `scoped(base_dn)`: the same model under another base DN. */
  function Scoped(m: ModelClass, baseDn: string): (r: ModelClass)
    ensures r.baseDn == baseDn
    ensures r.fields == m.fields && r.objectClasses == m.objectClasses && r.boundAlias == m.boundAlias
  {
    m.(baseDn := baseDn)
  }

  /**
   * The scoped variant names entries with the same RDN under the new base DN,
   * and the original class still uses its own base DN.
   */
  lemma ScopedDn(m: ModelClass, baseDn: string, keys: map<string, Value>, caller: Caller)
    ensures Dn(Scoped(m, baseDn), keys, caller).Success? <==> Dn(m, keys, caller).Success?
    ensures Dn(m, keys, caller).Success? ==>
              && EndsWith(Dn(Scoped(m, baseDn), keys, caller).value, "," + baseDn)
              && EndsWith(Dn(m, keys, caller).value, "," + m.baseDn)
              && Dn(Scoped(m, baseDn), keys, caller).value[..|Dn(Scoped(m, baseDn), keys, caller).value| - |baseDn|]
                 == Dn(m, keys, caller).value[..|Dn(m, keys, caller).value| - |m.baseDn|]
  {
  }

  /** One entry of the `DATABASES` setting: its keys (`ENGINE`, `NAME`, `USER`, `PASSWORD`, ...). */
  type DbConfig = map<string, string>

  datatype BindError =
    | UnknownDatabase(alias: string)   // `settings.DATABASES[base_alias]` raises `KeyError`
    | CredentialFailed(error: DnError) // `build_dn(**kwargs)` raises

  datatype Binding = Binding(result: Result<ModelClass, BindError>, databases: map<string, DbConfig>)

  /** `password or ''` */
  function Password(password: Option<string>): string
  {
    if password.Some? then password.value else ""
  }

  /** The entry `bind_as` works on: the alias's own entry if it exists, else a copy of the routed one. */
  function BaseEntry(dbs: map<string, DbConfig>, alias: string, routed: string): DbConfig
    requires alias in dbs || routed in dbs
  {
    if alias in dbs then dbs[alias] else dbs[routed]
  }

  /** The credential `bind_as` binds with: the DN given, else `build_dn(**kwargs)` on the class. */
  function Credential(m: ModelClass, dn: Option<string>, keys: map<string, Value>): Result<string, DnError>
  {
    if dn.Some? then Success(dn.value) else Dn(m, keys, ClassLevel)
  }

  /**
   * What `bind_as(alias, dn, password, **keys)` returns and leaves in `DATABASES`.
   * The alias is registered before the credential is computed, so a failing
   * `build_dn` leaves the alias registered with an unmodified copy of the routed
   * alias's entry, including that entry's own `USER` and `PASSWORD`.
   */
  function BindAsEffect(dbs: map<string, DbConfig>, m: ModelClass, alias: string, dn: Option<string>,
                        password: Option<string>, keys: map<string, Value>, routed: string): Binding
  {
    if alias !in dbs && routed !in dbs then
      Binding(Failure(UnknownDatabase(routed)), dbs)
    else
      var entry := BaseEntry(dbs, alias, routed);
      match Credential(m, dn, keys)
      case Failure(e) => Binding(Failure(CredentialFailed(e)), dbs[alias := entry])
      case Success(user) =>
        Binding(Success(m.(boundAlias := Some(alias))),
                dbs[alias := entry["USER" := user]["PASSWORD" := Password(password)]])
  }

  /** The `DATABASES` registry that `bind_as` mutates in place. */
  class Settings {
    var databases: map<string, DbConfig>

    constructor (databases: map<string, DbConfig>)
      ensures this.databases == databases
    {
      this.databases := databases;
    }

    /** `bind_as`; `routed` is `router.db_for_write(base_class)`. */
    method BindAs(m: ModelClass, alias: string, dn: Option<string>, password: Option<string>,
                  keys: map<string, Value>, routed: string) returns (r: Result<ModelClass, BindError>)
      modifies this
      ensures Binding(r, databases) == BindAsEffect(old(databases), m, alias, dn, password, keys, routed)
    {
      var newDb: DbConfig;
      if alias !in databases {
        if routed !in databases {
          return Failure(UnknownDatabase(routed));
        }
        newDb := databases[routed];
        databases := databases[alias := newDb];
      } else {
        newDb := databases[alias];
      }
      var user: string;
      if dn.None? {
        var built := BuildDn(m, keys, ClassLevel);
        if built.Failure? {
          return Failure(CredentialFailed(built.error));
        }
        user := built.value;
      } else {
        user := dn.value;
      }
      newDb := newDb["USER" := user];
      newDb := newDb["PASSWORD" := Password(password)];
      databases := databases[alias := newDb];
      r := Success(m.(boundAlias := Some(alias)));
    }
  }

  /** `bind_as` touches only the entry of `alias`, and adds no alias but that one. */
  lemma BindAsOnlyTouchesAlias(dbs: map<string, DbConfig>, m: ModelClass, alias: string, dn: Option<string>,
                               password: Option<string>, keys: map<string, Value>, routed: string)
    ensures var b := BindAsEffect(dbs, m, alias, dn, password, keys, routed);
            && (forall a :: a in dbs && a != alias ==> a in b.databases && b.databases[a] == dbs[a])
            && (b.result == Failure(UnknownDatabase(routed)) <==> alias !in dbs && routed !in dbs)
            && (b.result.Failure? && b.result.error.UnknownDatabase? ==> b.databases == dbs)
            && (!b.result.Failure? || !b.result.error.UnknownDatabase? ==> b.databases.Keys == dbs.Keys + {alias})
  {
  }

  /**
   * A successful `bind_as` sets `USER` to the credential and `PASSWORD` to the password
   * (or `""`), keeps every other key of the entry it started from (the alias's own,
   * or the copied routed one), and returns the class bound to `alias`.
   */
  lemma BindAsCredentials(dbs: map<string, DbConfig>, m: ModelClass, alias: string, dn: Option<string>,
                          password: Option<string>, keys: map<string, Value>, routed: string)
    requires BindAsEffect(dbs, m, alias, dn, password, keys, routed).result.Success?
    ensures var b := BindAsEffect(dbs, m, alias, dn, password, keys, routed);
            && (alias in dbs || routed in dbs)
            && Credential(m, dn, keys).Success?
            && b.result.value == m.(boundAlias := Some(alias))
            && alias in b.databases
            && b.databases[alias]["USER"] == Credential(m, dn, keys).value
            && b.databases[alias]["PASSWORD"] == Password(password)
            && b.databases[alias].Keys == BaseEntry(dbs, alias, routed).Keys + {"USER", "PASSWORD"}
            && (forall k :: k in BaseEntry(dbs, alias, routed) && k != "USER" && k != "PASSWORD" ==>
                  b.databases[alias][k] == BaseEntry(dbs, alias, routed)[k])
  {
  }

  /** When `build_dn` fails, the alias stays registered with an unmodified copy of its base entry. */
  lemma BindAsFailureKeepsRegistration(dbs: map<string, DbConfig>, m: ModelClass, alias: string,
                                       password: Option<string>, keys: map<string, Value>, routed: string)
    requires alias in dbs || routed in dbs
    requires Dn(m, keys, ClassLevel).Failure?
    ensures var b := BindAsEffect(dbs, m, alias, None, password, keys, routed);
            && b.result == Failure(CredentialFailed(Dn(m, keys, ClassLevel).error))
            && alias in b.databases && b.databases[alias] == BaseEntry(dbs, alias, routed)
            && (alias !in dbs && "USER" in dbs[routed] ==> b.databases[alias]["USER"] == dbs[routed]["USER"])
  {
  }

  /** Repeating a successful `bind_as` reuses the registered entry and changes nothing more. */
  lemma BindAsIdempotent(dbs: map<string, DbConfig>, m: ModelClass, alias: string, dn: Option<string>,
                         password: Option<string>, keys: map<string, Value>, routed: string)
    requires BindAsEffect(dbs, m, alias, dn, password, keys, routed).result.Success?
    ensures var b := BindAsEffect(dbs, m, alias, dn, password, keys, routed);
            BindAsEffect(b.databases, m, alias, dn, password, keys, routed) == b
  {
    var b := BindAsEffect(dbs, m, alias, dn, password, keys, routed);
    var e := b.databases[alias];
    var again := e["USER" := Credential(m, dn, keys).value]["PASSWORD" := Password(password)];
    assert again == e;
    assert b.databases[alias := again] == b.databases;
  }

  /**
   * Instances of the bound variant go through `alias` unless a call names another
   * connection, and they are addressed exactly as instances of the original class.
   */
  lemma BoundVariantRoutes(dbs: map<string, DbConfig>, m: ModelClass, alias: string, dn: Option<string>,
                           password: Option<string>, keys: map<string, Value>, routed: string,
                           using: Option<string>, laterRouted: string, keys': map<string, Value>, caller: Caller)
    requires alias != ""
    requires BindAsEffect(dbs, m, alias, dn, password, keys, routed).result.Success?
    ensures var v := BindAsEffect(dbs, m, alias, dn, password, keys, routed).result.value;
            && ConnectionAlias(using, v.boundAlias, laterRouted) == (if Given(using) then using.value else alias)
            && Dn(v, keys', caller) == Dn(m, keys', caller)
  {
  }

  /**
   * `bind_as("")` writes its credentials under the alias `""`, but the variant's
   * `bound_alias` is then falsy, so its instances go through the router instead.
   */
  lemma EmptyAliasBindingUnused(dbs: map<string, DbConfig>, m: ModelClass, dn: string, password: Option<string>,
                                keys: map<string, Value>, routed: string, laterRouted: string)
    requires "" in dbs || routed in dbs
    ensures var b := BindAsEffect(dbs, m, "", Some(dn), password, keys, routed);
            && b.result.Success?
            && "" in b.databases && b.databases[""]["USER"] == dn
            && ConnectionAlias(None, b.result.value.boundAlias, laterRouted) == laterRouted
  {
  }
}
