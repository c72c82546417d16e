/**
 * Relative and full Distinguished Names of an entry (`build_rdn`, `build_dn`).
 * Both can be called on the model class, with every key supplied, or on an
 * instance, whose own primary-key value fills in a key that is not supplied.
 */
module Naming {
  import opened Wrappers
  import opened Schema
  import Sift

  /** `TypeError("All keys must be specified ...")` and `Exception("Could not build Distinguished Name")`. */
  datatype DnError = KeysRequired | NoRdn

  /** Who `build_rdn` is bound to: the class, or an instance with its field values. */
  datatype Caller = ClassLevel | OnInstance(values: seq<Value>)

  /** An instance carries a value for every declared field. */
  predicate Fits(caller: Caller, fields: seq<Field>)
  {
    caller.OnInstance? ==> |caller.values| == |fields|
  }

  /** A mapped primary-key field with no supplied key: only an instance can provide its value. */
  predicate NeedsKey(f: Field, keys: map<string, Value>)
  {
    Mapped(f) && f.name !in keys && f.primaryKey
  }

  /** The fields that contribute a bit to the RDN. */
  predicate Emits(f: Field, keys: map<string, Value>)
  {
    Mapped(f) && (f.name in keys || f.primaryKey)
  }

  /** The value used for field `i`: the supplied key, else the instance's own value. */
  function Chosen(fields: seq<Field>, keys: map<string, Value>, caller: Caller, i: nat): Value
    requires i < |fields|
  {
    if fields[i].name in keys then keys[fields[i].name]
    else if caller.OnInstance? && i < |caller.values| then caller.values[i]
    else Null
  }

  /** `"%s=%s" % (db_column, value)` */
  function Bit(column: string, v: Value): string
  {
    column + "=" + Show(v)
  }

  /** `sep.join(parts)` */
  function Join(sep: string, parts: seq<string>): string
  {
    if |parts| == 0 then ""
    else if |parts| == 1 then parts[0]
    else parts[0] + sep + Join(sep, parts[1..])
  }

  /** The bit one step of the `build_rdn` loop appends for field `i`, if any. */
  function BitPick(fields: seq<Field>, keys: map<string, Value>, caller: Caller): nat -> Option<string>
  {
    (i: nat) =>
      if i < |fields| && Mapped(fields[i]) then
        if fields[i].name in keys then Some(Bit(fields[i].column, keys[fields[i].name]))
        else if fields[i].primaryKey && caller.OnInstance? && i < |caller.values| then
          Some(Bit(fields[i].column, caller.values[i]))
        else None
      else None
  }

  /** The bits of the RDN, in declaration order. */
  function RdnBits(fields: seq<Field>, keys: map<string, Value>, caller: Caller): seq<string>
  {
    Sift.Gather(|fields|, BitPick(fields, keys, caller))
  }

  /** The indices of the fields that gave a bit, in declaration order. */
  function RdnFieldIndices(fields: seq<Field>, keys: map<string, Value>, caller: Caller): seq<nat>
  {
    Sift.Hits(|fields|, BitPick(fields, keys, caller))
  }

  /** What `build_rdn(**keys)` returns or raises. */
  function Rdn(fields: seq<Field>, keys: map<string, Value>, caller: Caller): Result<string, DnError>
  {
    if caller.ClassLevel? && exists i :: 0 <= i < |fields| && NeedsKey(fields[i], keys) then
      Failure(KeysRequired)
    else if RdnBits(fields, keys, caller) == [] then
      Failure(NoRdn)
    else
      Success(Join("+", RdnBits(fields, keys, caller)))
  }

  /** What `build_dn(**keys)` returns or raises: the RDN, a comma, and the base DN. */
  function Dn(m: ModelClass, keys: map<string, Value>, caller: Caller): Result<string, DnError>
  {
    match Rdn(m.fields, keys, caller)
    case Success(rdn) => Success(rdn + "," + m.baseDn)
    case Failure(e) => Failure(e)
  }

  predicate EndsWith(s: string, suffix: string)
  {
    |suffix| <= |s| && s[|s| - |suffix|..] == suffix
  }

  /** The `build_rdn` loop: walks the fields in order, accumulating bits. */
  method BuildRdn(fields: seq<Field>, keys: map<string, Value>, caller: Caller) returns (r: Result<string, DnError>)
    requires Fits(caller, fields)
    ensures r == Rdn(fields, keys, caller)
  {
    var bits: seq<string> := [];
    var i := 0;
    while i < |fields|
      invariant 0 <= i <= |fields|
      invariant bits == Sift.Gather(i, BitPick(fields, keys, caller))
      invariant caller.ClassLevel? ==> forall j :: 0 <= j < i ==> !NeedsKey(fields[j], keys)
    {
      var f := fields[i];
      if Mapped(f) {
        if f.name in keys {
          bits := bits + [Bit(f.column, keys[f.name])];
        } else if f.primaryKey {
          if caller.ClassLevel? {
            assert NeedsKey(fields[i], keys);
            return Failure(KeysRequired);
          }
          bits := bits + [Bit(f.column, caller.values[i])];
        }
      }
      i := i + 1;
    }
    if |bits| == 0 {
      return Failure(NoRdn);
    }
    return Success(Join("+", bits));
  }

  /** `build_dn`: formats the result of `build_rdn` with the base DN. */
  method BuildDn(m: ModelClass, keys: map<string, Value>, caller: Caller) returns (r: Result<string, DnError>)
    requires Fits(caller, m.fields)
    ensures r == Dn(m, keys, caller)
  {
    var rdn := BuildRdn(m.fields, keys, caller);
    if rdn.Failure? {
      return Failure(rdn.error);
    }
    return Success(rdn.value + "," + m.baseDn);
  }

  /**
   * A successful RDN is the `+`-join, in declaration order, of `column=value` for
   * exactly the mapped fields that are named in `keys` or are the primary key; a
   * supplied key wins over the instance's value.
   */
  lemma RdnFields(fields: seq<Field>, keys: map<string, Value>, caller: Caller)
    requires Fits(caller, fields)
    requires Rdn(fields, keys, caller).Success?
    ensures Rdn(fields, keys, caller).value == Join("+", RdnBits(fields, keys, caller))
    ensures |RdnBits(fields, keys, caller)| == |RdnFieldIndices(fields, keys, caller)| > 0
    ensures forall i: nat :: i in RdnFieldIndices(fields, keys, caller) <==> i < |fields| && Emits(fields[i], keys)
    ensures forall j, k :: 0 <= j < k < |RdnFieldIndices(fields, keys, caller)| ==>
              RdnFieldIndices(fields, keys, caller)[j] < RdnFieldIndices(fields, keys, caller)[k]
    ensures forall k :: 0 <= k < |RdnFieldIndices(fields, keys, caller)| ==>
              var i := RdnFieldIndices(fields, keys, caller)[k];
              i < |fields| && RdnBits(fields, keys, caller)[k] == Bit(fields[i].column, Chosen(fields, keys, caller, i))
  {
    var pick := BitPick(fields, keys, caller);
    var bits, idx := RdnBits(fields, keys, caller), RdnFieldIndices(fields, keys, caller);
    Sift.GatherAtHits(|fields|, pick);
    Sift.HitsExactly(|fields|, pick);
    assert caller.ClassLevel? ==> forall i :: 0 <= i < |fields| ==> !NeedsKey(fields[i], keys);
    assert forall i: nat | i < |fields| :: pick(i).Some? <==> Emits(fields[i], keys);
    forall k | 0 <= k < |idx|
      ensures idx[k] < |fields| && bits[k] == Bit(fields[idx[k]].column, Chosen(fields, keys, caller, idx[k]))
    {
      assert idx[k] in idx;
    }
  }

  /** `build_rdn` fails exactly when a class-level call misses a key, or when no bit is emitted. */
  lemma RdnFailures(fields: seq<Field>, keys: map<string, Value>, caller: Caller)
    requires Fits(caller, fields)
    ensures Rdn(fields, keys, caller) == Failure(KeysRequired) <==>
              caller.ClassLevel? && exists i :: 0 <= i < |fields| && NeedsKey(fields[i], keys)
    ensures Rdn(fields, keys, caller) == Failure(NoRdn) <==>
              && (caller.ClassLevel? ==> forall i :: 0 <= i < |fields| ==> !NeedsKey(fields[i], keys))
              && (forall i :: 0 <= i < |fields| ==> !Emits(fields[i], keys))
  {
    var pick := BitPick(fields, keys, caller);
    Sift.GatherEmpty(|fields|, pick);
    if caller.OnInstance? || forall i :: 0 <= i < |fields| ==> !NeedsKey(fields[i], keys) {
      assert forall i | 0 <= i < |fields| && Emits(fields[i], keys) :: pick(i).Some?;
    }
  }

  /** `build_dn` is `build_rdn` plus `","` and the base DN, and fails exactly when `build_rdn` does. */
  lemma DnShape(m: ModelClass, keys: map<string, Value>, caller: Caller)
    ensures Dn(m, keys, caller).Success? <==> Rdn(m.fields, keys, caller).Success?
    ensures Dn(m, keys, caller).Failure? ==> Dn(m, keys, caller).error == Rdn(m.fields, keys, caller).error
    ensures Dn(m, keys, caller).Success? ==>
              && Dn(m, keys, caller).value == Rdn(m.fields, keys, caller).value + "," + m.baseDn
              && EndsWith(Dn(m, keys, caller).value, "," + m.baseDn)
  {
  }

  /** A `uid` model: `uid` is the mapped primary key, `cn` a mapped field, `notes` a local-only one. */
  function PeopleFields(): seq<Field>
  {
    [Field("uid", "uid", true), Field("cn", "cn", false), Field("notes", "", false)]
  }

  /**
   * An instance with `uid="alice"` names itself `uid=alice`; the class with the key
   * supplied names `uid=bob`; the class with no key fails.
   */
  lemma PeopleRdnExamples()
    ensures Rdn(PeopleFields(), map[], OnInstance([Text("alice"), Text("Alice"), Text("x")])) == Success("uid=alice")
    ensures Rdn(PeopleFields(), map["uid" := Text("bob")], ClassLevel) == Success("uid=bob")
    ensures Rdn(PeopleFields(), map[], ClassLevel) == Failure(KeysRequired)
    ensures Rdn(PeopleFields(), map["cn" := Text("Carol")], OnInstance([Text("carol"), Null, Null]))
              == Success("uid=carol+cn=Carol")
  {
    var fields := PeopleFields();
    assert NeedsKey(fields[0], map[]);

    assert Bit("uid", Text("alice")) == "uid=alice" by { assert "uid" + "=" + "alice" == "uid=alice"; }
    assert Bit("uid", Text("bob")) == "uid=bob" by { assert "uid" + "=" + "bob" == "uid=bob"; }
    assert Bit("uid", Text("carol")) == "uid=carol" by { assert "uid" + "=" + "carol" == "uid=carol"; }
    assert Bit("cn", Text("Carol")) == "cn=Carol" by { assert "cn" + "=" + "Carol" == "cn=Carol"; }
    assert "uid=carol" + "+" + "cn=Carol" == "uid=carol+cn=Carol";

    var alice := BitPick(fields, map[], OnInstance([Text("alice"), Text("Alice"), Text("x")]));
    assert alice(0) == Some("uid=alice") && alice(1) == None && alice(2) == None;
    assert Sift.Gather(1, alice) == ["uid=alice"];
    assert Sift.Gather(3, alice) == ["uid=alice"];

    var bob := BitPick(fields, map["uid" := Text("bob")], ClassLevel);
    assert bob(0) == Some("uid=bob") && bob(1) == None && bob(2) == None;
    assert Sift.Gather(1, bob) == ["uid=bob"];
    assert Sift.Gather(3, bob) == ["uid=bob"];

    var carol := BitPick(fields, map["cn" := Text("Carol")], OnInstance([Text("carol"), Null, Null]));
    assert carol(0) == Some("uid=carol") && carol(1) == Some("cn=Carol") && carol(2) == None;
    assert Sift.Gather(1, carol) == ["uid=carol"];
    assert Sift.Gather(2, carol) == ["uid=carol", "cn=Carol"];
    assert Sift.Gather(3, carol) == ["uid=carol", "cn=Carol"];
    assert Join("+", ["uid=carol", "cn=Carol"]) == "uid=carol" + "+" + Join("+", ["cn=Carol"]);
  }
}
