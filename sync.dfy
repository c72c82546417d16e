/**
 * The entry synchroniser: an LDAP model instance and its `save` and `delete`.
 * `save` creates the entry when the instance has no DN yet; otherwise it diffs the
 * last-persisted snapshot against the current values and, if anything changed,
 * renames the entry first when its DN changed and then modifies it.
 */
module Sync {
  import opened Wrappers
  import opened Schema
  import opened Naming
  import opened Directory
  import opened Scoping
  import Sift

  /** The field codec `field.get_db_prep_save(value, connection=...)`, left uninterpreted. */
  type Codec = (Field, Value) -> Wire

  // ---------------------------------------------------------------- create path

  /** The attribute one step of the create loop appends for field `i`, if any. */
  function AttributePick(fields: seq<Field>, values: seq<Value>, encode: Codec): nat -> Option<(string, Wire)>
  {
    (i: nat) =>
      if i < |fields| && i < |values| && Mapped(fields[i]) && !IsEmpty(values[i]) then
        Some((fields[i].column, encode(fields[i], values[i])))
      else None
  }

  /** The attribute list `save` adds a new entry with. */
  function NewEntryAttributes(m: ModelClass, values: seq<Value>, encode: Codec): seq<(string, Wire)>
  {
    [("objectClass", m.objectClasses)] + Sift.Gather(|m.fields|, AttributePick(m.fields, values, encode))
  }

  /** The indices of the fields that appear in the new entry, in declaration order. */
  function NewEntryFieldIndices(m: ModelClass, values: seq<Value>, encode: Codec): seq<nat>
  {
    Sift.Hits(|m.fields|, AttributePick(m.fields, values, encode))
  }

  /**
   * A new entry lists `objectClass` first and then, in declaration order, every
   * mapped field whose value is not empty, encoded.
   */
  lemma NewEntryExactly(m: ModelClass, values: seq<Value>, encode: Codec)
    requires |values| == |m.fields|
    ensures NewEntryAttributes(m, values, encode)[0] == ("objectClass", m.objectClasses)
    ensures |NewEntryAttributes(m, values, encode)| == 1 + |NewEntryFieldIndices(m, values, encode)|
    ensures forall i: nat :: i in NewEntryFieldIndices(m, values, encode) <==>
              i < |m.fields| && Mapped(m.fields[i]) && !IsEmpty(values[i])
    ensures forall j, k :: 0 <= j < k < |NewEntryFieldIndices(m, values, encode)| ==>
              NewEntryFieldIndices(m, values, encode)[j] < NewEntryFieldIndices(m, values, encode)[k]
    ensures forall k :: 0 <= k < |NewEntryFieldIndices(m, values, encode)| ==>
              var i := NewEntryFieldIndices(m, values, encode)[k];
              i < |m.fields| &&
              NewEntryAttributes(m, values, encode)[k + 1] == (m.fields[i].column, encode(m.fields[i], values[i]))
  {
    var pick := AttributePick(m.fields, values, encode);
    var idx := NewEntryFieldIndices(m, values, encode);
    Sift.GatherAtHits(|m.fields|, pick);
    Sift.HitsExactly(|m.fields|, pick);
    forall k | 0 <= k < |idx|
      ensures idx[k] < |m.fields|
      ensures NewEntryAttributes(m, values, encode)[k + 1] == (m.fields[idx[k]].column, encode(m.fields[idx[k]], values[idx[k]]))
    {
      assert idx[k] in idx;
    }
  }

  // ---------------------------------------------------------------- update path

  /** The modification the diff loop queues for one field, if any. */
  function ModFor(f: Field, before: Value, after: Value, encode: Codec): Option<Modification>
  {
    if !Mapped(f) || before == after then None
    else if !IsEmpty(after) then Some(ModReplace(f.column, encode(f, after)))
    else if !IsEmpty(before) then Some(ModDelete(f.column))
    else None
  }

  function DiffPick(fields: seq<Field>, orig: seq<Value>, current: seq<Value>, encode: Codec): nat -> Option<Modification>
  {
    (i: nat) => if i < |fields| then ModFor(fields[i], ValueAt(orig, i), ValueAt(current, i), encode) else None
  }

  /** The modify list `save` computes from the snapshot `orig` and the current values. */
  function Diff(fields: seq<Field>, orig: seq<Value>, current: seq<Value>, encode: Codec): seq<Modification>
  {
    Sift.Gather(|fields|, DiffPick(fields, orig, current, encode))
  }

  /** The indices of the fields that gave a modification, in declaration order. */
  function DiffFieldIndices(fields: seq<Field>, orig: seq<Value>, current: seq<Value>, encode: Codec): seq<nat>
  {
    Sift.Hits(|fields|, DiffPick(fields, orig, current, encode))
  }

  /** A field changed in a way LDAP has to hear about: not equal, and not empty on both sides. */
  predicate Changed(f: Field, before: Value, after: Value)
  {
    Mapped(f) && before != after && !(IsEmpty(before) && IsEmpty(after))
  }

  /**
   * The modify list holds, in declaration order, one entry for each changed mapped
   * field: a replace with the encoded new value when that value is not empty, and a
   * delete when the new value is empty (and the old one was not).
   */
  lemma DiffExactly(fields: seq<Field>, orig: seq<Value>, current: seq<Value>, encode: Codec)
    ensures |Diff(fields, orig, current, encode)| == |DiffFieldIndices(fields, orig, current, encode)|
    ensures forall i: nat :: i in DiffFieldIndices(fields, orig, current, encode) <==>
              i < |fields| && Changed(fields[i], ValueAt(orig, i), ValueAt(current, i))
    ensures forall j, k :: 0 <= j < k < |DiffFieldIndices(fields, orig, current, encode)| ==>
              DiffFieldIndices(fields, orig, current, encode)[j] < DiffFieldIndices(fields, orig, current, encode)[k]
    ensures forall k :: 0 <= k < |DiffFieldIndices(fields, orig, current, encode)| ==>
              var i := DiffFieldIndices(fields, orig, current, encode)[k];
              i < |fields| &&
              Diff(fields, orig, current, encode)[k] ==
                (if IsEmpty(ValueAt(current, i)) then ModDelete(fields[i].column)
                 else ModReplace(fields[i].column, encode(fields[i], ValueAt(current, i))))
  {
    var pick := DiffPick(fields, orig, current, encode);
    var idx := DiffFieldIndices(fields, orig, current, encode);
    Sift.GatherAtHits(|fields|, pick);
    Sift.HitsExactly(|fields|, pick);
    forall k | 0 <= k < |idx|
      ensures idx[k] < |fields|
    {
      assert idx[k] in idx;
    }
  }

  /** The modify list is empty exactly when every mapped field is equal, or empty on both sides. */
  lemma DiffEmptyIff(fields: seq<Field>, orig: seq<Value>, current: seq<Value>, encode: Codec)
    ensures Diff(fields, orig, current, encode) == [] <==>
              forall i :: 0 <= i < |fields| ==> !Changed(fields[i], ValueAt(orig, i), ValueAt(current, i))
  {
    var pick := DiffPick(fields, orig, current, encode);
    Sift.GatherEmpty(|fields|, pick);
    assert forall i: nat :: i < |fields| ==>
             (pick(i).None? <==> !Changed(fields[i], ValueAt(orig, i), ValueAt(current, i)));
  }

  /** Diffing values against themselves queues nothing. */
  lemma DiffOfSame(fields: seq<Field>, values: seq<Value>, encode: Codec)
    ensures Diff(fields, values, values, encode) == []
  {
    DiffEmptyIff(fields, values, values, encode);
  }

  /** The create loop of `save`: `objectClass`, then every mapped non-empty field, encoded. */
  method NewEntry(m: ModelClass, values: seq<Value>, encode: Codec) returns (entry: seq<(string, Wire)>)
    requires |values| == |m.fields|
    ensures entry == NewEntryAttributes(m, values, encode)
  {
    entry := [("objectClass", m.objectClasses)];
    var i := 0;
    while i < |m.fields|
      invariant 0 <= i <= |m.fields|
      invariant entry == [("objectClass", m.objectClasses)] + Sift.Gather(i, AttributePick(m.fields, values, encode))
    {
      var f := m.fields[i];
      if Mapped(f) {
        var value := values[i];
        if !IsEmpty(value) {
          entry := entry + [(f.column, encode(f, value))];
        }
      }
      i := i + 1;
    }
  }

  /** The diff loop of `save`: compares the snapshot with the current values, field by field. */
  method ComputeModlist(fields: seq<Field>, orig: seq<Value>, current: seq<Value>, encode: Codec)
    returns (modlist: seq<Modification>)
    ensures modlist == Diff(fields, orig, current, encode)
  {
    modlist := [];
    var i := 0;
    while i < |fields|
      invariant 0 <= i <= |fields|
      invariant modlist == Sift.Gather(i, DiffPick(fields, orig, current, encode))
    {
      var f := fields[i];
      if Mapped(f) {
        var oldValue := ValueAt(orig, i);
        var newValue := ValueAt(current, i);
        if oldValue != newValue {
          if !IsEmpty(newValue) {
            modlist := modlist + [ModReplace(f.column, encode(f, newValue))];
          } else if !IsEmpty(oldValue) {
            modlist := modlist + [ModDelete(f.column)];
          }
        }
      }
      i := i + 1;
    }
  }

  /**
   * `0` is falsy: an integer field changed from 5 to 0 is deleted rather than
   * replaced, and a new entry leaves out an integer field set to 0.
   */
  lemma ZeroIsEmptyExample(encode: Codec)
    ensures Diff([Field("n", "uidNumber", false)], [Number(5)], [Number(0)], encode) == [ModDelete("uidNumber")]
    ensures NewEntryAttributes(ModelClass([Field("n", "uidNumber", false)], ["top"], "dc=example", None), [Number(0)], encode)
              == [("objectClass", ["top"])]
  {
    var fields := [Field("n", "uidNumber", false)];
    assert DiffPick(fields, [Number(5)], [Number(0)], encode)(0) == Some(ModDelete("uidNumber"));
    assert Sift.Gather(1, DiffPick(fields, [Number(5)], [Number(0)], encode)) == [ModDelete("uidNumber")];
    assert AttributePick(fields, [Number(0)], encode)(0) == None;
    assert Sift.Gather(1, AttributePick(fields, [Number(0)], encode)) == [];
  }

  // ---------------------------------------------------------------- save as a whole

  /** What one `save` returns, leaves in `dn` and `saved_pk`, and appends to the journal. */
  datatype Outcome = Outcome(result: Result<bool, DnError>, dn: string, savedPk: Value, events: seq<Event>)

  /**
   * The effect of `save` on a record with DN `dn`, saved key `savedPk` and field
   * values `values`, given the snapshot `orig` fetched by `savedPk` and the
   * connection alias it resolved. A successful result carries `created`.
   */
  function SaveEffect(m: ModelClass, dn: string, savedPk: Value, values: seq<Value>, orig: seq<Value>,
                      alias: string, encode: Codec): Outcome
    requires |values| == |m.fields|
  {
    var pk := Pk(m.fields, values);
    if dn == "" then
      match Dn(m, map[], OnInstance(values))
      case Failure(e) => Outcome(Failure(e), dn, savedPk, [])
      case Success(newDn) =>
        Outcome(Success(true), newDn, pk, [AddEntry(alias, newDn, NewEntryAttributes(m, values, encode)), PostSave(true)])
    else
      var mods := Diff(m.fields, orig, values, encode);
      if mods == [] then
        Outcome(Success(false), dn, pk, [PostSave(false)])
      else
        match Dn(m, map[], OnInstance(values))
        case Failure(e) => Outcome(Failure(e), dn, savedPk, [])
        case Success(newDn) =>
          var rename := if newDn != dn then [RenameEntry(alias, dn, Rdn(m.fields, map[], OnInstance(values)).value)] else [];
          Outcome(Success(false), newDn, pk, rename + [ModifyEntry(alias, newDn, mods), PostSave(false)])
  }

  /** `dn` is empty (not created yet) or names an entry under `baseDn`. */
  predicate UnderBase(dn: string, baseDn: string)
  {
    dn == "" || EndsWith(dn, "," + baseDn)
  }

  /**
   * Create path: a successful create makes exactly one directory call, an add at
   * `build_dn()` with the new entry's attributes, followed by the post-save signal
   * with `created` set; the DN of the record becomes that of the new entry.
   */
  lemma SaveCreates(m: ModelClass, savedPk: Value, values: seq<Value>, orig: seq<Value>, alias: string, encode: Codec)
    requires |values| == |m.fields|
    ensures var o := SaveEffect(m, "", savedPk, values, orig, alias, encode);
            && (o.result.Success? <==> Dn(m, map[], OnInstance(values)).Success?)
            && (o.result.Success? ==>
                  && o.result.value
                  && o.dn == Dn(m, map[], OnInstance(values)).value
                  && EndsWith(o.dn, "," + m.baseDn)
                  && |o.events| == 2
                  && o.events[0] == AddEntry(alias, o.dn, NewEntryAttributes(m, values, encode))
                  && (forall j :: 0 <= j < |o.events| && IsCall(o.events[j]) ==> j == 0)
                  && o.events[1] == PostSave(true))
  {
  }

  /**
   * Update path with changes: the only calls are an optional rename and then one
   * modify. The rename, from the old DN to `build_rdn()`, happens exactly when
   * `build_dn()` differs from the old DN, and comes before the modify; the modify
   * carries the diff and targets the new DN, which the record keeps.
   */
  lemma SaveRenamesBeforeModify(m: ModelClass, dn: string, savedPk: Value, values: seq<Value>, orig: seq<Value>,
                                alias: string, encode: Codec)
    requires |values| == |m.fields|
    requires dn != ""
    requires Diff(m.fields, orig, values, encode) != []
    requires SaveEffect(m, dn, savedPk, values, orig, alias, encode).result.Success?
    ensures var o := SaveEffect(m, dn, savedPk, values, orig, alias, encode);
            var k := |o.events| - 2;
            && Dn(m, map[], OnInstance(values)) == Success(o.dn)
            && 0 <= k
            && |o.events| == (if o.dn != dn then 3 else 2)
            && o.events[|o.events| - 1] == PostSave(false)
            && o.events[k] == ModifyEntry(alias, o.dn, Diff(m.fields, orig, values, encode))
            && (forall j :: 0 <= j < |o.events| && IsCall(o.events[j]) && j != k ==>
                  j < k && o.events[j] == RenameEntry(alias, dn, Rdn(m.fields, map[], OnInstance(values)).value))
            && ((exists j :: 0 <= j < |o.events| && o.events[j].RenameEntry?) <==> o.dn != dn)
  {
    var o := SaveEffect(m, dn, savedPk, values, orig, alias, encode);
    if o.dn == dn {
      assert forall j :: 0 <= j < |o.events| ==> !o.events[j].RenameEntry?;
    } else {
      assert o.events[0].RenameEntry?;
    }
  }

  /** Update path without changes: no directory call at all, and the DN is kept. */
  lemma SaveNoop(m: ModelClass, dn: string, savedPk: Value, values: seq<Value>, orig: seq<Value>,
                 alias: string, encode: Codec)
    requires |values| == |m.fields|
    requires dn != ""
    requires forall i :: 0 <= i < |m.fields| ==> !Changed(m.fields[i], ValueAt(orig, i), ValueAt(values, i))
    ensures var o := SaveEffect(m, dn, savedPk, values, orig, alias, encode);
            && o.result == Success(false)
            && o.dn == dn
            && o.savedPk == Pk(m.fields, values)
            && (forall e :: e in o.events ==> !IsCall(e))
  {
    DiffEmptyIff(m.fields, orig, values, encode);
  }

  /**
   * Every successful save refreshes `saved_pk` to the current key, reports
   * `created` exactly when the DN was empty, and signals it last. A failed save
   * (no DN can be built) changes nothing and calls nothing.
   */
  lemma SaveBookkeeping(m: ModelClass, dn: string, savedPk: Value, values: seq<Value>, orig: seq<Value>,
                        alias: string, encode: Codec)
    requires |values| == |m.fields|
    ensures var o := SaveEffect(m, dn, savedPk, values, orig, alias, encode);
            && (o.result.Success? ==>
                  && o.savedPk == Pk(m.fields, values)
                  && o.result.value == (dn == "")
                  && |o.events| > 0 && o.events[|o.events| - 1] == PostSave(dn == ""))
            && (o.result.Failure? ==>
                  && o.dn == dn && o.savedPk == savedPk && o.events == []
                  && Dn(m, map[], OnInstance(values)) == Failure(o.result.error))
  {
  }

  /** Saving keeps the record's DN empty or under the model's base DN. */
  lemma SaveStaysUnderBase(m: ModelClass, dn: string, savedPk: Value, values: seq<Value>, orig: seq<Value>,
                           alias: string, encode: Codec)
    requires |values| == |m.fields|
    requires UnderBase(dn, m.baseDn)
    ensures UnderBase(SaveEffect(m, dn, savedPk, values, orig, alias, encode).dn, m.baseDn)
  {
  }

  /**
   * After a successful save, saving again against a snapshot equal to the saved
   * values issues no directory call: the record converged.
   */
  lemma ResaveIsNoop(m: ModelClass, dn: string, savedPk: Value, values: seq<Value>, orig: seq<Value>,
                     alias: string, alias': string, encode: Codec)
    requires |values| == |m.fields|
    requires SaveEffect(m, dn, savedPk, values, orig, alias, encode).result.Success?
    ensures var o := SaveEffect(m, dn, savedPk, values, orig, alias, encode);
            SaveEffect(m, o.dn, o.savedPk, values, values, alias', encode)
              == Outcome(Success(false), o.dn, o.savedPk, [PostSave(false)])
  {
    var o := SaveEffect(m, dn, savedPk, values, orig, alias, encode);
    DnShape(m, map[], OnInstance(values));
    DiffOfSame(m.fields, values, encode);
    assert o.dn != "";
  }

  // ---------------------------------------------------------------- the record

  /** An instance of an LDAP model. */
  class Entry {
    const model: ModelClass
    var values: seq<Value>
    var dn: string
    var savedPk: Value

    ghost predicate Valid()
      reads this
    {
      |values| == |model.fields|
    }

    /** `__init__`: `saved_pk` starts as the instance's own key. */
    constructor (model: ModelClass, values: seq<Value>, dn: string)
      requires |values| == |model.fields|
      ensures Valid()
      ensures this.model == model && this.values == values && this.dn == dn
      ensures savedPk == Pk(model.fields, values)
    {
      this.model := model;
      this.values := values;
      this.dn := dn;
      this.savedPk := Pk(model.fields, values);
    }

    /**
     * `save(using)`: `routed` is the router's choice of connection, `fetch` the
     * point lookup `objects.get(pk=...)` giving the last-persisted field values.
     */
    method Save(using: Option<string>, routed: string, fetch: Value -> seq<Value>, encode: Codec, journal: Journal)
      returns (r: Result<bool, DnError>)
      requires Valid()
      modifies this, journal
      ensures Valid() && values == old(values)
      ensures var o := SaveEffect(model, old(dn), old(savedPk), values, fetch(old(savedPk)),
                                  ConnectionAlias(using, model.boundAlias, routed), encode);
              && r == o.result && dn == o.dn && savedPk == o.savedPk
              && journal.events == old(journal.events) + o.events
    {
      var alias := ConnectionAlias(using, model.boundAlias, routed);
      var created: bool;
      if dn == "" {
        created := true;
        var newDn := BuildDn(model, map[], OnInstance(values));
        if newDn.Failure? {
          return Failure(newDn.error);
        }
        var entry := NewEntry(model, values, encode);
        journal.Record(AddEntry(alias, newDn.value, entry));
        dn := newDn.value;
      } else {
        created := false;
        var orig := fetch(savedPk);
        var modlist := ComputeModlist(model.fields, orig, values, encode);
        if |modlist| > 0 {
          var newDn := BuildDn(model, map[], OnInstance(values));
          if newDn.Failure? {
            return Failure(newDn.error);
          }
          if newDn.value != dn {
            var rdn := BuildRdn(model.fields, map[], OnInstance(values));
            journal.Record(RenameEntry(alias, dn, rdn.value));
            dn := newDn.value;
          }
          journal.Record(ModifyEntry(alias, dn, modlist));
        }
      }
      savedPk := Pk(model.fields, values);
      journal.Record(PostSave(created));
      r := Success(created);
    }

    /** `delete(using)`: one delete call at the current DN, then the post-delete signal. */
    method Delete(using: Option<string>, routed: string, journal: Journal)
      modifies journal
      ensures journal.events == old(journal.events)
                + [DeleteEntry(ConnectionAlias(using, model.boundAlias, routed), dn), PostDelete]
      ensures unchanged(this)
    {
      var alias := ConnectionAlias(using, model.boundAlias, routed);
      journal.Record(DeleteEntry(alias, dn));
      journal.Record(PostDelete);
    }
  }
}
