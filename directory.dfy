/**
 * The directory as the synchroniser sees it: an append-only journal of the calls
 * made on LDAP connections (`add_s`, `rename_s`, `modify_s`, `delete_s`), each tagged
 * with the connection alias it went through, interleaved with the post-save and
 * post-delete signals, in the order they happen.
 */
module Directory {

  /** What the field codec produces for one attribute: the list of its wire values. */
  type Wire = seq<string>

  /** One entry of a modify list: `(MOD_REPLACE, attr, values)` or `(MOD_DELETE, attr, None)`. */
  datatype Modification = ModReplace(attr: string, values: Wire) | ModDelete(attr: string)

  datatype Event =
    | AddEntry(alias: string, dn: string, attributes: seq<(string, Wire)>)
    | RenameEntry(alias: string, dn: string, newRdn: string)
    | ModifyEntry(alias: string, dn: string, mods: seq<Modification>)
    | DeleteEntry(alias: string, dn: string)
    | PostSave(created: bool)
    | PostDelete

  /** A call on the directory, as opposed to a signal. */
  predicate IsCall(e: Event)
  {
    !e.PostSave? && !e.PostDelete?
  }

  class Journal {
    var events: seq<Event>

    constructor ()
      ensures events == []
    {
      events := [];
    }

    method Record(e: Event)
      modifies this
      ensures events == old(events) + [e]
    {
      events := events + [e];
    }
  }
}
