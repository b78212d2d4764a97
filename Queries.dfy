/** The configured queries and the in-place completion of their search bases
    with the directory's root naming context. */
module Queries {

  /** A named search read from the configuration file. */
  class Query {
    var name: string
    var baseDn: string
    var query: string
    var attr: seq<string>

    constructor (name: string, baseDn: string, query: string, attr: seq<string>)
      ensures this.name == name && this.baseDn == baseDn
      ensures this.query == query && this.attr == attr
    {
      this.name := name;
      this.baseDn := baseDn;
      this.query := query;
      this.attr := attr;
    }

    /** Appends `dn` to the search base verbatim, with no separator; nothing else changes. */
    method AppendBaseDn(dn: string)
      modifies this
      ensures baseDn == old(baseDn) + dn
      ensures name == old(name) && query == old(query) && attr == old(attr)
    {
      baseDn := baseDn + dn;
    }
  }

  /** Completes the search base of every query, in configuration order, with the
      root naming context `dn`. The queries are distinct objects, as a list of
      owned records is. */
  method ComposeSearchBases(queries: seq<Query>, dn: string)
    requires forall i, j :: 0 <= i < j < |queries| ==> queries[i] != queries[j]
    modifies set q | q in queries
    ensures forall i :: 0 <= i < |queries| ==>
      queries[i].baseDn == old(queries[i].baseDn) + dn
    ensures forall i :: 0 <= i < |queries| ==>
      queries[i].name == old(queries[i].name) && queries[i].query == old(queries[i].query)
      && queries[i].attr == old(queries[i].attr)
  {
    for i := 0 to |queries|
      invariant forall k :: 0 <= k < i ==>
        queries[k].baseDn == old(queries[k].baseDn) + dn
      invariant forall k :: i <= k < |queries| ==>
        queries[k].baseDn == old(queries[k].baseDn)
      invariant forall k :: 0 <= k < |queries| ==>
        queries[k].name == old(queries[k].name) && queries[k].query == old(queries[k].query)
        && queries[k].attr == old(queries[k].attr)
    {
      queries[i].AppendBaseDn(dn);
    }
  }
}
