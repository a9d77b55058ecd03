/**
 * The two global tables the scanner appends to: `IdentifierTable`, whose
 * entries are numbered by the static counter `Identifier::s_idCount` and which
 * `addToIT` keeps free of duplicates, and `StringTable`, one entry per string
 * literal scanned, duplicates included.
 */
module Symbols {

  /** One `Identifier` object: its name, `m_idNumber`, `m_declare` and `m_assign`. */
  datatype Identifier = Identifier(name: string, id: int, isDeclared: bool, isAssigned: bool)

  /** The contents of both tables and the value of `s_idCount`. */
  datatype Tables = Tables(identifiers: seq<Identifier>, idCount: nat, strings: seq<string>)

  const EmptyTables := Tables([], 0, [])

  /**
   * What holds while entries are created only by `addToIT`: entry i has
   * `getID() == i`, is neither declared nor assigned, the counter equals the
   * table size, and no two entries share a name.
   */
  predicate TablesValid(t: Tables) {
    && t.idCount == |t.identifiers|
    && (forall i :: 0 <= i < |t.identifiers| ==>
          t.identifiers[i].id == i && !t.identifiers[i].isDeclared && !t.identifiers[i].isAssigned)
    && (forall i, j :: 0 <= i < j < |t.identifiers| ==> t.identifiers[i].name != t.identifiers[j].name)
  }

  /** `std::find` from index `from`: the first entry named `name`, or the end. */
  function FindName(ids: seq<Identifier>, name: string, from: nat): (r: nat)
    requires from <= |ids|
    ensures from <= r <= |ids|
    ensures r < |ids| ==> ids[r].name == name
    ensures forall j :: from <= j < r ==> ids[j].name != name
    decreases |ids| - from
  {
    if from == |ids| then from
    else if ids[from].name == name then from
    else FindName(ids, name, from + 1)
  }

  /** `addToIT`: the index `addToIT` returns and the tables afterwards. */
  function Intern(t: Tables, name: string): (r: (nat, Tables))
    ensures r.0 <= |t.identifiers|
    ensures r.0 < |t.identifiers| ==>
              r.1 == t && t.identifiers[r.0].name == name &&
              forall j :: 0 <= j < r.0 ==> t.identifiers[j].name != name
    ensures r.0 == |t.identifiers| ==>
              (forall j :: 0 <= j < |t.identifiers| ==> t.identifiers[j].name != name) &&
              r.1 == t.(identifiers := t.identifiers + [Identifier(name, t.idCount, false, false)],
                        idCount := t.idCount + 1)
  {
    var i := FindName(t.identifiers, name, 0);
    if i < |t.identifiers| then (i, t)
    else (|t.identifiers|, t.(identifiers := t.identifiers + [Identifier(name, t.idCount, false, false)],
                              idCount := t.idCount + 1))
  }

  /**
   * `addToIT` keeps the table valid, the entry at the returned index carries
   * the name and has that index as its id, and the old table is a prefix of
   * the new one, which has at most one more entry.
   */
  lemma InternKeepsTablesValid(t: Tables, name: string)
    requires TablesValid(t)
    ensures var (i, t') := Intern(t, name);
      && TablesValid(t')
      && i < |t'.identifiers| && t'.identifiers[i].name == name && t'.identifiers[i].id == i
      && t'.identifiers[..|t.identifiers|] == t.identifiers
      && |t'.identifiers| <= |t.identifiers| + 1
      && t'.strings == t.strings
  {
  }

  /** A spelling seen again resolves to its first id and leaves the table alone. */
  lemma InternIdempotent(t: Tables, name: string)
    requires TablesValid(t)
    ensures var (i, t') := Intern(t, name); Intern(t', name) == (i, t')
  {
    var (i, t') := Intern(t, name);
    if i == |t.identifiers| {
      assert t'.identifiers[i].name == name;
      assert FindName(t'.identifiers, name, 0) == i;
    }
  }

  /** The global tables, updated in place by the scanner. */
  class SymbolTables {
    var identifiers: seq<Identifier>
    var idCount: nat
    var strings: seq<string>

    function Value(): Tables
      reads this
    {
      Tables(identifiers, idCount, strings)
    }

    /** Both vectors start empty and `s_idCount` at 0. */
    constructor ()
      ensures Value() == EmptyTables
    {
      identifiers, idCount, strings := [], 0, [];
    }

    /** `Identifier(const std::string&)`: takes the next number from the static counter. */
    method NewIdentifier(name: string) returns (e: Identifier)
      modifies this`idCount
      ensures e == Identifier(name, old(idCount), false, false)
      ensures idCount == old(idCount) + 1
    {
      e := Identifier(name, idCount, false, false);
      idCount := idCount + 1;
    }

    /** The linear search of `std::find`: the first index whose entry is named `name`, or the size. */
    method Find(name: string) returns (i: nat)
      ensures i <= |identifiers|
      ensures i < |identifiers| ==> identifiers[i].name == name
      ensures forall j :: 0 <= j < i ==> identifiers[j].name != name
    {
      i := 0;
      while i < |identifiers| && identifiers[i].name != name
        invariant i <= |identifiers|
        invariant forall j :: 0 <= j < i ==> identifiers[j].name != name
      {
        i := i + 1;
      }
    }

    /** `addToIT`: the index of the entry named `name`, appending a new one when there is none. */
    method AddToIT(name: string) returns (r: int)
      modifies this
      ensures (r, Value()) == Intern(old(Value()), name)
    {
      var i := Find(name);
      assert i == FindName(identifiers, name, 0);
      if i < |identifiers| {
        return i;
      }
      var e := NewIdentifier(name);
      identifiers := identifiers + [e];
      r := |identifiers| - 1;
    }
  }
}
