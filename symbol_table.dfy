/** The symbol table: variable name -> {type, value}, updated in place. */
module Symbols {
  import opened Py

  /** A Python value stored in the table: an int, a str, or None. */
  datatype Value = IntV(i: int) | StrV(s: string) | NoneV

  /** The dictionary `{"type": typ, "value": value}` kept per name. */
  datatype Entry = Entry(typ: string, value: Value)

  type Table = map<string, Entry>

  /** `add_symbol`: insert the name, or overwrite both its type and value. */
  function Add(t: Table, name: string, typ: string, value: Value): (r: Table)
    ensures r.Keys == t.Keys + {name}
    ensures r[name] == Entry(typ, value)
    ensures forall n :: n in t && n != name ==> r[n] == t[n]
  {
    t[name := Entry(typ, value)]
  }

  /** `get_symbol` on a name (a missing name or None raises KeyError). */
  function Lookup(t: Table, name: Option<string>): (r: Option<Entry>)
    ensures r.Some? <==> name.Some? && name.value in t
    ensures r.Some? ==> r.value == t[name.value]
  {
    if name.Some? && name.value in t then Some(t[name.value]) else None
  }

  /** `update_symbol`: replace the value of a present name and keep its type;
      a missing name raises KeyError (None). */
  function Update(t: Table, name: Option<string>, value: Value): (r: Option<Table>)
    ensures r.Some? <==> name.Some? && name.value in t
    ensures r.Some? ==> r.value.Keys == t.Keys
    ensures r.Some? ==> r.value[name.value] == Entry(t[name.value].typ, value)
    ensures r.Some? ==> forall n :: n in t && n != name.value ==> r.value[n] == t[n]
  {
    if name.Some? && name.value in t then Some(t[name.value := Entry(t[name.value].typ, value)]) else None
  }

  /** After `add_symbol(s, t, v)`, `get_symbol(s)` returns `{t, v}`. */
  lemma GetAfterAdd(t: Table, name: string, typ: string, value: Value)
    ensures Lookup(Add(t, name, typ, value), Some(name)) == Some(Entry(typ, value))
  {
  }

  /** An update after an add keeps the added type and takes the new value. */
  lemma UpdateAfterAdd(t: Table, name: string, typ: string, v: Value, w: Value)
    ensures Update(Add(t, name, typ, v), Some(name), w) == Some(Add(t, name, typ, w))
  {
    assert Add(t, name, typ, v)[name := Entry(typ, w)] == Add(t, name, typ, w);
  }

  /** The table object of the source. Python dictionaries keep insertion
      order, which `order` records. */
  class SymbolTable {
    var entries: Table
    var order: seq<string>

    ghost predicate Valid()
      reads this
    {
      && (forall i, j :: 0 <= i < j < |order| ==> order[i] != order[j])
      && (forall n :: n in entries <==> n in order)
    }

    constructor ()
      ensures Valid() && entries == map[] && order == []
    {
      entries := map[];
      order := [];
    }

    method AddSymbol(symbol: string, typ: string, value: Value)
      requires Valid()
      modifies this
      ensures Valid()
      ensures entries == Add(old(entries), symbol, typ, value)
      ensures order == if symbol in old(entries) then old(order) else old(order) + [symbol]
    {
      if symbol !in entries {
        order := order + [symbol];
      }
      entries := entries[symbol := Entry(typ, value)];
    }

    method GetSymbol(symbol: Option<string>) returns (r: Option<Entry>)
      ensures r.Some? <==> symbol.Some? && symbol.value in entries
      ensures r.Some? ==> r.value == entries[symbol.value]
    {
      if symbol.Some? && symbol.value in entries {
        r := Some(entries[symbol.value]);
      } else {
        r := None;
      }
    }

    method RemoveAllSymbols()
      modifies this
      ensures Valid() && entries == map[] && order == []
    {
      entries := map[];
      order := [];
    }

    /** The live table, with its names in insertion order. */
    method GetSymbolTable() returns (m: Table, names: seq<string>)
      requires Valid()
      ensures m == entries && names == order
      ensures forall n :: n in m <==> n in names
    {
      m, names := entries, order;
    }

    /** Returns false where the source raises KeyError. */
    method UpdateSymbol(symbol: Option<string>, value: Value) returns (ok: bool)
      modifies this
      ensures ok <==> symbol.Some? && symbol.value in old(entries)
      ensures ok ==> Update(old(entries), symbol, value) == Some(entries)
      ensures !ok ==> entries == old(entries)
      ensures order == old(order)
      ensures Valid() == old(Valid())
    {
      if symbol.Some? && symbol.value in entries {
        entries := entries[symbol.value := Entry(entries[symbol.value].typ, value)];
        ok := true;
      } else {
        ok := false;
      }
    }
  }
}
