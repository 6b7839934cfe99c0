/**
 * `Database` (pks/database.py): a shelf of named columns, each a dict, a list
 * or a tuple. Every mutation reads a whole column, changes the copy and writes
 * the copy back; nothing is ever changed inside a stored column in place.
 */
module Storage {
  import opened OrderedDict

  /** The container types a column can be declared with. */
  datatype Kind = DictKind | ListKind | TupleKind

  /** The `column_type` argument of `insert_new_column`: a container type or any other Python type. */
  datatype ColumnType = Container(kind: Kind) | OtherType(name: string)

  /** The content of one column. */
  datatype Column<K(!new), V> =
    | DictColumn(entries: Dict<K, V>)
    | ListColumn(items: seq<V>)
    | TupleColumn(items: seq<V>)

  /** `dict()`, `list()` or `tuple()`. */
  function EmptyColumn<K(!new), V>(kind: Kind): (c: Column<K, V>)
    ensures c.DictColumn? <==> kind == DictKind
    ensures c.ListColumn? <==> kind == ListKind
    ensures c.TupleColumn? <==> kind == TupleKind
    ensures c.DictColumn? ==> c.entries.Valid() && c.entries.keys == []
    ensures !c.DictColumn? ==> c.items == []
  {
    match kind
    case DictKind => DictColumn(Empty())
    case ListKind => ListColumn([])
    case TupleKind => TupleColumn([])
  }

  /** The whole store: column name to column content. */
  type Shelf<K(!new), V> = map<string, Column<K, V>>

  /** A schema is the `columns` dict of the constructor: name to declared kind, in order. */
  function Names(schema: seq<(string, Kind)>): (names: seq<string>)
    ensures |names| == |schema|
    ensures forall i :: 0 <= i < |schema| ==> names[i] == schema[i].0
  {
    if schema == [] then [] else [schema[0].0] + Names(schema[1..])
  }

  /** One step of the constructor's loop: create the column if it is missing. */
  function OpenColumn<K(!new), V>(shelf: Shelf<K, V>, column: (string, Kind)): Shelf<K, V>
  {
    if column.0 in shelf then shelf else shelf[column.0 := EmptyColumn(column.1)]
  }

  /** The shelf as the constructor leaves it, from what was persisted before. */
  function Opened<K(!new), V>(persisted: Shelf<K, V>, schema: seq<(string, Kind)>): Shelf<K, V>
    decreases |schema|
  {
    if schema == [] then persisted else Opened(OpenColumn(persisted, schema[0]), schema[1..])
  }

  /** A column that was already persisted keeps its content. */
  lemma {:induction false} OpenedKeepsExisting<K(!new), V>(persisted: Shelf<K, V>, schema: seq<(string, Kind)>, c: string)
    requires c in persisted
    ensures c in Opened(persisted, schema) && Opened(persisted, schema)[c] == persisted[c]
    decreases |schema|
  {
    if schema != [] {
      OpenedKeepsExisting(OpenColumn(persisted, schema[0]), schema[1..], c);
    }
  }

  /** Opening adds exactly the schema's columns, and nothing else. */
  lemma {:induction false} OpenedKeys<K(!new), V>(persisted: Shelf<K, V>, schema: seq<(string, Kind)>)
    ensures forall c :: c in Opened(persisted, schema) <==> c in persisted || c in Names(schema)
    decreases |schema|
  {
    if schema != [] {
      OpenedKeys(OpenColumn(persisted, schema[0]), schema[1..]);
      assert Names(schema) == [schema[0].0] + Names(schema[1..]);
    }
  }

  /** A schema column that was missing is created as an empty container of its declared kind. */
  lemma {:induction false} OpenedCreatesMissing<K(!new), V>(persisted: Shelf<K, V>, schema: seq<(string, Kind)>, i: nat)
    requires i < |schema| && Distinct(Names(schema))
    requires schema[i].0 !in persisted
    ensures schema[i].0 in Opened(persisted, schema)
    ensures Opened(persisted, schema)[schema[i].0] == EmptyColumn(schema[i].1)
    decreases |schema|
  {
    var step := OpenColumn(persisted, schema[0]);
    if i == 0 {
      OpenedKeepsExisting(step, schema[1..], schema[0].0);
    } else {
      var rest := schema[1..];
      assert rest[i - 1] == schema[i];
      assert schema[i].0 !in step by {
        assert Names(schema)[0] != Names(schema)[i];
      }
      assert Distinct(Names(rest)) by {
        forall a, b | 0 <= a < b < |rest|
          ensures Names(rest)[a] != Names(rest)[b]
        {
          assert Names(schema)[a + 1] != Names(schema)[b + 1];
        }
      }
      OpenedCreatesMissing(step, rest, i - 1);
    }
  }

  /** Opening a shelf that already holds every schema column changes nothing. */
  lemma {:induction false} OpenedNoop<K(!new), V>(shelf: Shelf<K, V>, schema: seq<(string, Kind)>)
    requires forall c :: c in Names(schema) ==> c in shelf
    ensures Opened(shelf, schema) == shelf
  {
    if schema != [] {
      assert schema[0].0 == Names(schema)[0];
      assert Names(schema[1..]) == Names(schema)[1..];
      OpenedNoop(shelf, schema[1..]);
    }
  }

  /** Reopening the store after a restart finds it exactly as it was left. */
  lemma ReopenIsIdentity<K(!new), V>(persisted: Shelf<K, V>, schema: seq<(string, Kind)>)
    ensures Opened(Opened(persisted, schema), schema) == Opened(persisted, schema)
  {
    OpenedKeys(persisted, schema);
    OpenedNoop(Opened(persisted, schema), schema);
  }

  /** The failure `insert_new_column` can raise. */
  datatype Outcome = Ok | TypeError(message: string)

  class Database<K(==,!new), V> {
    const dbName: string
    /** The shelf's content. */
    var shelf: Shelf<K, V>
    /** `db_columns`: the schema's column names, then every column added later. */
    var columns: seq<string>

    /** Column `c` exists and holds a well-formed dict. */
    ghost predicate IsDict(c: string)
      reads this
    {
      c in shelf && shelf[c].DictColumn? && shelf[c].entries.Valid()
    }

    /** The dict stored in column `c`. */
    function DictOf(c: string): (d: Dict<K, V>)
      reads this
      requires IsDict(c)
      ensures d.Valid()
    {
      shelf[c].entries
    }

    /**
     * `__init__`: the schema names become `db_columns`, and every schema column
     * that the persisted shelf lacks is created empty.
     */
    constructor (dbName: string, schema: seq<(string, Kind)>, persisted: Shelf<K, V>)
      requires Distinct(Names(schema))
      ensures this.dbName == dbName
      ensures columns == Names(schema)
      ensures shelf == Opened(persisted, schema)
      ensures forall c :: c in columns ==> ColumnExists(c)
    {
      this.dbName := dbName;
      columns := Names(schema);
      shelf := persisted;
      new;
      var i := 0;
      while i < |schema|
        invariant 0 <= i <= |schema|
        invariant columns == Names(schema)
        invariant Opened(shelf, schema[i..]) == Opened(persisted, schema)
      {
        assert schema[i..][1..] == schema[i + 1..];
        if schema[i].0 !in shelf {
          shelf := shelf[schema[i].0 := EmptyColumn(schema[i].1)];
        }
        i := i + 1;
      }
      OpenedKeys(persisted, schema);
    }

    /**
     * `insert_new_column`: a container type adds (or empties) the column and
     * appends its name to `db_columns`; any other type raises `TypeError`.
     */
    method InsertNewColumn(name: string, columnType: ColumnType) returns (r: Outcome)
      modifies this
      ensures columnType.OtherType? ==>
        && r == TypeError("Invalid column type: " + columnType.name + " for new column named \"" + name + "\"")
        && shelf == old(shelf) && columns == old(columns)
      ensures columnType.Container? ==>
        && r == Ok
        && columns == old(columns) + [name]
        && shelf == old(shelf)[name := EmptyColumn(columnType.kind)]
        && ColumnExists(name)
    {
      if columnType.OtherType? {
        return TypeError("Invalid column type: " + columnType.name + " for new column named \"" + name + "\"");
      }
      columns := columns + [name];
      shelf := shelf[name := EmptyColumn(columnType.kind)];
      r := Ok;
    }

    /** `column_exists`: whether the shelf holds a column of that name, whatever its kind. */
    predicate ColumnExists(column: string)
      reads this
      ensures IsDict(column) ==> ColumnExists(column)
    {
      column in shelf
    }

    /** `key_exists`: whether `key` is one of the dict's keys. */
    function KeyExists(column: string, key: K): (r: bool)
      reads this
      requires IsDict(column)
      ensures r <==> key in DictOf(column).keys
    {
      key in shelf[column].entries.values
    }

    /** `insert_dict`: the column becomes `column | pair`, nothing else changes. */
    method InsertDict(column: string, pair: Dict<K, V>)
      requires IsDict(column) && pair.Valid()
      modifies this
      ensures columns == old(columns)
      ensures shelf == old(shelf)[column := DictColumn(Merge(old(DictOf(column)), pair))]
      ensures IsDict(column)
    {
      var cl := shelf[column].entries;
      cl := Merge(cl, pair);
      shelf := shelf[column := DictColumn(cl)];
    }

    /** `insert_list`: `value` goes at the end of the list, nothing else changes. */
    method InsertList(column: string, value: V)
      requires column in shelf && shelf[column].ListColumn?
      modifies this
      ensures columns == old(columns)
      ensures shelf == old(shelf)[column := ListColumn(old(shelf[column].items) + [value])]
    {
      var cl := shelf[column].items;
      cl := cl + [value];
      shelf := shelf[column := ListColumn(cl)];
    }

    /**
     * `update`: `column[key] = value` on a copy of the column, which is then
     * written back. The key need not exist beforehand: a missing key is added.
     */
    method Update(column: string, key: K, value: V)
      requires IsDict(column)
      modifies this
      ensures columns == old(columns)
      ensures shelf == old(shelf)[column := DictColumn(Put(old(DictOf(column)), key, value))]
      ensures IsDict(column) && KeyExists(column, key) && Query(column, key) == value
    {
      var cl := shelf[column].entries;
      cl := Put(cl, key, value);
      shelf := shelf[column := DictColumn(cl)];
    }

    /** `query_column`: the stored column; for a dict, its keys are exactly those `key_exists` accepts. */
    function QueryColumn(column: string): (c: Column<K, V>)
      reads this
      requires ColumnExists(column)
      ensures IsDict(column) ==> c.DictColumn? && forall k :: k in c.entries.values <==> KeyExists(column, k)
      ensures IsDict(column) ==> c.entries.keys == DictOf(column).keys
    {
      shelf[column]
    }

    /** `query`: `query_column(column)[key]`. */
    function Query(column: string, key: K): (v: V)
      reads this
      requires IsDict(column) && KeyExists(column, key)
      ensures QueryColumn(column).DictColumn? && key in QueryColumn(column).entries.values
      ensures v == QueryColumn(column).entries.values[key]
    {
      shelf[column].entries.values[key]
    }
  }
}
