/** The SQLite-backed aiogram FSM storage: one row of the `fsm_states` table per
    conversation, keyed by `(chat_id, user_id)`, holding an optional state name and a
    JSON data mapping. JSON text is abstracted: a data column holds the mapping itself. */
module FsmStorage {
  import opened Wrappers

  /** The JSON scalars a data mapping holds. */
  datatype Value = Str(s: string) | Int(i: int) | Bool(b: bool) | Null

  type Data = map<string, Value>

  /** aiogram's StorageKey; `botId` takes no part in addressing a row. */
  datatype StorageKey = StorageKey(botId: int, chatId: int, userId: int)

  /** The table's primary key. */
  datatype RowKey = RowKey(chatId: int, userId: int)

  /** The argument of `set_state`: `None`, an aiogram `State` (carrying its `.state`
      name, such as "UserStates:login"), or any other value (carrying its `str()`). */
  datatype StateArg = NoState | StateObj(name: string) | Other(text: string)

  /** One row: the `state` column and the `data` column, each possibly NULL. */
  datatype Row = Row(state: Option<string>, data: Option<Data>)

  type Table = map<RowKey, Row>

  function KeyOf(key: StorageKey): RowKey
  {
    RowKey(key.chatId, key.userId)
  }

  /** `_serialize_state`: what the `state` column receives. */
  function SerializeState(s: StateArg): (r: Option<string>)
    ensures r == None <==> s.NoState?
    ensures s.StateObj? ==> r == Some(s.name)
    ensures s.Other? ==> r == Some(s.text)
  {
    match s
    case NoState => None
    case StateObj(name) => Some(name)
    case Other(text) => Some(text)
  }

  /** What `get_state` reads for a row key. */
  function StateOf(t: Table, k: RowKey): Option<string>
  {
    if k in t then t[k].state else None
  }

  /** What `get_data` reads: `{}` for a missing row or a NULL data column. */
  function DataOf(t: Table, k: RowKey): Data
  {
    if k in t && t[k].data.Some? then t[k].data.value else map[]
  }

  /** The table after `set_state(k, s)`: the row keeps its data, a new row gets `{}`. */
  function WithState(t: Table, k: RowKey, s: Option<string>): (t': Table)
    ensures t'.Keys == t.Keys + {k}
    ensures StateOf(t', k) == s && DataOf(t', k) == DataOf(t, k)
    ensures forall k' :: k' in t && k' != k ==> t'[k'] == t[k']
  {
    t[k := Row(s, if k in t then t[k].data else Some(map[]))]
  }

  class SQLiteStorage {
    var table: Table

    /** `__init__` with `_init_db`: the table exists afterwards, with the rows it already held. */
    constructor (existing: Table)
      ensures table == existing
    {
      table := existing;
    }

    /** `set_state`: upserts the row; an existing row keeps its data, a new row gets `{}`. */
    method SetState(key: StorageKey, s: StateArg)
      modifies this
      ensures table == WithState(old(table), KeyOf(key), SerializeState(s))
    {
      var k := KeyOf(key);
      var st := SerializeState(s);
      if k in table {
        table := table[k := Row(st, table[k].data)];
      } else {
        table := table[k := Row(st, Some(map[]))];
      }
    }

    /** `get_state`: the stored state name, `None` when there is no row. */
    method GetState(key: StorageKey) returns (r: Option<string>)
      ensures KeyOf(key) !in table ==> r == None
      ensures KeyOf(key) in table ==> r == table[KeyOf(key)].state
    {
      var k := KeyOf(key);
      if k in table {
        r := table[k].state;
      } else {
        r := None;
      }
    }

    /** `set_data`: upserts the row; an existing row keeps its state, a new row gets a NULL state;
        the data column is replaced wholesale. */
    method SetData(key: StorageKey, d: Data)
      modifies this
      ensures table == old(table)[KeyOf(key) := Row(StateOf(old(table), KeyOf(key)), Some(d))]
    {
      var k := KeyOf(key);
      if k in table {
        table := table[k := Row(table[k].state, Some(d))];
      } else {
        table := table[k := Row(None, Some(d))];
      }
    }

    /** `get_data`: the stored mapping, `{}` for a missing row or an empty data column. */
    method GetData(key: StorageKey) returns (r: Data)
      ensures KeyOf(key) !in table ==> r == map[]
      ensures KeyOf(key) in table && table[KeyOf(key)].data.None? ==> r == map[]
      ensures KeyOf(key) in table && table[KeyOf(key)].data.Some? ==> r == table[KeyOf(key)].data.value
    {
      var k := KeyOf(key);
      if k in table && table[k].data.Some? {
        r := table[k].data.value;
      } else {
        r := map[];
      }
    }

    /** `update_data`: read, merge with `dict.update` (entries of `d` win), write back, and
        return the merged mapping. */
    method UpdateData(key: StorageKey, d: Data) returns (merged: Data)
      modifies this
      ensures merged.Keys == DataOf(old(table), KeyOf(key)).Keys + d.Keys
      ensures forall x :: x in d ==> merged[x] == d[x]
      ensures forall x :: x in DataOf(old(table), KeyOf(key)) && x !in d ==>
                merged[x] == DataOf(old(table), KeyOf(key))[x]
      ensures table == old(table)[KeyOf(key) := Row(StateOf(old(table), KeyOf(key)), Some(merged))]
    {
      var current := GetData(key);
      merged := current + d;
      SetData(key, merged);
    }

    /** aiogram's `FSMContext.clear()`, which calls `set_state(None)` and then `set_data({})`:
        the row stays, with a NULL state and empty data. */
    method Clear(key: StorageKey)
      modifies this
      ensures table == old(table)[KeyOf(key) := Row(None, Some(map[]))]
    {
      SetState(key, NoState);
      SetData(key, map[]);
    }
  }

  /** A state written through `set_state` reads back serialised, and the data is kept. */
  method SetStateThenGet(t: Table, key: StorageKey, s: StateArg) returns (r: Option<string>, d: Data)
    ensures r == SerializeState(s)
    ensures d == DataOf(t, KeyOf(key))
  {
    var st := new SQLiteStorage(t);
    st.SetState(key, s);
    r := st.GetState(key);
    d := st.GetData(key);
  }

  /** Data written through `set_data` reads back unchanged, and the state is kept. */
  method SetDataThenGet(t: Table, key: StorageKey, data: Data) returns (r: Data, s: Option<string>)
    ensures r == data
    ensures s == StateOf(t, KeyOf(key))
  {
    var st := new SQLiteStorage(t);
    st.SetData(key, data);
    r := st.GetData(key);
    s := st.GetState(key);
  }

  /** `update_data` returns exactly what a following `get_data` reads. */
  method UpdateThenGet(t: Table, key: StorageKey, d: Data) returns (merged: Data, r: Data)
    ensures r == merged
    ensures merged == DataOf(t, KeyOf(key)) + d
  {
    var st := new SQLiteStorage(t);
    merged := st.UpdateData(key, d);
    r := st.GetData(key);
  }

  /** Two keys that differ only in `bot_id` address the same row. */
  method BotIdIgnored(t: Table, a: StorageKey, b: StorageKey, s: StateArg) returns (r: Option<string>)
    requires a.chatId == b.chatId && a.userId == b.userId
    ensures r == SerializeState(s)
  {
    var st := new SQLiteStorage(t);
    st.SetState(a, s);
    r := st.GetState(b);
  }
}
