/**
 * The SQL connection table of the scriptable `sql` object.
 *
 * The object keeps a table from connection names to database wrappers; a
 * wrapper is read-only when it only views a connection someone else owns.
 * Next to it lives the set of registered connection names that the SQL
 * library manages, as a copy the object takes when it is created: the object
 * adds a name when it creates a connection and removes the names of the
 * connections it owns.
 */
module SqlConnections {
  import opened Optional

  /** A database wrapper: the connection it wraps, whether it is read-only, its autoThrow. */
  datatype Entry = Entry(connectionName: string, readOnly: bool, autoThrow: bool)

  /** The connection table, the registered names and the object's autoThrow. */
  datatype SqlState = SqlState(connections: map<string, Entry>, registry: set<string>, autoThrow: bool)

  /** What addDatabase and cloneDatabase give back: the wrapper or null, and the error thrown. */
  datatype Answer = Answer(state: SqlState, database: Option<Entry>, error: Option<string>)

  function ReplaceError(name: string): string {
    "The connection '" + name + "' already exists and can not be replaced"
  }

  /** Every wrapper the object owns wraps the connection registered under its own key. */
  predicate Valid(st: SqlState) {
    forall k :: k in st.connections && !st.connections[k].readOnly ==>
      st.connections[k].connectionName == k && k in st.registry
  }

  /** addDatabase and cloneDatabase may create `name`: it is free, or the object owns it. */
  predicate CanReplace(st: SqlState, name: string) {
    if name in st.connections then !st.connections[name].readOnly else name !in st.registry
  }

  /**
   * The common part of addDatabase and cloneDatabase; `autoThrow` is the
   * flag the new wrapper gets. The old wrapper under `name` is taken out of
   * the table first and is not put back when the call is refused.
   */
  function Create(st: SqlState, name: string, autoThrow: bool): (a: Answer)
    ensures a.database.Some? <==> CanReplace(st, name)
    ensures a.error.Some? <==> !CanReplace(st, name) && st.autoThrow
    ensures a.state.autoThrow == st.autoThrow
  {
    var taken := st.connections - {name};
    if CanReplace(st, name) then
      var entry := Entry(name, false, autoThrow);
      Answer(st.(connections := taken[name := entry], registry := st.registry + {name}), Some(entry), None)
    else
      Answer(st.(connections := taken), None, if st.autoThrow then Some(ReplaceError(name)) else None)
  }

  /** ScriptableSql::addDatabase; the driver type is not modelled. */
  function Added(st: SqlState, name: string): Answer {
    Create(st, name, st.autoThrow)
  }

  /** ScriptableSql::cloneDatabase: the new wrapper takes autoThrow from `other`. */
  function Cloned(st: SqlState, other: Entry, name: string): Answer {
    Create(st, name, other.autoThrow)
  }

  /** ScriptableSql::database: the tracked wrapper, or a new read-only one put in the table. */
  function LookedUp(st: SqlState, name: string): (r: (SqlState, Entry))
    ensures name in st.connections ==> r == (st, st.connections[name])
    ensures name !in st.connections ==>
      && r.1 == Entry(if name in st.registry then name else "", true, st.autoThrow)
      && r.0.connections == st.connections[name := r.1]
      && r.0.registry == st.registry && r.0.autoThrow == st.autoThrow
  {
    if name in st.connections then (st, st.connections[name])
    else
      var entry := Entry(if name in st.registry then name else "", true, st.autoThrow);
      (st.(connections := st.connections[name := entry]), entry)
  }

  /** ScriptableSql::removeDatabase. */
  function Removed(st: SqlState, name: string): SqlState {
    var registry :=
      if name in st.connections && !st.connections[name].readOnly
      then st.registry - {st.connections[name].connectionName}
      else st.registry;
    st.(connections := st.connections - {name}, registry := registry)
  }

  /** The connection names of the wrappers under `keys` that the object owns. */
  function OwnedAmong(connections: map<string, Entry>, keys: set<string>): set<string> {
    set k | k in keys && k in connections && !connections[k].readOnly :: connections[k].connectionName
  }

  /** The destructor: owned connections are unregistered, and the table is cleared. */
  function Destroyed(st: SqlState): SqlState {
    st.(connections := map[], registry := st.registry - OwnedAmong(st.connections, st.connections.Keys))
  }

  // ---------------------------------------------------------------------
  // Properties of the table operations.
  // ---------------------------------------------------------------------

  /** Refused because another owner registered the name: nothing changes. */
  lemma RefusedForeign(st: SqlState, other: Entry, name: string)
    requires name !in st.connections && name in st.registry
    ensures Added(st, name) == Answer(st, None, if st.autoThrow then Some(ReplaceError(name)) else None)
    ensures Cloned(st, other, name) == Added(st, name)
  {
    assert st.connections - {name} == st.connections;
  }

  /**
   * Refused because the tracked wrapper is read-only: the wrapper is gone
   * from the table, the registry is untouched; clone behaves the same.
   */
  lemma RefusedReadOnly(st: SqlState, other: Entry, name: string)
    requires name in st.connections && st.connections[name].readOnly
    ensures var a := Added(st, name);
      && a.database.None?
      && name !in a.state.connections
      && (forall k :: k in st.connections && k != name ==> k in a.state.connections && a.state.connections[k] == st.connections[k])
      && a.state.registry == st.registry
    ensures Cloned(st, other, name) == Added(st, name)
  {
  }

  /** Accepted: a new owned wrapper under `name`, registered, with the object's or `other`'s autoThrow. */
  lemma Accepted(st: SqlState, other: Entry, name: string)
    requires CanReplace(st, name)
    ensures var a := Added(st, name);
      && a.database == Some(Entry(name, false, st.autoThrow)) && a.error.None?
      && a.state.connections == st.connections[name := Entry(name, false, st.autoThrow)]
      && a.state.registry == st.registry + {name}
    ensures var c := Cloned(st, other, name);
      && c.database == Some(Entry(name, false, other.autoThrow))
      && c.state.connections == st.connections[name := Entry(name, false, other.autoThrow)]
      && c.state.registry == st.registry + {name}
  {
    var e := Entry(name, false, st.autoThrow);
    assert (st.connections - {name})[name := e] == st.connections[name := e];
    var f := Entry(name, false, other.autoThrow);
    assert (st.connections - {name})[name := f] == st.connections[name := f];
  }

  lemma CreateValid(st: SqlState, name: string, autoThrow: bool)
    requires Valid(st)
    ensures Valid(Create(st, name, autoThrow).state)
  {
  }

  lemma LookedUpValid(st: SqlState, name: string)
    requires Valid(st)
    ensures Valid(LookedUp(st, name).0)
  {
  }

  /** Afterwards the name is untracked; an owned connection is also unregistered. */
  lemma RemovedEffect(st: SqlState, name: string)
    requires Valid(st)
    ensures var r := Removed(st, name);
      && name !in r.connections
      && (forall k :: k in st.connections && k != name ==> k in r.connections && r.connections[k] == st.connections[k])
      && r.registry == (if name in st.connections && !st.connections[name].readOnly then st.registry - {name} else st.registry)
      && Valid(r)
  {
  }

  /** Creating a connection and removing it again leaves the registry as if `name` had never existed. */
  lemma AddThenRemove(st: SqlState, name: string)
    requires Valid(st) && CanReplace(st, name)
    ensures Removed(Added(st, name).state, name)
      == st.(connections := st.connections - {name}, registry := st.registry - {name})
  {
    var a := Added(st, name).state;
    assert a.connections - {name} == st.connections - {name};
  }

  /** Looking a name up twice gives the same wrapper and the same table as looking it up once. */
  lemma LookupIdempotent(st: SqlState, name: string)
    ensures var (s1, e1) := LookedUp(st, name);
      LookedUp(s1, name) == (s1, e1)
  {
  }

  /** The destructor unregisters exactly the names of the owned connections. */
  lemma DestroyedEffect(st: SqlState)
    requires Valid(st)
    ensures Destroyed(st).connections == map[]
    ensures Destroyed(st).registry == st.registry - set k | k in st.connections && !st.connections[k].readOnly
  {
    var owned := set k | k in st.connections && !st.connections[k].readOnly;
    assert OwnedAmong(st.connections, st.connections.Keys) == owned by {
      forall n | n in owned ensures n in OwnedAmong(st.connections, st.connections.Keys) {
        assert st.connections[n].connectionName == n;
      }
    }
  }

  /** One more key examined by the destructor's loop. */
  lemma OwnedAmongAdd(connections: map<string, Entry>, keys: set<string>, k: string)
    requires k in connections
    ensures OwnedAmong(connections, keys + {k}) ==
      OwnedAmong(connections, keys) + (if connections[k].readOnly then {} else {connections[k].connectionName})
  {
    if !connections[k].readOnly {
      assert connections[k].connectionName in OwnedAmong(connections, keys + {k});
    }
  }

  class ScriptableSql {
    var connections: map<string, Entry>
    var registry: set<string>
    var autoThrow: bool

    function State(): SqlState
      reads this
    {
      SqlState(connections, registry, autoThrow)
    }

    /** A new object tracks nothing and throws by default. */
    constructor (registry: set<string>)
      ensures State() == SqlState(map[], registry, true)
      ensures Valid(State())
    {
      connections := map[];
      this.registry := registry;
      autoThrow := true;
    }

    method SetAutoThrow(autoThrow: bool)
      modifies this
      ensures State() == old(State()).(autoThrow := autoThrow)
      ensures Valid(old(State())) ==> Valid(State())
    {
      this.autoThrow := autoThrow;
    }

    method AddDatabase(connectionName: string) returns (database: Option<Entry>, error: Option<string>)
      modifies this
      ensures Answer(State(), database, error) == Added(old(State()), connectionName)
      ensures Valid(old(State())) ==> Valid(State())
    {
      if Valid(State()) {
        CreateValid(State(), connectionName, autoThrow);
      }
      var previous := if connectionName in connections then Some(connections[connectionName]) else None;
      connections := connections - {connectionName};
      error := None;
      if previous.Some? {
        if previous.value.readOnly {
          if autoThrow {
            error := Some(ReplaceError(connectionName));
          }
          return None, error;
        }
      } else if connectionName in registry {
        if autoThrow {
          error := Some(ReplaceError(connectionName));
        }
        return None, error;
      }
      registry := registry + {connectionName};
      var result := Entry(connectionName, false, autoThrow);
      connections := connections[connectionName := result];
      database := Some(result);
    }

    method CloneDatabase(other: Entry, connectionName: string) returns (database: Option<Entry>, error: Option<string>)
      modifies this
      ensures Answer(State(), database, error) == Cloned(old(State()), other, connectionName)
      ensures Valid(old(State())) ==> Valid(State())
    {
      if Valid(State()) {
        CreateValid(State(), connectionName, other.autoThrow);
      }
      var previous := if connectionName in connections then Some(connections[connectionName]) else None;
      connections := connections - {connectionName};
      error := None;
      if previous.Some? {
        if previous.value.readOnly {
          if autoThrow {
            error := Some(ReplaceError(connectionName));
          }
          return None, error;
        }
      } else if connectionName in registry {
        if autoThrow {
          error := Some(ReplaceError(connectionName));
        }
        return None, error;
      }
      registry := registry + {connectionName};
      var result := Entry(connectionName, false, other.autoThrow);
      connections := connections[connectionName := result];
      database := Some(result);
    }

    method Database(connectionName: string) returns (database: Entry)
      modifies this
      ensures (State(), database) == LookedUp(old(State()), connectionName)
      ensures Valid(old(State())) ==> Valid(State())
    {
      if Valid(State()) {
        LookedUpValid(State(), connectionName);
      }
      if connectionName in connections {
        return connections[connectionName];
      }
      database := Entry(if connectionName in registry then connectionName else "", true, autoThrow);
      connections := connections[connectionName := database];
    }

    method RemoveDatabase(connectionName: string)
      modifies this
      ensures State() == Removed(old(State()), connectionName)
      ensures Valid(old(State())) ==> Valid(State())
    {
      if Valid(State()) {
        RemovedEffect(State(), connectionName);
      }
      if connectionName in connections {
        var previous := connections[connectionName];
        connections := connections - {connectionName};
        if !previous.readOnly {
          registry := registry - {previous.connectionName};
        }
      }
    }

    /** ~ScriptableSql, visiting the tracked wrappers in any order. */
    method Destroy()
      modifies this
      ensures State() == Destroyed(old(State()))
      ensures Valid(State())
    {
      var remaining := connections.Keys;
      while remaining != {}
        invariant remaining <= connections.Keys
        invariant connections == old(connections) && autoThrow == old(autoThrow)
        invariant registry == old(registry) - OwnedAmong(connections, connections.Keys - remaining)
        decreases |remaining|
      {
        var k :| k in remaining;
        OwnedAmongAdd(connections, connections.Keys - remaining, k);
        assert connections.Keys - (remaining - {k}) == (connections.Keys - remaining) + {k};
        if !connections[k].readOnly {
          registry := registry - {connections[k].connectionName};
        }
        remaining := remaining - {k};
      }
      connections := map[];
    }
  }
}
