/** The host objects the hooks call into: a datagrid class's column registry, the extension
    manager's dynamic URL list, a signal, the UUID generator and a template context. Their own
    internals are not modelled; each keeps the calls it receives, in order, so that the hooks'
    contracts can say exactly which calls they make. */
module Collaborators {
  import opened Wrappers

  /** A datagrid column object. */
  type Column

  /** A URL pattern object. */
  type Pattern

  /** A signal receiver (a callable). */
  type Callback

  /** A signal sender filter. */
  type Sender

  /** A `dispatch_uid` value, as produced by `uuid.uuid1()`. */
  type Uid = nat

  datatype ColumnCall = AddColumn(column: Column) | RemoveColumn(column: Column)

  /** One `add_column` call per column, in list order. */
  function AddCalls(columns: seq<Column>): (r: seq<ColumnCall>)
    ensures |r| == |columns|
    ensures forall i :: 0 <= i < |columns| ==> r[i] == AddColumn(columns[i])
  {
    seq(|columns|, i requires 0 <= i < |columns| => AddColumn(columns[i]))
  }

  /** One `remove_column` call per column, in list order. */
  function RemoveCalls(columns: seq<Column>): (r: seq<ColumnCall>)
    ensures |r| == |columns|
    ensures forall i :: 0 <= i < |columns| ==> r[i] == RemoveColumn(columns[i])
  {
    seq(|columns|, i requires 0 <= i < |columns| => RemoveColumn(columns[i]))
  }

  /** A DataGrid class, seen through its `add_column`/`remove_column` class methods. */
  class DataGrid {
    var calls: seq<ColumnCall>

    constructor ()
      ensures calls == []
    {
      calls := [];
    }

    method AddColumn(column: Column)
      modifies this
      ensures calls == old(calls) + [ColumnCall.AddColumn(column)]
    {
      calls := calls + [ColumnCall.AddColumn(column)];
    }

    method RemoveColumn(column: Column)
      modifies this
      ensures calls == old(calls) + [ColumnCall.RemoveColumn(column)]
    {
      calls := calls + [ColumnCall.RemoveColumn(column)];
    }
  }

  datatype URLCall = AddPatterns(patterns: seq<Pattern>) | RemovePatterns(patterns: seq<Pattern>)

  /** The extension manager's `dynamic_urls` resolver. */
  class DynamicURLs {
    var calls: seq<URLCall>

    constructor ()
      ensures calls == []
    {
      calls := [];
    }

    method AddPatterns(patterns: seq<Pattern>)
      modifies this
      ensures calls == old(calls) + [URLCall.AddPatterns(patterns)]
    {
      calls := calls + [URLCall.AddPatterns(patterns)];
    }

    method RemovePatterns(patterns: seq<Pattern>)
      modifies this
      ensures calls == old(calls) + [URLCall.RemovePatterns(patterns)]
    {
      calls := calls + [URLCall.RemovePatterns(patterns)];
    }
  }

  datatype SignalCall =
    | Connect(callback: Callback, sender: Option<Sender>, weak: bool, dispatchUid: Uid)
    | Disconnect(dispatchUid: Uid)

  /** A Django signal, seen through `connect` and `disconnect`. */
  class Signal {
    var calls: seq<SignalCall>

    constructor ()
      ensures calls == []
    {
      calls := [];
    }

    method Connect(callback: Callback, sender: Option<Sender>, weak: bool, dispatchUid: Uid)
      modifies this
      ensures calls == old(calls) + [SignalCall.Connect(callback, sender, weak, dispatchUid)]
    {
      calls := calls + [SignalCall.Connect(callback, sender, weak, dispatchUid)];
    }

    method Disconnect(dispatchUid: Uid)
      modifies this
      ensures calls == old(calls) + [SignalCall.Disconnect(dispatchUid)]
    {
      calls := calls + [SignalCall.Disconnect(dispatchUid)];
    }
  }

  /** `uuid.uuid1()`: every token it hands out differs from all earlier ones. */
  class UuidSource {
    var issued: set<Uid>
    var next: nat

    ghost predicate Valid()
      reads this
    {
      forall u :: u in issued ==> u < next
    }

    constructor ()
      ensures Valid() && issued == {}
    {
      issued, next := {}, 0;
    }

    method Uuid1() returns (u: Uid)
      requires Valid()
      modifies this
      ensures Valid()
      ensures u !in old(issued) && issued == old(issued) + {u}
    {
      u := next;
      issued, next := issued + {u}, next + 1;
    }
  }

  /** A template context: a stack of dictionaries whose top one receives assignments. */
  class Context<V> {
    var dicts: seq<map<string, V>>

    /** A Django context always keeps its bottom scope. */
    ghost predicate Valid()
      reads this
    {
      |dicts| >= 1
    }

    constructor (initial: map<string, V>)
      ensures Valid() && dicts == [initial]
    {
      dicts := [initial];
    }

    /** `context.push()`: a new, empty scope on top. */
    method Push()
      modifies this
      ensures dicts == old(dicts) + [map[]]
    {
      dicts := dicts + [map[]];
    }

    /** `context[key] = value`: binds in the top scope. */
    method Set(key: string, value: V)
      requires |dicts| > 0
      modifies this
      ensures dicts == old(dicts)[..|old(dicts)| - 1] + [old(dicts)[|old(dicts)| - 1][key := value]]
    {
      dicts := dicts[..|dicts| - 1] + [dicts[|dicts| - 1][key := value]];
    }

    /** `context.pop()`: drops the top scope (Django refuses to drop the last one). */
    method Pop()
      requires |dicts| > 1
      modifies this
      ensures dicts == old(dicts)[..|old(dicts)| - 1]
    {
      dicts := dicts[..|dicts| - 1];
    }
  }
}
