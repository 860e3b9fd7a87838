/**
  marketdata/util.py: the configuration key names the data sources read, and
  the `Singleton` metaclass, whose `__call__` keeps one instance per class in a
  table shared by every class that uses it.
 */
module Util {
  import opened Wrappers
  import opened PyValues

  // Configuration keys (DataSourceConstants, marketdata/util.py:54-78).
  const NAME := "name"
  const IS_LIBRARY := "isLibrary"
  const IS_AUTHENTICATED := "isAuthenticated"
  const API_BASE_URL := "baseUrl"
  const API_VERSION := "version"
  const API_ENVIRONMENT := "environment"
  const AUTH_TOKEN := "authToken"

  // The base validator reads DataSourceConstants.TOKEN_ENV_VARIABLE and
  // DataSourceConstants.DEFAULT_TOKEN_ENV, which marketdata/util.py does not
  // define. util/constants.py:15,21 defines the key "authTokenEnv" and the
  // default "DATASOURCE_TOKEN"; the model uses those (see the README's findings).
  const TOKEN_ENV := "authTokenEnv"
  const DEFAULT_TOKEN_ENV := "DATASOURCE_TOKEN"

  /** An identity token for a class object; the table is keyed by class. */
  type ClassName = string

  /**
    One call `cls(*args)` seen on values: the table afterwards and the instance
    returned, where `candidate` is what constructing the class would give.
   */
  function Record<V>(table: map<ClassName, V>, cls: ClassName, candidate: V): (r: (map<ClassName, V>, V))
    ensures cls in r.0 && r.0[cls] == r.1
    ensures cls in table ==> r.1 == table[cls]
    ensures cls !in table ==> r.1 == candidate
    ensures r.0.Keys == table.Keys + {cls}
    ensures forall c :: c in table ==> r.0[c] == table[c]
  {
    if cls in table then (table, table[cls]) else (table[cls := candidate], candidate)
  }

  /** The table after a sequence of calls, each given with its would-be instance. */
  function Replay<V>(table: map<ClassName, V>, calls: seq<(ClassName, V)>): map<ClassName, V>
    decreases |calls|
  {
    if calls == [] then table
    else Replay(Record(table, calls[0].0, calls[0].1).0, calls[1..])
  }

  /** The would-be instance of the first call for `cls`, if there is one. */
  function FirstCandidate<V>(calls: seq<(ClassName, V)>, cls: ClassName): Option<V>
    decreases |calls|
  {
    if calls == [] then None
    else if calls[0].0 == cls then Some(calls[0].1)
    else FirstCandidate(calls[1..], cls)
  }

  /** Entries are never removed or replaced, whatever calls follow. */
  lemma {:induction false} ReplayOnlyGrows<V>(table: map<ClassName, V>, calls: seq<(ClassName, V)>)
    ensures table.Keys <= Replay(table, calls).Keys
    ensures forall c :: c in table ==> Replay(table, calls)[c] == table[c]
    decreases |calls|
  {
    if calls != [] {
      ReplayOnlyGrows(Record(table, calls[0].0, calls[0].1).0, calls[1..]);
    }
  }

  /**
    After any sequence of calls, a class has an entry exactly when it had one
    or was called, and that entry is the earlier one or else the instance built
    by the first call for it: later calls, and their arguments, change nothing.
   */
  lemma {:induction false} ReplayFirstCallWins<V>(table: map<ClassName, V>, calls: seq<(ClassName, V)>, cls: ClassName)
    ensures cls in Replay(table, calls) <==> cls in table || FirstCandidate(calls, cls).Some?
    ensures cls in table ==> Replay(table, calls)[cls] == table[cls]
    ensures cls !in table && FirstCandidate(calls, cls).Some? ==>
              Replay(table, calls)[cls] == FirstCandidate(calls, cls).value
    decreases |calls|
  {
    if calls != [] {
      ReplayFirstCallWins(Record(table, calls[0].0, calls[0].1).0, calls[1..], cls);
    }
  }

  /** An object built by calling a class whose metaclass is `Singleton`. */
  class Instance {
    const cls: ClassName
    const args: seq<Value>
    const kwargs: map<string, Value>

    constructor (cls: ClassName, args: seq<Value>, kwargs: map<string, Value>)
      ensures this.cls == cls && this.args == args && this.kwargs == kwargs
    {
      this.cls := cls;
      this.args := args;
      this.kwargs := kwargs;
    }
  }

  /** The metaclass and its shared `_instances` table. */
  class Singleton {
    var instances: map<ClassName, Instance>

    /** Every recorded instance was built for the class it is recorded under. */
    ghost predicate Valid()
      reads this, instances.Values
    {
      forall c :: c in instances ==> instances[c].cls == c
    }

    constructor ()
      ensures Valid() && instances == map[]
    {
      instances := map[];
    }

    /** `cls(*args, **kwargs)`: look the class up, constructing and recording it on the first call only. */
    method Call(cls: ClassName, args: seq<Value>, kwargs: map<string, Value>) returns (inst: Instance)
      requires Valid()
      modifies this
      ensures Valid() && inst.cls == cls
      ensures (instances, inst) == Record(old(instances), cls, inst)
      ensures cls in old(instances) ==> inst == old(instances)[cls] && instances == old(instances)
      ensures cls !in old(instances) ==>
                fresh(inst) && inst.cls == cls && inst.args == args && inst.kwargs == kwargs
                && instances == old(instances)[cls := inst]
    {
      if cls !in instances {
        var created := new Instance(cls, args, kwargs);
        instances := instances[cls := created];
      }
      inst := instances[cls];
    }
  }
}
