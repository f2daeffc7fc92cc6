/**
  `ContextItem` (src/model/ContextItem.ts): a named boolean editor context key.
  Assigning its value issues the editor command `setContext(identifier, value)`
  only when the value actually changes. The commands issued are recorded in the
  ghost log `Commands`.
*/
module ContextItems {

  /** One `setContext` command: the context key and the value it was set to. */
  datatype SetContext = SetContext(key: string, value: bool)

  /** The values start at `true` and flip at every command. */
  ghost predicate Alternating(log: seq<SetContext>) {
    && (log != [] ==> log[0].value)
    && (forall k :: 0 < k < |log| ==> log[k].value != log[k - 1].value)
  }

  /** In an alternating log the `k`-th command sets `true` exactly when `k` is even. */
  lemma {:induction false} AlternatingParity(log: seq<SetContext>, k: nat)
    requires Alternating(log) && k < |log|
    ensures log[k].value == (k % 2 == 0)
  {
    if k > 0 {
      AlternatingParity(log, k - 1);
    }
  }

  class ContextItem {
    const identifier: string
    var value: bool
    ghost var Commands: seq<SetContext>

    /**
      The log agrees with the value: every command names this item, the first
      command sets `true` (the item starts at `false` and a command is issued
      only on a change), consecutive commands differ, and the last command
      carries the current value.
    */
    ghost predicate Valid()
      reads this
    {
      && (forall k :: 0 <= k < |Commands| ==> Commands[k].key == identifier)
      && Alternating(Commands)
      && value == (Commands != [] && Commands[|Commands| - 1].value)
    }

    constructor (id: string)
      ensures Valid()
      ensures identifier == id && !value && Commands == []
    {
      identifier := id;
      value := false;
      Commands := [];
    }

    /** The `value` setter. */
    method SetValue(v: bool)
      requires Valid()
      modifies this
      ensures Valid()
      ensures value == v
      ensures old(value) == v ==> Commands == old(Commands)
      ensures old(value) != v ==> Commands == old(Commands) + [SetContext(identifier, v)]
    {
      if value == v {
        return;
      }
      value := v;
      Commands := Commands + [SetContext(identifier, v)];
    }
  }

  /** The item holds `true` exactly when an odd number of commands was issued. */
  lemma ValueIsParity(item: ContextItem)
    requires item.Valid()
    ensures item.value == (|item.Commands| % 2 == 1)
  {
    if item.Commands != [] {
      AlternatingParity(item.Commands, |item.Commands| - 1);
    }
  }

  /** A client: setting a value twice issues one command; switching back issues a second. */
  method SetTwiceScenario() returns (ghost log: seq<SetContext>, final: bool)
    ensures log == [SetContext("php-built-in-server.isRunning", true),
                    SetContext("php-built-in-server.isRunning", false)]
    ensures !final
  {
    var item := new ContextItem("php-built-in-server.isRunning");
    item.SetValue(true);
    item.SetValue(true);
    item.SetValue(false);
    item.SetValue(false);
    log, final := item.Commands, item.value;
  }
}
