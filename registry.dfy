/** The action registry: how an ordered list of actions becomes the handler
    table used by the wait loop and the flat key/title list that Notify takes.
    Both core.go and main.go implement it with the same loop; this module is
    the specification both are proved against. */
module Registry {
  import opened Bus

  /** One button of a notification: its title and the callback it runs. */
  datatype Action = Action(title: string, trigger: Callback)

  /** GetFunctionName: the runtime symbol name of the callback's code. */
  function FunctionName(cb: Callback): string
  {
    cb.funcName
  }

  /** The action key under which an action is announced and registered. */
  function Key(a: Action): string
  {
    FunctionName(a.trigger)
  }

  /** The keys of a list of actions, as a set. */
  function KeySet(ac: seq<Action>): set<string>
  {
    set i | 0 <= i < |ac| :: Key(ac[i])
  }

  /** No two actions of the list share a key. */
  predicate DistinctKeys(ac: seq<Action>)
  {
    forall i, j :: 0 <= i < j < |ac| ==> Key(ac[i]) != Key(ac[j])
  }

  /** The flat `[key, title, key, title, ...]` list, built by appending one
      pair per action. */
  function ActionParams(ac: seq<Action>): (r: seq<string>)
    ensures |r| == 2 * |ac|
  {
    if ac == [] then []
    else
      var last := ac[|ac| - 1];
      ActionParams(ac[..|ac| - 1]) + [Key(last), last.title]
  }

  /** The handler table, built by writing one entry per action in list order,
      so that a later action overwrites an earlier one with the same key. */
  function HandlerTable(ac: seq<Action>): (m: map<string, Callback>)
    ensures m.Keys == KeySet(ac)
    ensures |m| <= |ac|
  {
    if ac == [] then map[]
    else
      var last := ac[|ac| - 1];
      var prefix := ac[..|ac| - 1];
      var m := HandlerTable(prefix)[Key(last) := last.trigger];
      assert KeySet(ac) == KeySet(prefix) + {Key(last)} by {
        forall k | k in KeySet(ac) ensures k in KeySet(prefix) + {Key(last)} {
          var i :| 0 <= i < |ac| && Key(ac[i]) == k;
          if i < |ac| - 1 { assert Key(prefix[i]) == k; }
        }
        forall k | k in KeySet(prefix) ensures k in KeySet(ac) {
          var i :| 0 <= i < |prefix| && Key(prefix[i]) == k;
          assert Key(ac[i]) == k;
        }
      }
      m
  }

  /** Position 2i of the action list is action i's key and position 2i+1 its
      title. */
  lemma {:induction false} ActionParamsAt(ac: seq<Action>, i: int)
    requires 0 <= i < |ac|
    ensures ActionParams(ac)[2 * i] == Key(ac[i])
    ensures ActionParams(ac)[2 * i + 1] == ac[i].title
  {
    var prefix := ac[..|ac| - 1];
    if i < |ac| - 1 {
      ActionParamsAt(prefix, i);
      assert ActionParams(ac) == ActionParams(prefix) + [Key(ac[|ac| - 1]), ac[|ac| - 1].title];
    }
  }

  /** An action whose key no later action repeats owns the table entry of
      that key: the table keeps the last trigger written under each key. */
  lemma {:induction false} HandlerTableKeepsLast(ac: seq<Action>, i: int)
    requires 0 <= i < |ac|
    requires forall j :: i < j < |ac| ==> Key(ac[j]) != Key(ac[i])
    ensures Key(ac[i]) in HandlerTable(ac)
    ensures HandlerTable(ac)[Key(ac[i])] == ac[i].trigger
  {
    if i < |ac| - 1 {
      var prefix := ac[..|ac| - 1];
      forall j | i < j < |prefix| ensures Key(prefix[j]) != Key(prefix[i]) {
        assert prefix[j] == ac[j];
      }
      HandlerTableKeepsLast(prefix, i);
      assert Key(ac[|ac| - 1]) != Key(ac[i]);
    }
  }

  /** With distinct keys the table has one entry per action. */
  lemma {:induction false} HandlerTableDistinctSize(ac: seq<Action>)
    requires DistinctKeys(ac)
    ensures |HandlerTable(ac)| == |ac|
  {
    if ac != [] {
      var prefix := ac[..|ac| - 1];
      var last := ac[|ac| - 1];
      assert DistinctKeys(prefix) by {
        forall i, j | 0 <= i < j < |prefix| ensures Key(prefix[i]) != Key(prefix[j]) {
          assert prefix[i] == ac[i] && prefix[j] == ac[j];
        }
      }
      HandlerTableDistinctSize(prefix);
      assert Key(last) !in KeySet(prefix) by {
        forall i | 0 <= i < |prefix| ensures Key(prefix[i]) != Key(last) {
          assert prefix[i] == ac[i];
        }
      }
    }
  }

  /** Every key announced in the action list has a handler, and every
      handler was announced. */
  lemma ActionKeysRegistered(ac: seq<Action>)
    ensures forall i :: 0 <= i < |ac| ==> ActionParams(ac)[2 * i] in HandlerTable(ac)
    ensures forall k :: k in HandlerTable(ac) ==> exists i :: 0 <= i < |ac| && ActionParams(ac)[2 * i] == k
  {
    forall i | 0 <= i < |ac| ensures ActionParams(ac)[2 * i] in HandlerTable(ac) {
      ActionParamsAt(ac, i);
      assert Key(ac[i]) in KeySet(ac);
    }
    forall k | k in HandlerTable(ac) ensures exists i :: 0 <= i < |ac| && ActionParams(ac)[2 * i] == k {
      var i :| 0 <= i < |ac| && Key(ac[i]) == k;
      ActionParamsAt(ac, i);
    }
  }

  /** Two actions with the same key, anywhere in the list: when no action
      after the later one repeats the key, the table holds the later trigger
      under it, while the action list still announces both pairs in place. */
  lemma DuplicateKeyKeepsLater(ac: seq<Action>, i: int, j: int)
    requires 0 <= i < j < |ac| && Key(ac[i]) == Key(ac[j])
    requires forall k :: j < k < |ac| ==> Key(ac[k]) != Key(ac[j])
    ensures HandlerTable(ac)[Key(ac[i])] == ac[j].trigger
    ensures ActionParams(ac)[2 * i] == ActionParams(ac)[2 * j] == Key(ac[j])
    ensures ActionParams(ac)[2 * i + 1] == ac[i].title
    ensures ActionParams(ac)[2 * j + 1] == ac[j].title
  {
    HandlerTableKeepsLast(ac, j);
    ActionParamsAt(ac, i);
    ActionParamsAt(ac, j);
  }

  /** Keys never depend on titles: renaming the actions leaves the handler
      table and every key position of the action list as they were. */
  lemma {:induction false} KeysIgnoreTitles(ac: seq<Action>, bc: seq<Action>)
    requires |ac| == |bc|
    requires forall i :: 0 <= i < |ac| ==> ac[i].trigger == bc[i].trigger
    ensures HandlerTable(ac) == HandlerTable(bc)
    ensures forall i :: 0 <= i < |ac| ==> ActionParams(ac)[2 * i] == ActionParams(bc)[2 * i]
  {
    if ac != [] {
      var n := |ac| - 1;
      KeysIgnoreTitles(ac[..n], bc[..n]);
    }
    forall i | 0 <= i < |ac| ensures ActionParams(ac)[2 * i] == ActionParams(bc)[2 * i] {
      ActionParamsAt(ac, i);
      ActionParamsAt(bc, i);
    }
  }
}
