/** `app.contextRecord`: an append-only table that keeps the context object
    of each element built by jsonToDom, under a token the element carries in
    its `data-tg-context` attribute. */
module ContextRecord {
  import opened Js

  /** The attribute through which an element refers to its context. */
  const AttributeName: string := "data-tg-context"

  const KeyPrefix: string := "tg"

  /** The key minted by the n-th call of `newKey`. */
  function Token(n: nat): (t: string)
    ensures |t| > |KeyPrefix| && t[..|KeyPrefix|] == KeyPrefix
  {
    KeyPrefix + NatToString(n)
  }

  /** Different counter values mint different keys. */
  lemma TokenInjective(a: nat, b: nat)
    ensures Token(a) == Token(b) <==> a == b
  {
    if Token(a) == Token(b) {
      assert NatToString(a) == Token(a)[|KeyPrefix|..];
      NatToStringInjective(a, b);
    }
  }

  /** The table after `add` has been called with each value of `history` in
      turn, starting from an empty table and a counter of zero. */
  function Entries(history: seq<Value>): map<string, Value>
  {
    if history == [] then map[]
    else Entries(history[..|history| - 1])[Token(|history|) := history[|history| - 1]]
  }

  /** The keys of the table are exactly the first |history| tokens, and each
      maps to the value added when it was minted. */
  lemma {:induction false} EntriesSpec(history: seq<Value>)
    ensures forall key :: key in Entries(history) <==> exists n :: 1 <= n <= |history| && key == Token(n)
    ensures forall n :: 1 <= n <= |history| ==> Entries(history)[Token(n)] == history[n - 1]
  {
    if history != [] {
      var h := history[..|history| - 1];
      EntriesSpec(h);
      forall n | 1 <= n <= |history|
        ensures Token(n) in Entries(history) && Entries(history)[Token(n)] == history[n - 1]
      {
        TokenInjective(n, |history|);
      }
      forall key | key in Entries(history)
        ensures exists n :: 1 <= n <= |history| && key == Token(n)
      {
        if key != Token(|history|) {
          assert key in Entries(h);
        }
      }
    }
  }

  /** The latest key minted holds the latest value added. */
  lemma LatestEntry(history: seq<Value>)
    requires history != []
    ensures Token(|history|) in Entries(history)
    ensures Entries(history)[Token(|history|)] == history[|history| - 1]
  {
  }

  /** Adding more values never removes or changes an entry already stored. */
  lemma EntriesPreserved(history: seq<Value>, more: seq<Value>, key: string)
    requires key in Entries(history)
    ensures key in Entries(history + more) && Entries(history + more)[key] == Entries(history)[key]
  {
    EntriesSpec(history);
    EntriesSpec(history + more);
    var n :| 1 <= n <= |history| && key == Token(n);
    assert (history + more)[n - 1] == history[n - 1];
  }

  /** `store[key]`: `undefined` for a key never minted. */
  function Lookup(records: map<string, Value>, key: string): Value
  {
    if key in records then records[key] else Undefined
  }

  class Store {
    var keyCounter: nat
    var store: map<string, Value>
    /** The values passed to `add`, in call order. */
    ghost var history: seq<Value>

    ghost predicate Valid()
      reads this
    {
      keyCounter == |history| && store == Entries(history)
    }

    constructor ()
      ensures Valid() && history == []
    {
      keyCounter := 0;
      store := map[];
      history := [];
    }

    /** Pre-increments the counter and mints the key for its new value. */
    method NewKey() returns (key: string)
      requires Valid()
      modifies this
      ensures keyCounter == old(keyCounter) + 1 && key == Token(keyCounter)
      ensures store == old(store) && history == old(history)
    {
      keyCounter := keyCounter + 1;
      key := KeyPrefix + NatToString(keyCounter);
    }

    /** Stores `data` under a fresh key and returns the key: the n-th call
        returns Token(n), a key no earlier call returned. */
    method Add(data: Value) returns (key: string)
      requires Valid()
      modifies this
      ensures Valid()
      ensures history == old(history) + [data]
      ensures key == Token(|history|) && key !in old(store)
      ensures store == old(store)[key := data]
    {
      EntriesSpec(history);
      forall n | 1 <= n <= |history| ensures Token(n) != Token(|history| + 1) {
        TokenInjective(n, |history| + 1);
      }
      key := NewKey();
      store := store[key := data];
      history := history + [data];
      assert history[..|history| - 1] == old(history);
    }

    /** Looks a key up: the value added when the key was minted, or
        `undefined` for any other string. */
    function Get(key: string): (v: Value)
      reads this
      requires Valid()
      ensures forall n :: 1 <= n <= |history| && key == Token(n) ==> v == history[n - 1]
      ensures (forall n :: 1 <= n <= |history| ==> key != Token(n)) ==> v == Undefined
    {
      EntriesSpec(history);
      Lookup(store, key)
    }
  }
}
