/** Grouping a list by a key into a Python dict, as both setup scripts'
    reports do: a key's group is created the first time the key is seen,
    so the dict's keys come in order of first appearance. */
module Grouping {

  /** The distinct keys of `items`, in order of first appearance. */
  function KeysInOrder<T>(items: seq<T>, key: T -> string): seq<string>
    decreases |items|
  {
    if items == [] then []
    else
      var prev := KeysInOrder(items[..|items| - 1], key);
      var k := key(items[|items| - 1]);
      if k in prev then prev else prev + [k]
  }

  /** The items whose key is `k`, in their original order. */
  function Members<T>(items: seq<T>, key: T -> string, k: string): seq<T>
    decreases |items|
  {
    if items == [] then []
    else
      var prev := Members(items[..|items| - 1], key, k);
      if key(items[|items| - 1]) == k then prev + [items[|items| - 1]] else prev
  }

  /** The loop that fills the dict: `order` is the dict's key order and
      `groups` its contents. */
  method GroupBy<T>(items: seq<T>, key: T -> string) returns (order: seq<string>, groups: map<string, seq<T>>)
    ensures order == KeysInOrder(items, key)
    ensures forall k :: k in groups <==> k in order
    ensures forall k :: k in groups ==> groups[k] == Members(items, key, k)
  {
    order := [];
    groups := map[];
    for i := 0 to |items|
      invariant order == KeysInOrder(items[..i], key)
      invariant forall k :: k in groups <==> k in order
      invariant forall k :: k in groups ==> groups[k] == Members(items[..i], key, k)
    {
      var k := key(items[i]);
      GroupStep(items, key, i);
      UnseenHasNoMembers(items[..i], key, k);
      if k !in groups {
        groups := groups[k := []];
        order := order + [k];
      }
      groups := groups[k := groups[k] + [items[i]]];
    }
    assert items[..|items|] == items;
  }

  /** One more item: its key joins the order if new, and it joins its
      key's group. */
  lemma GroupStep<T>(items: seq<T>, key: T -> string, i: nat)
    requires i < |items|
    ensures KeysInOrder(items[..i + 1], key)
      == if key(items[i]) in KeysInOrder(items[..i], key) then KeysInOrder(items[..i], key)
         else KeysInOrder(items[..i], key) + [key(items[i])]
    ensures forall k :: (Members(items[..i + 1], key, k)
      == Members(items[..i], key, k) + (if key(items[i]) == k then [items[i]] else []))
  {
    assert items[..i + 1][..i] == items[..i];
  }

  /** A key not yet listed has an empty group. */
  lemma {:induction false} UnseenHasNoMembers<T>(items: seq<T>, key: T -> string, k: string)
    ensures k !in KeysInOrder(items, key) ==> Members(items, key, k) == []
    decreases |items|
  {
    if items != [] {
      UnseenHasNoMembers(items[..|items| - 1], key, k);
    }
  }

  predicate Distinct<T(==)>(s: seq<T>) {
    forall i, j :: 0 <= i < j < |s| ==> s[i] != s[j]
  }

  /** No key is listed twice. */
  lemma {:induction false} KeysDistinct<T>(items: seq<T>, key: T -> string)
    ensures Distinct(KeysInOrder(items, key))
    decreases |items|
  {
    if items != [] {
      var prev := KeysInOrder(items[..|items| - 1], key);
      KeysDistinct(items[..|items| - 1], key);
      var order := KeysInOrder(items, key);
      forall i, j | 0 <= i < j < |order| ensures order[i] != order[j] {
        if j == |prev| {
          assert order == prev + [key(items[|items| - 1])];
          assert order[i] == prev[i] && prev[i] in prev;
        } else {
          assert j < |prev|;
          assert order[i] == prev[i] && order[j] == prev[j];
          assert prev[i] != prev[j];
        }
      }
    }
  }

  /** A key is listed exactly when some item has it. */
  lemma {:induction false} KeysComplete<T>(items: seq<T>, key: T -> string)
    ensures forall k :: k in KeysInOrder(items, key) <==> exists i :: 0 <= i < |items| && key(items[i]) == k
    decreases |items|
  {
    if items != [] {
      var init := items[..|items| - 1];
      KeysComplete(init, key);
      forall k | (exists i :: 0 <= i < |items| && key(items[i]) == k)
        ensures k in KeysInOrder(items, key)
      {
        var i :| 0 <= i < |items| && key(items[i]) == k;
        if i < |init| {
          assert key(init[i]) == k;
        }
      }
      forall k | k in KeysInOrder(items, key)
        ensures exists i :: 0 <= i < |items| && key(items[i]) == k
      {
        if k in KeysInOrder(init, key) {
          var i :| 0 <= i < |init| && key(init[i]) == k;
          assert items[i] == init[i];
        } else {
          assert key(items[|items| - 1]) == k;
        }
      }
    }
  }

  /** The keys of a prefix of the items come first, in the same order:
      a key seen earlier is listed earlier. */
  lemma {:induction false} KeysOfPrefix<T>(items: seq<T>, key: T -> string, p: nat)
    requires p <= |items|
    ensures var before := KeysInOrder(items[..p], key);
      |before| <= |KeysInOrder(items, key)| && KeysInOrder(items, key)[..|before|] == before
    decreases |items|
  {
    if p < |items| {
      var init := items[..|items| - 1];
      assert init[..p] == items[..p];
      KeysOfPrefix(init, key, p);
    } else {
      assert items[..p] == items;
    }
  }

  /** Each group holds only items with its key, and every item is in the
      group of its own key. */
  lemma {:induction false} MembersPartition<T>(items: seq<T>, key: T -> string)
    ensures forall k, x :: x in Members(items, key, k) ==> key(x) == k
    ensures forall i :: 0 <= i < |items| ==> items[i] in Members(items, key, key(items[i]))
    decreases |items|
  {
    if items != [] {
      var init := items[..|items| - 1];
      MembersPartition(init, key);
      forall k, x | x in Members(items, key, k) ensures key(x) == k {
        if x !in Members(init, key, k) {
          assert x == items[|items| - 1];
        }
      }
      forall i | 0 <= i < |items| ensures items[i] in Members(items, key, key(items[i])) {
        if i < |init| {
          assert items[i] == init[i];
          assert init[i] in Members(init, key, key(init[i]));
        }
      }
    }
  }

  /** The set of keys, as `set(key(x) for x in items)`. */
  function KeySet<T>(items: seq<T>, key: T -> string): set<string> {
    set i | 0 <= i < |items| :: key(items[i])
  }

  /** The number of distinct keys is the number of groups. */
  lemma {:induction false} DistinctKeysCount<T>(items: seq<T>, key: T -> string)
    ensures |KeySet(items, key)| == |KeysInOrder(items, key)|
    decreases |items|
  {
    if items != [] {
      var init := items[..|items| - 1];
      var k := key(items[|items| - 1]);
      DistinctKeysCount(init, key);
      KeysComplete(init, key);
      var before := KeySet(init, key);
      var after := KeySet(items, key);
      assert after == before + {k} by {
        forall x | x in after ensures x in before + {k} {
          var i :| 0 <= i < |items| && key(items[i]) == x;
          if i < |init| {
            assert key(init[i]) == x;
          }
        }
        forall x | x in before ensures x in after {
          var i :| 0 <= i < |init| && key(init[i]) == x;
          assert key(items[i]) == x;
        }
      }
      if k in KeysInOrder(init, key) {
        assert k in before;
        assert before + {k} == before;
      } else {
        assert k !in before;
      }
    }
  }
}
