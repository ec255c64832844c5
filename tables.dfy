/** Row selection on the in-memory tables: `.eq('tool_id', id)` and its
    complement (what a cascading delete keeps), and the uniqueness
    constraints the datastore enforces. */
module Tables {
  import opened Schema

  /** The rows whose tool reference is `id`, in table order. */
  function WithTool<T>(s: seq<T>, toolOf: T -> Id, id: Id): (r: seq<T>)
    ensures |r| <= |s|
  {
    if s == [] then []
    else (if toolOf(s[0]) == id then [s[0]] else []) + WithTool(s[1..], toolOf, id)
  }

  /** The selected rows are exactly the rows that refer to `id`. */
  lemma {:induction false} WithToolMembers<T>(s: seq<T>, toolOf: T -> Id, id: Id, x: T)
    ensures x in WithTool(s, toolOf, id) <==> x in s && toolOf(x) == id
  {
    if s != [] {
      WithToolMembers(s[1..], toolOf, id, x);
      assert x in s <==> x == s[0] || x in s[1..] by {
        assert s == [s[0]] + s[1..];
      }
    }
  }

  /** The rows whose tool reference is not `id`, in table order. */
  function WithoutTool<T>(s: seq<T>, toolOf: T -> Id, id: Id): (r: seq<T>)
    ensures |r| <= |s|
  {
    if s == [] then []
    else (if toolOf(s[0]) != id then [s[0]] else []) + WithoutTool(s[1..], toolOf, id)
  }

  /** The kept rows are exactly the rows that do not refer to `id`. */
  lemma {:induction false} WithoutToolMembers<T>(s: seq<T>, toolOf: T -> Id, id: Id, x: T)
    ensures x in WithoutTool(s, toolOf, id) <==> x in s && toolOf(x) != id
  {
    if s != [] {
      WithoutToolMembers(s[1..], toolOf, id, x);
      assert x in s <==> x == s[0] || x in s[1..] by {
        assert s == [s[0]] + s[1..];
      }
    }
  }

  lemma {:induction false} WithToolConcat<T>(a: seq<T>, b: seq<T>, toolOf: T -> Id, id: Id)
    ensures WithTool(a + b, toolOf, id) == WithTool(a, toolOf, id) + WithTool(b, toolOf, id)
  {
    if a != [] {
      assert (a + b)[0] == a[0] && (a + b)[1..] == a[1..] + b;
      WithToolConcat(a[1..], b, toolOf, id);
      var head := if toolOf(a[0]) == id then [a[0]] else [];
      assert WithTool(a + b, toolOf, id) == head + WithTool(a[1..] + b, toolOf, id);
    } else {
      assert a + b == b;
    }
  }

  lemma {:induction false} WithoutToolConcat<T>(a: seq<T>, b: seq<T>, toolOf: T -> Id, id: Id)
    ensures WithoutTool(a + b, toolOf, id) == WithoutTool(a, toolOf, id) + WithoutTool(b, toolOf, id)
  {
    if a != [] {
      assert (a + b)[0] == a[0] && (a + b)[1..] == a[1..] + b;
      WithoutToolConcat(a[1..], b, toolOf, id);
      var head := if toolOf(a[0]) != id then [a[0]] else [];
      assert WithoutTool(a + b, toolOf, id) == head + WithoutTool(a[1..] + b, toolOf, id);
    } else {
      assert a + b == b;
    }
  }

  /** Rows that all refer to `id` are all selected by it. */
  lemma {:induction false} WithToolAll<T>(s: seq<T>, toolOf: T -> Id, id: Id)
    requires forall x :: x in s ==> toolOf(x) == id
    ensures WithTool(s, toolOf, id) == s
  {
    if s != [] {
      WithToolAll(s[1..], toolOf, id);
      assert s == [s[0]] + s[1..];
    }
  }

  /** Rows that all avoid `id` are selected by no other test. */
  lemma {:induction false} WithToolNone<T>(s: seq<T>, toolOf: T -> Id, id: Id)
    requires forall x :: x in s ==> toolOf(x) != id
    ensures WithTool(s, toolOf, id) == []
  {
    if s != [] {
      WithToolNone(s[1..], toolOf, id);
    }
  }

  /** Deleting the rows of `id` leaves the rows of every other tool as they
      were. */
  lemma {:induction false} WithToolOfWithout<T>(s: seq<T>, toolOf: T -> Id, id: Id, other: Id)
    ensures WithTool(WithoutTool(s, toolOf, id), toolOf, other)
            == if other == id then [] else WithTool(s, toolOf, other)
  {
    if s != [] {
      WithToolOfWithout(s[1..], toolOf, id, other);
      var head := if toolOf(s[0]) != id then [s[0]] else [];
      WithToolConcat(head, WithoutTool(s[1..], toolOf, id), toolOf, other);
    }
  }

  /** No two rows share a key. */
  ghost predicate DistinctBy<T, K>(s: seq<T>, key: T -> K) {
    forall i, j :: 0 <= i < j < |s| ==> key(s[i]) != key(s[j])
  }

  /** Deleting rows keeps a uniqueness constraint. */
  lemma {:induction false} WithoutToolDistinct<T, K>(s: seq<T>, toolOf: T -> Id, id: Id, key: T -> K)
    requires DistinctBy(s, key)
    ensures DistinctBy(WithoutTool(s, toolOf, id), key)
  {
    if s != [] {
      var rest := WithoutTool(s[1..], toolOf, id);
      assert DistinctBy(s[1..], key) by {
        forall i, j | 0 <= i < j < |s[1..]| ensures key(s[1..][i]) != key(s[1..][j]) {
          assert s[1..][i] == s[i + 1] && s[1..][j] == s[j + 1];
        }
      }
      WithoutToolDistinct(s[1..], toolOf, id, key);
      if toolOf(s[0]) != id {
        var r := [s[0]] + rest;
        forall i, j | 0 <= i < j < |r| ensures key(r[i]) != key(r[j]) {
          if i == 0 {
            assert r[j] == rest[j - 1];
            assert rest[j - 1] in rest;
            WithoutToolMembers(s[1..], toolOf, id, rest[j - 1]);
            var m :| 0 <= m < |s[1..]| && s[1..][m] == rest[j - 1];
            assert s[m + 1] == r[j];
          } else {
            assert r[i] == rest[i - 1] && r[j] == rest[j - 1];
          }
        }
      }
    }
  }

  /** Appending a row whose key is new keeps a uniqueness constraint. */
  lemma AppendDistinct<T, K>(s: seq<T>, x: T, key: T -> K)
    requires DistinctBy(s, key)
    requires forall i :: 0 <= i < |s| ==> key(s[i]) != key(x)
    ensures DistinctBy(s + [x], key)
  {
  }

  /** Some row of `s` has key `k`. */
  predicate HasKey<T, K(==)>(s: seq<T>, key: T -> K, k: K) {
    exists i :: 0 <= i < |s| && key(s[i]) == k
  }

  lemma InHasKey<T, K>(s: seq<T>, key: T -> K, x: T)
    requires x in s
    ensures HasKey(s, key, key(x))
  {
    var i :| 0 <= i < |s| && s[i] == x;
  }

  lemma HasKeyAppend<T, K>(s: seq<T>, t: seq<T>, key: T -> K, k: K)
    requires HasKey(s, key, k)
    ensures HasKey(s + t, key, k)
  {
    var i :| 0 <= i < |s| && key(s[i]) == k;
    assert (s + t)[i] == s[i];
  }

  /** Deleting the rows of one tool keeps every key of the rows it lets
      through. */
  lemma HasKeyWithout<T, K>(s: seq<T>, toolOf: T -> Id, id: Id, key: T -> K, x: T)
    requires x in s && toolOf(x) != id
    ensures HasKey(WithoutTool(s, toolOf, id), key, key(x))
  {
    WithoutToolMembers(s, toolOf, id, x);
    InHasKey(WithoutTool(s, toolOf, id), key, x);
  }
}
