/**
 * Counting occurrences into a JavaScript object (`acc[key] = (acc[key] || 0) + 1`).
 * The object is a list of key/count entries in the order the keys were first
 * seen. The result is proved to hold each key once, to count every
 * occurrence of each key, and to add up to the number of keys counted.
 */
module Tally {
  import opened Common

  datatype Entry = Entry(key: string, count: nat)

  /** The count stored under `k`, or 0 when `k` has no entry (`acc[k] || 0`). */
  function CountOf(t: seq<Entry>, k: string): nat
  {
    if t == [] then 0 else if t[0].key == k then t[0].count else CountOf(t[1..], k)
  }

  /** The key a value gets in a JavaScript object: `undefined` becomes the text "undefined". */
  function KeyText(o: Option<string>): (r: string)
    ensures o.Some? ==> r == o.value
    ensures o.None? ==> r == "undefined"
  {
    if o.Some? then o.value else "undefined"
  }

  /** The sum of the counts. */
  function Total(t: seq<Entry>): nat
  {
    if t == [] then 0 else t[0].count + Total(t[1..])
  }

  /** Each key has one entry, and every entry has counted something. */
  predicate WellFormed(t: seq<Entry>)
  {
    (forall i, j :: 0 <= i < j < |t| ==> t[i].key != t[j].key) &&
    (forall i :: 0 <= i < |t| ==> t[i].count > 0)
  }

  /** One more occurrence of `k`: its entry grows by one, or a new entry is added at the end. */
  function Bump(t: seq<Entry>, k: string): (r: seq<Entry>)
    ensures |r| == |t| || |r| == |t| + 1
    ensures forall e :: e in r ==> e.key == k || e in t
  {
    if t == [] then [Entry(k, 1)]
    else if t[0].key == k then [Entry(k, t[0].count + 1)] + t[1..]
    else [t[0]] + Bump(t[1..], k)
  }

  /** The object built by counting `keys` in order. */
  function TallyOf(keys: seq<string>): seq<Entry>
  {
    if keys == [] then [] else Bump(TallyOf(keys[..|keys| - 1]), keys[|keys| - 1])
  }

  lemma {:induction false} BumpCounts(t: seq<Entry>, k: string)
    requires WellFormed(t)
    ensures WellFormed(Bump(t, k))
    ensures Total(Bump(t, k)) == Total(t) + 1
    ensures forall j :: CountOf(Bump(t, k), j) == CountOf(t, j) + (if j == k then 1 else 0)
  {
    if t != [] && t[0].key != k {
      WellFormedTail(t);
      BumpCounts(t[1..], k);
      BumpBehind(t, k);
    } else if t != [] {
      BumpAtHead(t, k);
    }
  }

  /** Bumping a key behind the first entry: the first entry stays in front of the bumped rest. */
  lemma BumpBehind(t: seq<Entry>, k: string)
    requires WellFormed(t) && t != [] && t[0].key != k
    requires WellFormed(Bump(t[1..], k)) && Total(Bump(t[1..], k)) == Total(t[1..]) + 1
    requires forall j :: CountOf(Bump(t[1..], k), j) == CountOf(t[1..], j) + (if j == k then 1 else 0)
    ensures WellFormed(Bump(t, k))
    ensures Total(Bump(t, k)) == Total(t) + 1
    ensures forall j :: CountOf(Bump(t, k), j) == CountOf(t, j) + (if j == k then 1 else 0)
  {
    var rest := t[1..];
    WellFormedTail(t);
    var b := Bump(rest, k);
    var r := Bump(t, k);
    assert r == [t[0]] + b;
    assert r[0] == t[0] && r[1..] == b;
    ConsWellFormed(t[0], b);
    assert Total(r) == t[0].count + Total(b);
    forall j ensures CountOf(r, j) == CountOf(t, j) + (if j == k then 1 else 0) {
      assert CountOf(r, j) == if t[0].key == j then t[0].count else CountOf(b, j);
    }
  }

  /** Bumping the first entry's key adds one to that entry alone. */
  lemma BumpAtHead(t: seq<Entry>, k: string)
    requires WellFormed(t) && t != [] && t[0].key == k
    ensures WellFormed(Bump(t, k))
    ensures Total(Bump(t, k)) == Total(t) + 1
    ensures forall j :: CountOf(Bump(t, k), j) == CountOf(t, j) + (if j == k then 1 else 0)
  {
    WellFormedTail(t);
    var e := Entry(k, t[0].count + 1);
    assert Bump(t, k) == [e] + t[1..];
    assert ([e] + t[1..])[1..] == t[1..];
    ConsWellFormed(e, t[1..]);
    assert forall j :: j != k ==> CountOf(t[1..], j) == CountOf(t, j);
    CountAbsent(t[1..], k);
  }

  /** An entry put in front of entries with other keys keeps each key once. */
  lemma ConsWellFormed(e: Entry, b: seq<Entry>)
    requires WellFormed(b) && e.count > 0
    requires forall x :: x in b ==> x.key != e.key
    ensures WellFormed([e] + b)
  {
    var r := [e] + b;
    forall i, j | 0 <= i < j < |r| ensures r[i].key != r[j].key {
      assert r[j] == b[j - 1] && b[j - 1] in b;
      if i > 0 {
        assert r[i] == b[i - 1];
      }
    }
  }

  lemma WellFormedTail(t: seq<Entry>)
    requires WellFormed(t) && t != []
    ensures WellFormed(t[1..])
    ensures forall e :: e in t[1..] ==> e.key != t[0].key
  {
    forall i, j | 0 <= i < j < |t[1..]| ensures t[1..][i].key != t[1..][j].key {
      assert t[1..][i] == t[i + 1] && t[1..][j] == t[j + 1];
    }
    forall e | e in t[1..] ensures e.key != t[0].key {
      var i :| 0 <= i < |t[1..]| && t[1..][i] == e;
      assert t[i + 1] == e;
    }
  }

  /** A key without an entry counts 0. */
  lemma {:induction false} CountAbsent(t: seq<Entry>, k: string)
    requires forall e :: e in t ==> e.key != k
    ensures CountOf(t, k) == 0
  {
    if t != [] {
      CountAbsent(t[1..], k);
    }
  }

  /**
   * Counting `keys` gives one entry per distinct key, the number of times each
   * key occurs, and counts adding up to the number of keys.
   */
  lemma {:induction false} TallyOfCounts(keys: seq<string>)
    ensures WellFormed(TallyOf(keys))
    ensures Total(TallyOf(keys)) == |keys|
    ensures forall k :: CountOf(TallyOf(keys), k) == multiset(keys)[k]
  {
    if keys != [] {
      var init := keys[..|keys| - 1];
      var last := keys[|keys| - 1];
      TallyOfCounts(init);
      BumpCounts(TallyOf(init), last);
      assert keys == init + [last];
    }
  }

  /** A key has an entry exactly when it was counted at least once. */
  lemma {:induction false} TallyOfKeys(keys: seq<string>)
    ensures forall k :: (exists e :: e in TallyOf(keys) && e.key == k) <==> k in keys
  {
    TallyOfCounts(keys);
    var t := TallyOf(keys);
    forall k ensures (exists e :: e in t && e.key == k) <==> k in keys {
      assert k in keys <==> multiset(keys)[k] > 0;
      EntryCount(t, k);
    }
  }

  /** In a well-formed tally a key has an entry exactly when its count is positive. */
  lemma {:induction false} EntryCount(t: seq<Entry>, k: string)
    requires WellFormed(t)
    ensures (exists e :: e in t && e.key == k) <==> CountOf(t, k) > 0
  {
    if t != [] {
      WellFormedTail(t);
      EntryCount(t[1..], k);
      if t[0].key != k {
        assert (exists e :: e in t && e.key == k) <==> (exists e :: e in t[1..] && e.key == k) by {
          if exists e :: e in t && e.key == k {
            var e :| e in t && e.key == k;
            assert e != t[0];
            assert e in t[1..];
          }
        }
      } else {
        assert t[0] in t;
      }
    }
  }
}
