/**
 * `Dictionary<string, string>` as the core uses it. A dictionary is the sequence of its
 * entries in enumeration order; as long as nothing is removed, .NET enumerates a
 * dictionary in insertion order, and a write to an existing key keeps that key's place.
 * The functions give the semantics of each operation; `StringDictionary` is the mutable
 * object whose methods are specified by them.
 */
module Dictionaries {
  import opened Wrappers

  type Entry = (string, string)

  function Keys(e: seq<Entry>): set<string> {
    if |e| == 0 then {} else {e[0].0} + Keys(e[1..])
  }

  /** Each key occurs once: true of every dictionary. */
  predicate NoDupKeys(e: seq<Entry>) {
    forall i, j :: 0 <= i < j < |e| ==> e[i].0 != e[j].0
  }

  /** `TryGetValue`. */
  function Lookup(e: seq<Entry>, k: string): Option<string> {
    if |e| == 0 then None else if e[0].0 == k then Some(e[0].1) else Lookup(e[1..], k)
  }

  /** The indexer `d[k] = v`: overwrite in place when `k` is present, append otherwise. */
  function Put(e: seq<Entry>, k: string, v: string): seq<Entry> {
    if |e| == 0 then [(k, v)]
    else if e[0].0 == k then [(k, v)] + e[1..]
    else [e[0]] + Put(e[1..], k, v)
  }

  /** The writes `ws`, applied with `Put` in order. */
  function PutAll(e: seq<Entry>, ws: seq<Entry>): seq<Entry>
    decreases |ws|
  {
    if |ws| == 0 then e else PutAll(Put(e, ws[0].0, ws[0].1), ws[1..])
  }

  /** `Remove(k)`: the remaining entries, in their order. */
  function Without(e: seq<Entry>, k: string): seq<Entry> {
    if |e| == 0 then []
    else if e[0].0 == k then Without(e[1..], k)
    else [e[0]] + Without(e[1..], k)
  }

  /** The dictionary as a finite map, forgetting the enumeration order. */
  function ToMap(e: seq<Entry>): map<string, string> {
    if |e| == 0 then map[] else ToMap(e[1..])[e[0].0 := e[0].1]
  }

  // ---------------------------------------------------------------------------
  // Lemmas

  /** `Keys` collects exactly the keys at the positions of the sequence. */
  lemma {:induction false} KeysIndex(e: seq<Entry>)
    ensures forall i :: 0 <= i < |e| ==> e[i].0 in Keys(e)
    ensures forall k :: k in Keys(e) ==> exists i :: 0 <= i < |e| && e[i].0 == k
  {
    if |e| > 0 {
      KeysIndex(e[1..]);
      forall i | 0 < i < |e| ensures e[i].0 in Keys(e) {
        assert e[1..][i - 1] == e[i];
      }
      forall k | k in Keys(e[1..]) ensures exists i :: 0 <= i < |e| && e[i].0 == k {
        var j :| 0 <= j < |e[1..]| && e[1..][j].0 == k;
        assert e[j + 1].0 == k;
      }
    }
  }

  /** In a dictionary, the first key does not occur among the rest. */
  lemma HeadKeyFresh(e: seq<Entry>)
    requires |e| > 0 && NoDupKeys(e)
    ensures e[0].0 !in Keys(e[1..]) && NoDupKeys(e[1..])
  {
    KeysIndex(e[1..]);
    forall k | k in Keys(e[1..]) ensures k != e[0].0 {
      var j :| 0 <= j < |e[1..]| && e[1..][j].0 == k;
      assert e[j + 1].0 == k;
    }
  }

  lemma {:induction false} LookupSome(e: seq<Entry>, k: string)
    ensures Lookup(e, k).Some? <==> k in Keys(e)
    ensures Lookup(e, k).Some? ==> (k, Lookup(e, k).value) in e
  {
    if |e| > 0 {
      LookupSome(e[1..], k);
    }
  }

  lemma {:induction false} PutKeys(e: seq<Entry>, k: string, v: string)
    ensures Keys(Put(e, k, v)) == Keys(e) + {k}
  {
    if |e| > 0 {
      PutKeys(e[1..], k, v);
      if e[0].0 == k {
        assert Keys(Put(e, k, v)) == {k} + Keys(e[1..]);
      } else {
        assert Keys(Put(e, k, v)) == {e[0].0} + Keys(Put(e[1..], k, v));
      }
    }
  }

  lemma {:induction false} PutAbsent(e: seq<Entry>, k: string, v: string)
    requires k !in Keys(e)
    ensures Put(e, k, v) == e + [(k, v)]
  {
    if |e| > 0 {
      PutAbsent(e[1..], k, v);
      assert [e[0]] + (e[1..] + [(k, v)]) == e + [(k, v)];
    }
  }

  /** An entry whose key is new, put in front of a dictionary, keeps each key once. */
  lemma ConsNoDup(x: Entry, rest: seq<Entry>)
    requires x.0 !in Keys(rest) && NoDupKeys(rest)
    ensures NoDupKeys([x] + rest)
  {
    KeysIndex(rest);
    var r := [x] + rest;
    forall i, j | 0 <= i < j < |r| ensures r[i].0 != r[j].0 {
      assert r[j] == rest[j - 1];
      if i > 0 {
        assert r[i] == rest[i - 1];
      }
    }
  }

  lemma {:induction false} PutNoDup(e: seq<Entry>, k: string, v: string)
    requires NoDupKeys(e)
    ensures NoDupKeys(Put(e, k, v))
  {
    if |e| > 0 {
      HeadKeyFresh(e);
      if e[0].0 != k {
        PutNoDup(e[1..], k, v);
        PutKeys(e[1..], k, v);
        ConsNoDup(e[0], Put(e[1..], k, v));
      } else {
        ConsNoDup((k, v), e[1..]);
      }
    }
  }

  lemma {:induction false} PutLookup(e: seq<Entry>, k: string, v: string, k': string)
    ensures Lookup(Put(e, k, v), k') == if k' == k then Some(v) else Lookup(e, k')
  {
    if |e| > 0 && e[0].0 != k {
      PutLookup(e[1..], k, v, k');
    }
  }

  lemma {:induction false} PutAllConcat(e: seq<Entry>, a: seq<Entry>, b: seq<Entry>)
    ensures PutAll(e, a + b) == PutAll(PutAll(e, a), b)
    decreases |a|
  {
    if |a| > 0 {
      var e' := Put(e, a[0].0, a[0].1);
      assert (a + b)[0] == a[0] && (a + b)[1..] == a[1..] + b;
      assert PutAll(e, a + b) == PutAll(e', a[1..] + b);
      assert PutAll(e, a) == PutAll(e', a[1..]);
      PutAllConcat(e', a[1..], b);
    } else {
      assert a + b == b;
    }
  }

  lemma {:induction false} PutAllNoDup(e: seq<Entry>, ws: seq<Entry>)
    requires NoDupKeys(e)
    ensures NoDupKeys(PutAll(e, ws))
    decreases |ws|
  {
    if |ws| > 0 {
      PutNoDup(e, ws[0].0, ws[0].1);
      PutAllNoDup(Put(e, ws[0].0, ws[0].1), ws[1..]);
    }
  }

  /** The keys after a run of writes: the old keys and every key written. */
  lemma {:induction false} PutAllKeys(e: seq<Entry>, ws: seq<Entry>)
    ensures Keys(PutAll(e, ws)) == Keys(e) + Keys(ws)
    decreases |ws|
  {
    if |ws| > 0 {
      PutKeys(e, ws[0].0, ws[0].1);
      PutAllKeys(Put(e, ws[0].0, ws[0].1), ws[1..]);
    }
  }

  /** Two dictionaries with disjoint keys, one after the other, still have each key once. */
  lemma {:induction false} NoDupConcat(a: seq<Entry>, b: seq<Entry>)
    requires NoDupKeys(a) && NoDupKeys(b) && Keys(a) !! Keys(b)
    ensures NoDupKeys(a + b)
  {
    KeysIndex(a);
    KeysIndex(b);
    var ab := a + b;
    forall i, j | 0 <= i < j < |ab| ensures ab[i].0 != ab[j].0 {
      if j < |a| {
        assert ab[i] == a[i] && ab[j] == a[j];
      } else if i >= |a| {
        assert ab[i] == b[i - |a|] && ab[j] == b[j - |a|];
      } else {
        assert ab[i] == a[i] && ab[j] == b[j - |a|];
        assert ab[i].0 in Keys(a) && ab[j].0 in Keys(b);
      }
    }
  }

  /** The keys of the first entries of a dictionary do not include the key that comes next. */
  lemma PrefixFresh(e: seq<Entry>, n: nat)
    requires NoDupKeys(e) && n < |e|
    ensures e[n].0 !in Keys(e[..n])
    ensures e[..n + 1] == e[..n] + [e[n]]
  {
    KeysIndex(e[..n]);
    forall k | k in Keys(e[..n]) ensures k != e[n].0 {
      var j :| 0 <= j < n && e[..n][j].0 == k;
      assert e[j] == e[..n][j];
    }
  }

  /** A prefix of a dictionary is a dictionary. */
  lemma PrefixNoDup(a: seq<Entry>, b: seq<Entry>)
    requires NoDupKeys(a + b)
    ensures NoDupKeys(a)
  {
    forall i, j | 0 <= i < j < |a| ensures a[i].0 != a[j].0 {
      assert (a + b)[i] == a[i] && (a + b)[j] == a[j];
    }
  }

  lemma {:induction false} WithoutAbsent(e: seq<Entry>, k: string)
    requires k !in Keys(e)
    ensures Without(e, k) == e
  {
    if |e| > 0 {
      WithoutAbsent(e[1..], k);
    }
  }

  /** Removing a key that was appended last gives back the dictionary before the append. */
  lemma {:induction false} WithoutAppended(e: seq<Entry>, k: string, v: string)
    requires k !in Keys(e)
    ensures Without(e + [(k, v)], k) == e
  {
    if |e| == 0 {
      assert Without([(k, v)], k) == Without([], k);
    } else {
      assert (e + [(k, v)])[1..] == e[1..] + [(k, v)];
      WithoutAppended(e[1..], k, v);
    }
  }

  lemma {:induction false} LookupAppended(e: seq<Entry>, k: string, v: string)
    requires k !in Keys(e)
    ensures Lookup(e + [(k, v)], k) == Some(v)
  {
    if |e| > 0 {
      assert (e + [(k, v)])[1..] == e[1..] + [(k, v)];
      LookupAppended(e[1..], k, v);
    }
  }

  lemma {:induction false} ToMapMembers(e: seq<Entry>)
    requires NoDupKeys(e)
    ensures forall x :: x in e <==> x.0 in ToMap(e) && ToMap(e)[x.0] == x.1
  {
    if |e| > 0 {
      ToMapMembers(e[1..]);
      forall x | x in e[1..] ensures x.0 != e[0].0 {
        var j :| 0 <= j < |e[1..]| && e[1..][j] == x;
        assert e[j + 1] == x;
      }
      forall x ensures x in e <==> x.0 in ToMap(e) && ToMap(e)[x.0] == x.1 {
        assert x in e <==> x == e[0] || x in e[1..];
      }
    }
  }

  /** A sequence without repeated elements has each of them exactly once in its multiset. */
  lemma {:induction false} DistinctMultiset<T>(s: seq<T>, x: T)
    requires forall i, j :: 0 <= i < j < |s| ==> s[i] != s[j]
    ensures multiset(s)[x] == if x in s then 1 else 0
  {
    if |s| > 0 {
      assert s == [s[0]] + s[1..];
      DistinctMultiset(s[1..], x);
      if x == s[0] {
        forall j | 0 <= j < |s[1..]| ensures s[1..][j] != x {
          assert s[1..][j] == s[j + 1];
        }
      }
    }
  }

  /**
   * Two dictionaries with the same contents hold the same entries, in whatever order:
   * their entry sequences are permutations of each other.
   */
  lemma SameMapSameEntries(e1: seq<Entry>, e2: seq<Entry>)
    requires NoDupKeys(e1) && NoDupKeys(e2)
    requires ToMap(e1) == ToMap(e2)
    ensures multiset(e1) == multiset(e2)
  {
    ToMapMembers(e1);
    ToMapMembers(e2);
    forall x ensures multiset(e1)[x] == multiset(e2)[x] {
      DistinctMultiset(e1, x);
      DistinctMultiset(e2, x);
    }
  }

  // ---------------------------------------------------------------------------

  /** A mutable `Dictionary<string, string>`. */
  class StringDictionary {
    var entries: seq<Entry>

    ghost predicate Valid()
      reads this
    {
      NoDupKeys(entries)
    }

    constructor ()
      ensures Valid() && entries == []
    {
      entries := [];
    }

    /** `TryGetValue(k, out v)`. */
    function TryGetValue(k: string): Option<string>
      reads this
    {
      Lookup(entries, k)
    }

    /** The indexer setter `this[k] = v`. */
    method Set(k: string, v: string)
      requires Valid()
      modifies this
      ensures Valid()
      ensures entries == Put(old(entries), k, v)
    {
      PutNoDup(entries, k, v);
      entries := Put(entries, k, v);
    }

    /** `Remove(k)`. */
    method Remove(k: string)
      requires Valid()
      modifies this
      ensures entries == Without(old(entries), k)
      ensures Valid()
    {
      WithoutNoDup(entries, k);
      entries := Without(entries, k);
    }
  }

  lemma {:induction false} WithoutKeys(e: seq<Entry>, k: string)
    ensures Keys(Without(e, k)) == Keys(e) - {k}
  {
    if |e| > 0 {
      WithoutKeys(e[1..], k);
      if e[0].0 != k {
        assert Keys(Without(e, k)) == {e[0].0} + Keys(Without(e[1..], k));
      }
    }
  }

  lemma {:induction false} WithoutNoDup(e: seq<Entry>, k: string)
    requires NoDupKeys(e)
    ensures NoDupKeys(Without(e, k))
  {
    if |e| > 0 {
      HeadKeyFresh(e);
      WithoutNoDup(e[1..], k);
      WithoutKeys(e[1..], k);
      if e[0].0 != k {
        ConsNoDup(e[0], Without(e[1..], k));
      }
    }
  }
}
