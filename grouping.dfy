/**
 * The grouping loop of the two validation handlers: every (field, message)
 * entry is appended, in order, to the list kept under its field, the list
 * being created on the field's first entry (`computeIfAbsent(...).add(...)`).
 */
module Grouping {

  /** One validation message and the name it is reported under. */
  datatype Entry = Entry(key: string, message: string)

  /** The map after one `computeIfAbsent(key, k -> new ArrayList<>()).add(message)`. */
  function Add(m: map<string, seq<string>>, e: Entry): (r: map<string, seq<string>>)
    ensures r.Keys == m.Keys + {e.key}
    ensures r[e.key] == (if e.key in m then m[e.key] else []) + [e.message]
    ensures forall k :: k in m && k != e.key ==> r[k] == m[k]
  {
    if e.key in m then m[e.key := m[e.key] + [e.message]] else m[e.key := [e.message]]
  }

  /** The map the loop builds from an empty map: entries added left to right. */
  function Grouped(entries: seq<Entry>): map<string, seq<string>>
  {
    if entries == [] then map[]
    else Add(Grouped(entries[..|entries| - 1]), entries[|entries| - 1])
  }

  /** Every name that occurs in `entries`. */
  function KeysOf(entries: seq<Entry>): set<string>
  {
    set i | 0 <= i < |entries| :: entries[i].key
  }

  /** The messages reported under `k`, in the order of `entries` (the reference definition). */
  function MessagesFor(entries: seq<Entry>, k: string): seq<string>
  {
    if entries == [] then []
    else MessagesFor(entries[..|entries| - 1], k)
         + (if entries[|entries| - 1].key == k then [entries[|entries| - 1].message] else [])
  }

  /** The distinct names of `entries`, in the order they first occur. */
  function FirstSeen(entries: seq<Entry>): seq<string>
  {
    if entries == [] then []
    else
      var ks := FirstSeen(entries[..|entries| - 1]);
      if entries[|entries| - 1].key in ks then ks else ks + [entries[|entries| - 1].key]
  }

  /** The number of messages stored under the names `ks`. */
  function CountUnder(m: map<string, seq<string>>, ks: seq<string>): nat
  {
    if ks == [] then 0
    else CountUnder(m, ks[..|ks| - 1]) + (if ks[|ks| - 1] in m then |m[ks[|ks| - 1]]| else 0)
  }

  predicate Distinct(ks: seq<string>)
  {
    forall i, j :: 0 <= i < j < |ks| ==> ks[i] != ks[j]
  }

  /**
   * The grouping loop: the map starts empty and each entry is added in turn.
   * The result is the grouped map of all entries.
   */
  method GroupMessages(entries: seq<Entry>) returns (m: map<string, seq<string>>)
    ensures m == Grouped(entries)
  {
    m := map[];
    var i := 0;
    while i < |entries|
      invariant 0 <= i <= |entries|
      invariant m == Grouped(entries[..i])
    {
      assert entries[..i + 1][..i] == entries[..i];
      var e := entries[i];
      if e.key in m {
        m := m[e.key := m[e.key] + [e.message]];
      } else {
        m := m[e.key := [e.message]];
      }
      i := i + 1;
    }
    assert entries[..i] == entries;
  }

  /**
   * The grouped map's names are exactly the names that occur, and under each
   * name it holds that name's messages in input order.
   */
  lemma {:induction false} GroupedSpec(entries: seq<Entry>)
    ensures Grouped(entries).Keys == KeysOf(entries)
    ensures forall k :: k in Grouped(entries) ==> Grouped(entries)[k] == MessagesFor(entries, k)
  {
    if entries != [] {
      var init, last := entries[..|entries| - 1], entries[|entries| - 1];
      GroupedSpec(init);
      assert KeysOf(entries) == KeysOf(init) + {last.key} by {
        forall k | k in KeysOf(entries) ensures k in KeysOf(init) + {last.key} {
          var i :| 0 <= i < |entries| && entries[i].key == k;
          if i < |init| { assert init[i] == entries[i]; }
        }
        forall k | k in KeysOf(init) ensures k in KeysOf(entries) {
          var i :| 0 <= i < |init| && init[i].key == k;
          assert entries[i] == init[i];
        }
      }
      if last.key !in KeysOf(init) {
        MessagesForAbsent(init, last.key);
      }
    }
  }

  /** A name that does not occur has no messages. */
  lemma {:induction false} MessagesForAbsent(entries: seq<Entry>, k: string)
    requires k !in KeysOf(entries)
    ensures MessagesFor(entries, k) == []
  {
    if entries != [] {
      var init := entries[..|entries| - 1];
      assert KeysOf(init) <= KeysOf(entries) by {
        forall j | j in KeysOf(init) ensures j in KeysOf(entries) {
          var i :| 0 <= i < |init| && init[i].key == j;
          assert entries[i] == init[i];
        }
      }
      MessagesForAbsent(init, k);
      assert entries[|entries| - 1].key in KeysOf(entries);
    }
  }

  /** The messages under `k` of a prefix are a prefix of the messages under `k`. */
  lemma {:induction false} MessagesForPrefix(entries: seq<Entry>, n: nat, k: string)
    requires n <= |entries|
    ensures MessagesFor(entries[..n], k) <= MessagesFor(entries, k)
    decreases |entries|
  {
    if n < |entries| {
      var init := entries[..|entries| - 1];
      assert init[..n] == entries[..n];
      MessagesForPrefix(init, n, k);
    } else {
      assert entries[..n] == entries;
    }
  }

  /**
   * Entry `i` is stored under its own name, right after the messages of that
   * name that come before it: the input order is kept.
   */
  lemma MessagePosition(entries: seq<Entry>, i: nat)
    requires i < |entries|
    ensures entries[i].key in Grouped(entries)
    ensures |MessagesFor(entries[..i], entries[i].key)| < |Grouped(entries)[entries[i].key]|
    ensures Grouped(entries)[entries[i].key][|MessagesFor(entries[..i], entries[i].key)|] == entries[i].message
  {
    var k := entries[i].key;
    assert k in KeysOf(entries);
    GroupedAt(entries, k);
    MessagesForAt(entries, i);
  }

  lemma GroupedAt(entries: seq<Entry>, k: string)
    requires k in KeysOf(entries)
    ensures k in Grouped(entries) && Grouped(entries)[k] == MessagesFor(entries, k)
  {
    GroupedSpec(entries);
  }

  lemma MessagesForAt(entries: seq<Entry>, i: nat)
    requires i < |entries|
    ensures |MessagesFor(entries[..i], entries[i].key)| < |MessagesFor(entries, entries[i].key)|
    ensures MessagesFor(entries, entries[i].key)[|MessagesFor(entries[..i], entries[i].key)|] == entries[i].message
  {
    var k := entries[i].key;
    var before := MessagesFor(entries[..i], k);
    var upTo := MessagesFor(entries[..i + 1], k);
    assert entries[..i + 1][..i] == entries[..i];
    assert upTo == before + [entries[i].message];
    MessagesForPrefix(entries, i + 1, k);
  }

  lemma {:induction false} CountUnderOutside(m: map<string, seq<string>>, ks: seq<string>, k: string,
                                             v: seq<string>)
    requires k !in ks
    ensures CountUnder(m[k := v], ks) == CountUnder(m, ks)
  {
    if ks != [] {
      CountUnderOutside(m, ks[..|ks| - 1], k, v);
    }
  }

  lemma {:induction false} CountUnderInside(m: map<string, seq<string>>, ks: seq<string>, k: string,
                                            v: seq<string>)
    requires Distinct(ks) && k in ks && k in m && |v| == |m[k]| + 1
    ensures CountUnder(m[k := v], ks) == CountUnder(m, ks) + 1
  {
    var init, last := ks[..|ks| - 1], ks[|ks| - 1];
    if last == k {
      assert k !in init;
      CountUnderOutside(m, init, k, v);
    } else {
      CountUnderInside(m, init, k, v);
    }
  }

  /** The names in first-occurrence order are distinct and are the grouped map's names. */
  lemma {:induction false} FirstSeenSpec(entries: seq<Entry>)
    ensures Distinct(FirstSeen(entries))
    ensures forall k :: k in FirstSeen(entries) <==> k in Grouped(entries)
  {
    if entries != [] {
      FirstSeenSpec(entries[..|entries| - 1]);
    }
  }

  /** No message is lost or duplicated: the lists together hold one message per entry. */
  lemma {:induction false} GroupedTotal(entries: seq<Entry>)
    ensures CountUnder(Grouped(entries), FirstSeen(entries)) == |entries|
  {
    if entries != [] {
      var init, last := entries[..|entries| - 1], entries[|entries| - 1];
      var m, ks := Grouped(init), FirstSeen(init);
      GroupedTotal(init);
      FirstSeenSpec(init);
      if last.key in m {
        CountUnderInside(m, ks, last.key, m[last.key] + [last.message]);
      } else {
        CountUnderOutside(m, ks, last.key, [last.message]);
        assert (ks + [last.key])[..|ks|] == ks;
      }
    }
  }
}
