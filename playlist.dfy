/**
 * The audio records of a playlist and the list operations the view applies
 * to them (`contains`, `add` at the end, `remove` of the first equal element).
 *
 * A `JcAudio` is a mutable object: the view overwrites its `title` and
 * `position` in place, so it is a class here. Its equality, which `contains`
 * and `remove` use, is modelled as equality of a fixed identity `key`.
 */
module Playlist {
  import opened Wrappers

  /** What two equal audio records share. */
  type Key = string

  /** The `position` value that marks a record as not yet numbered. */
  const Unassigned: int := -1

  class Audio {
    const key: Key
    var title: string
    var position: Option<int>

    constructor (key: Key, title: string, position: Option<int>)
      ensures this.key == key && this.title == title && this.position == position
    {
      this.key := key;
      this.title := title;
      this.position := position;
    }
  }

  /** `s.contains(a)`: some element is equal to `a`. */
  predicate Contains(s: seq<Audio>, a: Audio)
    ensures a in s ==> Contains(s, a)
    ensures Contains(s, a) ==> |s| > 0
  {
    exists i :: 0 <= i < |s| && s[i].key == a.key
  }

  /** No two elements of `s` are equal. */
  predicate DistinctKeys(s: seq<Audio>)
  {
    forall i, j :: 0 <= i < j < |s| ==> s[i].key != s[j].key
  }

  /** No object occurs twice in `s`. */
  predicate NoAliases(s: seq<Audio>)
  {
    forall i, j :: 0 <= i < j < |s| ==> s[i] != s[j]
  }

  /** The index of the first element equal to `a`, if there is one. */
  function FirstIndex(s: seq<Audio>, a: Audio): (r: Option<nat>)
    ensures r.None? <==> !Contains(s, a)
    ensures r.Some? ==> r.value < |s| && s[r.value].key == a.key
    ensures r.Some? ==> forall j :: 0 <= j < r.value ==> s[j].key != a.key
  {
    if s == [] then None
    else if s[0].key == a.key then Some(0)
    else match FirstIndex(s[1..], a)
      case None => None
      case Some(i) => Some(i + 1)
  }

  /**
   * `s.remove(a)`: drops the first element equal to `a`; a list without such
   * an element is returned unchanged.
   */
  function RemoveFirst(s: seq<Audio>, a: Audio): (r: seq<Audio>)
    ensures |r| == if Contains(s, a) then |s| - 1 else |s|
  {
    if s == [] then []
    else
      ContainsCons(s, a);
      if s[0].key == a.key then s[1..]
      else [s[0]] + RemoveFirst(s[1..], a)
  }

  /**
   * What `RemoveFirst` leaves: the elements before the first one equal to `a`,
   * followed by those after it, in their order.
   */
  lemma {:induction false} RemoveFirstAt(s: seq<Audio>, a: Audio)
    ensures match FirstIndex(s, a)
      case None => RemoveFirst(s, a) == s
      case Some(i) => RemoveFirst(s, a) == s[..i] + s[i + 1..]
  {
    if s != [] && s[0].key != a.key {
      var tail := s[1..];
      RemoveFirstAt(tail, a);
      match FirstIndex(tail, a)
      case None =>
        assert [s[0]] + tail == s;
      case Some(i) =>
        assert FirstIndex(s, a) == Some(i + 1);
        SliceAfterHead(s, i);
    }
  }

  /** Dropping index `i + 1` of `s` is keeping its head and dropping index `i` of its tail. */
  lemma SliceAfterHead<T>(s: seq<T>, i: nat)
    requires i + 1 < |s|
    ensures s[..i + 1] + s[i + 2..] == [s[0]] + (s[1..][..i] + s[1..][i + 1..])
  {
    assert s[..i + 1] == [s[0]] + s[1..][..i];
    assert s[i + 2..] == s[1..][i + 1..];
  }

  /** `if (!s.contains(a)) s.add(a)`: the list afterwards. */
  function AddIfAbsent(s: seq<Audio>, a: Audio): (r: seq<Audio>)
    ensures |r| == |s| || |r| == |s| + 1
    ensures |r| == |s| + 1 <==> !Contains(s, a)
    ensures r[..|s|] == s
    ensures Contains(r, a)
  {
    if Contains(s, a) then s
    else
      assert (s + [a])[|s|] == a;
      s + [a]
  }

  /** Adding an element that is already there changes nothing. */
  lemma AddIfAbsentIdempotent(s: seq<Audio>, a: Audio)
    ensures AddIfAbsent(AddIfAbsent(s, a), a) == AddIfAbsent(s, a)
  {
  }

  /** Adding never introduces a duplicate. */
  lemma AddIfAbsentKeepsDistinct(s: seq<Audio>, a: Audio)
    requires DistinctKeys(s)
    ensures DistinctKeys(AddIfAbsent(s, a))
  {
    if !Contains(s, a) {
      var r := s + [a];
      forall i, j | 0 <= i < j < |r| ensures r[i].key != r[j].key {
        if j == |s| {
          assert r[i] == s[i];
        }
      }
    }
  }

  /** Membership in a non-empty list splits into its head and its tail. */
  lemma ContainsCons(s: seq<Audio>, b: Audio)
    requires |s| > 0
    ensures Contains(s, b) <==> s[0].key == b.key || Contains(s[1..], b)
  {
    if Contains(s[1..], b) {
      var k :| 0 <= k < |s[1..]| && s[1..][k].key == b.key;
      assert s[k + 1].key == b.key;
    }
    if Contains(s, b) && s[0].key != b.key {
      var k :| 0 <= k < |s| && s[k].key == b.key;
      assert s[1..][k - 1].key == b.key;
    }
  }

  /** Every element left by `RemoveFirst` was in the list before. */
  lemma RemoveFirstElement(s: seq<Audio>, a: Audio, k: nat)
    requires k < |RemoveFirst(s, a)|
    ensures RemoveFirst(s, a)[k] in s
  {
    var r := RemoveFirst(s, a);
    RemoveFirstAt(s, a);
    match FirstIndex(s, a)
    case None =>
    case Some(i) =>
      if k < i {
        assert r[k] == s[k];
      } else {
        assert r[k] == s[k + 1];
      }
  }

  /** A list without duplicates is its head followed by a tail without duplicates that lacks the head. */
  lemma DistinctKeysCons(x: Audio, t: seq<Audio>)
    ensures DistinctKeys([x] + t) <==> DistinctKeys(t) && forall k :: 0 <= k < |t| ==> t[k].key != x.key
  {
    var s := [x] + t;
    if DistinctKeys(s) {
      forall i, j | 0 <= i < j < |t| ensures t[i].key != t[j].key {
        assert s[i + 1] == t[i] && s[j + 1] == t[j];
      }
      forall k | 0 <= k < |t| ensures t[k].key != x.key {
        assert s[0] == x && s[k + 1] == t[k];
      }
    }
    if DistinctKeys(t) && forall k :: 0 <= k < |t| ==> t[k].key != x.key {
      forall i, j | 0 <= i < j < |s| ensures s[i].key != s[j].key {
        assert s[j] == t[j - 1];
        if i > 0 {
          assert s[i] == t[i - 1];
        } else {
          assert s[i] == x;
        }
      }
    }
  }

  /** In a list without duplicates, removing `a` leaves no element equal to it and no duplicate. */
  lemma {:induction false} RemoveFirstKeepsDistinct(s: seq<Audio>, a: Audio)
    requires DistinctKeys(s)
    ensures DistinctKeys(RemoveFirst(s, a))
    ensures !Contains(RemoveFirst(s, a), a)
  {
    if s != [] {
      assert s == [s[0]] + s[1..];
      DistinctKeysCons(s[0], s[1..]);
      if s[0].key == a.key {
        ContainsCons(s, a);
        assert !Contains(s[1..], a) by {
          forall k | 0 <= k < |s[1..]| ensures s[1..][k].key != a.key {
          }
        }
      } else {
        var t := RemoveFirst(s[1..], a);
        RemoveFirstKeepsDistinct(s[1..], a);
        forall k | 0 <= k < |t| ensures t[k].key != s[0].key {
          RemoveFirstElement(s[1..], a, k);
        }
        DistinctKeysCons(s[0], t);
        ContainsCons([s[0]] + t, a);
        assert ([s[0]] + t)[1..] == t;
      }
    }
  }

  /** Removing `a` keeps every element that is not equal to `a`. */
  lemma {:induction false} RemoveFirstKeepsOthers(s: seq<Audio>, a: Audio, b: Audio)
    requires b.key != a.key
    ensures Contains(RemoveFirst(s, a), b) <==> Contains(s, b)
  {
    if s != [] {
      ContainsCons(s, b);
      if s[0].key != a.key {
        var t := RemoveFirst(s[1..], a);
        RemoveFirstKeepsOthers(s[1..], a, b);
        ContainsCons([s[0]] + t, b);
        assert ([s[0]] + t)[1..] == t;
      }
    }
  }

  /** Removing what was just added to a list that lacked it gives the list back. */
  lemma {:induction false} RemoveAfterAdd(s: seq<Audio>, a: Audio)
    requires !Contains(s, a)
    ensures RemoveFirst(AddIfAbsent(s, a), a) == s
  {
    if s == [] {
    } else {
      assert s[0].key != a.key;
      forall k | 0 <= k < |s[1..]| ensures s[1..][k].key != a.key {
        assert s[1..][k] == s[k + 1];
      }
      RemoveAfterAdd(s[1..], a);
      assert (s + [a])[1..] == s[1..] + [a];
    }
  }

  /** The last index at which the object `o` occurs in `s`. */
  function LastIndex(s: seq<Audio>, o: Audio): (r: nat)
    requires o in s
    ensures r < |s| && s[r] == o
    ensures forall j :: r < j < |s| ==> s[j] != o
  {
    if s[|s| - 1] == o then |s| - 1
    else
      assert o in s[..|s| - 1] by {
        var k :| 0 <= k < |s| && s[k] == o;
        assert s[..|s| - 1][k] == o;
      }
      LastIndex(s[..|s| - 1], o)
  }

  /** Appending one element moves the last index of `o` only if that element is `o`. */
  lemma LastIndexSnoc(t: seq<Audio>, x: Audio, o: Audio)
    requires o in t + [x]
    ensures x == o ==> LastIndex(t + [x], o) == |t|
    ensures x != o ==> o in t && LastIndex(t + [x], o) == LastIndex(t, o)
  {
    if x != o {
      assert (t + [x])[..|t|] == t;
    }
  }

  /**
   * What one step of a loop that writes index `i` does to the last indices: the
   * object at `s[i]` now ends there, every other object keeps its last index.
   */
  lemma LastIndexStep(s: seq<Audio>, i: nat)
    requires i < |s|
    ensures forall k :: 0 <= k <= i ==>
      s[k] in s[..i + 1] && LastIndex(s[..i + 1], s[k]) == (if s[k] == s[i] then i else LastIndex(s[..i], s[k]))
  {
    assert s[..i + 1] == s[..i] + [s[i]];
    forall k | 0 <= k <= i
      ensures s[k] in s[..i + 1]
      ensures LastIndex(s[..i + 1], s[k]) == (if s[k] == s[i] then i else LastIndex(s[..i], s[k]))
    {
      assert s[..i + 1][k] == s[k];
      LastIndexSnoc(s[..i], s[i], s[k]);
    }
  }

  /** Without aliasing, the last index of an element is its own index. */
  lemma LastIndexNoAliases(s: seq<Audio>, i: nat)
    requires i < |s| && NoAliases(s)
    ensures LastIndex(s, s[i]) == i
  {
    var r := LastIndex(s, s[i]);
    assert s[r] == s[i];
  }

  /** Equal objects have equal keys, so a list without duplicates has no aliasing. */
  lemma DistinctKeysNoAliases(s: seq<Audio>)
    requires DistinctKeys(s)
    ensures NoAliases(s)
  {
  }
}
