/**
 * The per-session list of recently viewed or clicked tracks: bounded to 20,
 * de-duplicated, most recent first. It is kept in the signed session cookie
 * and updated in place by the song-detail and event endpoints.
 */
module Session {
  import opened Wrappers
  import opened Json

  const MaxRecent := 20

  ghost predicate NoDup<T>(s: seq<T>)
  {
    forall i, j :: 0 <= i < j < |s| ==> s[i] != s[j]
  }

  /** `[t for t in recent if t != x]`. */
  function Without<T(==)>(s: seq<T>, x: T): (r: seq<T>)
    ensures |r| <= |s|
    ensures forall i :: 0 <= i < |r| ==> r[i] in s && r[i] != x
    ensures forall i :: 0 <= i < |s| && s[i] != x ==> s[i] in r
    ensures x !in s ==> r == s
  {
    if |s| == 0 then []
    else (if s[0] == x then [] else [s[0]]) + Without(s[1..], x)
  }

  /** Removing an element keeps a duplicate-free list duplicate-free. */
  lemma {:induction false} WithoutNoDup<T>(s: seq<T>, x: T)
    requires NoDup(s)
    ensures NoDup(Without(s, x))
  {
    if |s| > 0 {
      assert NoDup(s[1..]) by {
        forall i, j | 0 <= i < j < |s[1..]| ensures s[1..][i] != s[1..][j] {
          assert s[1..][i] == s[i + 1] && s[1..][j] == s[j + 1];
        }
      }
      WithoutNoDup(s[1..], x);
      assert s[0] !in s[1..] by {
        forall k | 0 <= k < |s[1..]| ensures s[1..][k] != s[0] {
          assert s[1..][k] == s[k + 1];
        }
      }
    }
  }

  /** Filtering distributes over concatenation: the kept elements keep their order. */
  lemma {:induction false} WithoutAppend<T>(a: seq<T>, b: seq<T>, x: T)
    ensures Without(a + b, x) == Without(a, x) + Without(b, x)
  {
    if |a| == 0 {
      assert a + b == b;
    } else {
      assert (a + b)[1..] == a[1..] + b;
      WithoutAppend(a[1..], b, x);
    }
  }

  /** Filtering drops every copy of `x` and keeps every other element as often as it was there. */
  lemma {:induction false} WithoutMultiset<T>(s: seq<T>, x: T)
    ensures multiset(Without(s, x)) == multiset(s)[x := 0]
  {
    if |s| > 0 {
      WithoutMultiset(s[1..], x);
      assert s == [s[0]] + s[1..];
    }
  }

  /** The recent list after recording `t`: `t` moved to the front, cut to 20. */
  function Recorded<T(==)>(recent: seq<T>, t: T): (r: seq<T>)
    ensures 1 <= |r| <= MaxRecent && r[0] == t
    ensures forall i :: 1 <= i < |r| ==> r[i] != t && r[i] in recent
  {
    var moved := [t] + Without(recent, t);
    moved[..Min(MaxRecent, |moved|)]
  }

  /**
   * Recording `t` puts it first and exactly once; the rest is the old list
   * without `t`, in its old order, cut so that at most 20 entries remain.
   */
  lemma RecordedShape<T>(recent: seq<T>, t: T)
    ensures var r := Recorded(recent, t);
      && 1 <= |r| <= MaxRecent
      && r[0] == t
      && t !in r[1..]
      && multiset(r)[t] == 1
      && r[1..] == Without(recent, t)[..|r| - 1]
      && |r| == Min(MaxRecent, |Without(recent, t)| + 1)
  {
    var w := Without(recent, t);
    var r := Recorded(recent, t);
    assert r == [t] + w[..|r| - 1];
    assert r[1..] == w[..|r| - 1];
    assert forall i :: 0 <= i < |r| - 1 ==> w[..|r| - 1][i] == w[i];
    assert r == [t] + r[1..];
    assert multiset(r) == multiset{t} + multiset(r[1..]);
  }

  /** A duplicate-free list stays duplicate-free. */
  lemma RecordedNoDup<T>(recent: seq<T>, t: T)
    requires NoDup(recent)
    ensures NoDup(Recorded(recent, t))
  {
    var w := Without(recent, t);
    WithoutNoDup(recent, t);
    var moved := [t] + w;
    assert NoDup(moved) by {
      forall i, j | 0 <= i < j < |moved| ensures moved[i] != moved[j] {
        if i == 0 {
          assert moved[j] == w[j - 1] && w[j - 1] in w;
        } else {
          assert moved[i] == w[i - 1] && moved[j] == w[j - 1];
        }
      }
    }
  }

  /** Recording the tracks of `ts` one after the other, starting from `recent`. */
  function RecordAll<T(==)>(recent: seq<T>, ts: seq<T>): seq<T>
  {
    if |ts| == 0 then recent else Recorded(RecordAll(recent, ts[..|ts| - 1]), ts[|ts| - 1])
  }

  function Reverse<T>(s: seq<T>): (r: seq<T>)
    ensures |r| == |s|
    ensures forall i :: 0 <= i < |s| ==> r[i] == s[|s| - 1 - i]
  {
    if |s| == 0 then [] else [s[|s| - 1]] + Reverse(s[..|s| - 1])
  }

  /**
   * Recording distinct tracks into an empty list keeps the 20 most recent,
   * newest first: every older one has been evicted.
   */
  lemma {:induction false} RecordDistinct<T>(ts: seq<T>)
    requires NoDup(ts)
    ensures RecordAll([], ts) == Reverse(ts)[..Min(MaxRecent, |ts|)]
  {
    if |ts| > 0 {
      var n := |ts| - 1;
      var init, t := ts[..n], ts[n];
      assert NoDup(init);
      RecordDistinct(init);
      var prev := Reverse(init)[..Min(MaxRecent, n)];
      assert t !in prev by {
        forall k | 0 <= k < |prev| ensures prev[k] != t {
          assert prev[k] == init[n - 1 - k] == ts[n - 1 - k];
        }
      }
      assert Without(prev, t) == prev;
      var lhs := Recorded(prev, t);
      var rhs := Reverse(ts)[..Min(MaxRecent, |ts|)];
      assert |lhs| == |rhs|;
      forall k | 0 <= k < |lhs| ensures lhs[k] == rhs[k] {
        if k > 0 {
          assert lhs[k] == prev[k - 1];
        }
      }
    }
  }

  /** After 21 distinct recordings the first one is gone and 20 remain. */
  lemma OldestEvicted<T>(ts: seq<T>)
    requires NoDup(ts) && |ts| == MaxRecent + 1
    ensures |RecordAll([], ts)| == MaxRecent
    ensures ts[0] !in RecordAll([], ts)
  {
    RecordDistinct(ts);
    var r := RecordAll([], ts);
    forall k | 0 <= k < |r| ensures r[k] != ts[0] {
      assert r[k] == ts[|ts| - 1 - k];
    }
  }

  /** Recording a, then b, then a again gives a list that starts [a, b] and holds a once. */
  lemma RevisitMovesToFront<T>(recent: seq<T>, a: T, b: T)
    requires a != b
    ensures var r := RecordAll(recent, [a, b, a]);
      |r| >= 2 && r[..2] == [a, b] && multiset(r)[a] == 1
  {
    var r1 := Recorded(recent, a);
    var r2 := Recorded(r1, b);
    assert [a, b, a][..2] == [a, b] && [a, b][..1] == [a] && [a][..0] == [];
    assert RecordAll(recent, [a]) == r1;
    assert RecordAll(recent, [a, b]) == r2;
    assert RecordAll(recent, [a, b, a]) == Recorded(r2, a);
    RecordedShape(r1, b);
    RecordedShape(r2, a);
    var w := Without(r2, a);
    assert r2[0] == b && b in r2;
    assert w[0] == b;
  }

  class SessionState {
    /** `session['recent_track_ids']`: whatever JSON ids the client sent. */
    var recentTrackIds: seq<JsonValue>
    /** `session['client_id']`, once assigned. */
    var clientId: Option<string>

    ghost predicate Valid()
      reads this
    {
      NoDup(recentTrackIds) && |recentTrackIds| <= MaxRecent
    }

    constructor ()
      ensures Valid() && recentTrackIds == [] && clientId == None
    {
      recentTrackIds := [];
      clientId := None;
    }

    /** De-duplicate, insert at position 0, keep the first 20. */
    method RecordTrack(t: JsonValue)
      modifies this`recentTrackIds
      ensures recentTrackIds == Recorded(old(recentTrackIds), t)
      ensures recentTrackIds[0] == t && |recentTrackIds| <= MaxRecent
      ensures old(Valid()) ==> Valid()
    {
      ghost var before := recentTrackIds;
      var recent := Without(recentTrackIds, t);
      recent := [t] + recent;
      recentTrackIds := recent[..Min(MaxRecent, |recent|)];
      RecordedShape(before, t);
      if NoDup(before) {
        RecordedNoDup(before, t);
      }
    }
  }
}
