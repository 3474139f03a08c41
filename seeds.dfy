/**
 * Turning the items of a Spotify playlist into seed infos for the engine:
 * only real, non-local tracks with an id are kept, in playlist order, and at
 * most the first 100 of them are used.
 */
module Seeds {
  import opened Wrappers

  /** The fields of a playlist item's `track` object that the filter reads. */
  datatype Track = Track(id: Option<string>, name: Option<string>, kind: string,
                         isLocal: bool, artists: seq<string>)

  /** A playlist item; `track` is null for removed or unavailable tracks. */
  datatype PlaylistItem = PlaylistItem(track: Option<Track>)

  /** `{'id': ..., 'name': ..., 'artist': ...}` as passed to the engine. */
  datatype SeedInfo = SeedInfo(id: string, name: Option<string>, artist: Option<string>)

  const MaxSeeds := 100

  /** A track object (not an episode), with a non-empty id, that is not a local file. */
  predicate Eligible(item: PlaylistItem)
  {
    && item.track.Some?
    && item.track.value.id.Some? && item.track.value.id.value != ""
    && item.track.value.kind == "track"
    && !item.track.value.isLocal
  }

  /** The seed info of an eligible item: its first artist's name, if it has artists. */
  function ToSeed(item: PlaylistItem): (s: SeedInfo)
    requires Eligible(item)
    ensures s.id == item.track.value.id.value && s.id != ""
  {
    var t := item.track.value;
    SeedInfo(t.id.value, t.name, if |t.artists| > 0 then Some(t.artists[0]) else None)
  }

  /** The seed infos of all eligible items, in playlist order. */
  function SeedsOf(items: seq<PlaylistItem>): (seeds: seq<SeedInfo>)
    ensures |seeds| <= |items|
    ensures |seeds| == 0 <==> forall i :: 0 <= i < |items| ==> !Eligible(items[i])
  {
    if |items| == 0 then []
    else
      var rest := SeedsOf(items[1..]);
      assert forall i :: 1 <= i < |items| ==> items[i] == items[1..][i - 1];
      (if Eligible(items[0]) then [ToSeed(items[0])] else []) + rest
  }

  /** Seeds of a concatenation are the seeds of each part, in order. */
  lemma {:induction false} SeedsOfAppend(a: seq<PlaylistItem>, b: seq<PlaylistItem>)
    ensures SeedsOf(a + b) == SeedsOf(a) + SeedsOf(b)
  {
    if |a| == 0 {
      assert a + b == b;
    } else {
      assert (a + b)[1..] == a[1..] + b;
      SeedsOfAppend(a[1..], b);
    }
  }

  /** Every seed is the seed of some eligible item, and every eligible item yields one. */
  lemma {:induction false} SeedsOfMembers(items: seq<PlaylistItem>, s: SeedInfo)
    ensures s in SeedsOf(items) <==> exists i :: 0 <= i < |items| && Eligible(items[i]) && ToSeed(items[i]) == s
  {
    if |items| > 0 {
      SeedsOfMembers(items[1..], s);
      assert forall i :: 1 <= i < |items| ==> items[i] == items[1..][i - 1];
      if s in SeedsOf(items[1..]) {
        var i :| 0 <= i < |items[1..]| && Eligible(items[1..][i]) && ToSeed(items[1..][i]) == s;
        assert Eligible(items[i + 1]) && ToSeed(items[i + 1]) == s;
      }
      if exists i :: 0 <= i < |items| && Eligible(items[i]) && ToSeed(items[i]) == s {
        var i :| 0 <= i < |items| && Eligible(items[i]) && ToSeed(items[i]) == s;
        if i > 0 {
          assert items[1..][i - 1] == items[i];
        }
      }
    }
  }

  /**
   * The loop that fills `seed_infos`: the seeds of the playlist cut to the
   * first 100, or None (the error page) when no item is eligible.
   */
  method ExtractSeeds(items: seq<PlaylistItem>) returns (r: Option<seq<SeedInfo>>)
    ensures r.None? <==> forall i :: 0 <= i < |items| ==> !Eligible(items[i])
    ensures r.Some? ==> r.value == SeedsOf(items)[..Min(MaxSeeds, |SeedsOf(items)|)]
    ensures r.Some? ==> 1 <= |r.value| <= MaxSeeds
  {
    var seedInfos: seq<SeedInfo> := [];
    var i := 0;
    while i < |items|
      invariant 0 <= i <= |items|
      invariant seedInfos == SeedsOf(items[..i])
    {
      SeedsOfAppend(items[..i], [items[i]]);
      assert items[..i + 1] == items[..i] + [items[i]];
      if Eligible(items[i]) {
        seedInfos := seedInfos + [ToSeed(items[i])];
      }
      i := i + 1;
    }
    assert items[..i] == items;
    if |seedInfos| == 0 {
      return None;
    }
    r := Some(seedInfos[..Min(MaxSeeds, |seedInfos|)]);
  }
}
