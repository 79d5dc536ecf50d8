/** Saved-track records returned by the Web API and their ordering by date added (newest first). */
module Library {

  /** The fields of a track that the core reads. */
  datatype Track = Track(name: string, artists: seq<string>, albumName: string, durationMs: nat)

  /** One saved entry: `added_at` as sent by the API, its instant `new Date(added_at)` in milliseconds, and the track. */
  datatype SavedTrack = SavedTrack(addedAt: string, addedTime: int, track: Track)

  /** Newest first: every entry was added no earlier than every entry after it. */
  ghost predicate NewestFirst(s: seq<SavedTrack>) {
    forall i, j :: 0 <= i < j < |s| ==> s[i].addedTime >= s[j].addedTime
  }

  /** The entries added at instant `t`, in their order of appearance. */
  function AddedAt(s: seq<SavedTrack>, t: int): seq<SavedTrack> {
    if s == [] then []
    else if s[0].addedTime == t then [s[0]] + AddedAt(s[1..], t)
    else AddedAt(s[1..], t)
  }

  /** Places `x` after the entries strictly newer than it and before all others. */
  function Insert(x: SavedTrack, s: seq<SavedTrack>): seq<SavedTrack> {
    if s == [] || s[0].addedTime <= x.addedTime then [x] + s else [s[0]] + Insert(x, s[1..])
  }

  /** `items.sort((a, b) => new Date(b.added_at) - new Date(a.added_at))`: the stable sort by date added, newest first. */
  function SortNewestFirst(s: seq<SavedTrack>): seq<SavedTrack> {
    if s == [] then [] else Insert(s[0], SortNewestFirst(s[1..]))
  }

  lemma {:induction false} InsertPermutes(x: SavedTrack, s: seq<SavedTrack>)
    ensures multiset(Insert(x, s)) == multiset([x] + s)
  {
    if s != [] && s[0].addedTime > x.addedTime {
      InsertPermutes(x, s[1..]);
      assert s == [s[0]] + s[1..];
    }
  }

  lemma {:induction false} InsertNewestFirst(x: SavedTrack, s: seq<SavedTrack>)
    requires NewestFirst(s)
    ensures NewestFirst(Insert(x, s))
  {
    if s != [] && s[0].addedTime > x.addedTime {
      InsertNewestFirst(x, s[1..]);
      InsertPermutes(x, s[1..]);
      var r := Insert(x, s[1..]);
      forall k | 0 <= k < |r| ensures s[0].addedTime >= r[k].addedTime {
        assert r[k] in multiset(r);
        assert r[k] in multiset([x] + s[1..]);
        assert r[k] == x || r[k] in s[1..];
      }
    }
  }

  lemma {:induction false} InsertAddedAt(x: SavedTrack, s: seq<SavedTrack>, t: int)
    requires NewestFirst(s)
    ensures AddedAt(Insert(x, s), t) == if x.addedTime == t then [x] + AddedAt(s, t) else AddedAt(s, t)
  {
    if s == [] || s[0].addedTime <= x.addedTime {
      assert Insert(x, s)[1..] == s;
    } else {
      assert Insert(x, s)[1..] == Insert(x, s[1..]);
      InsertAddedAt(x, s[1..], t);
      if x.addedTime == t {
        assert s[0].addedTime != t;
      }
    }
  }

  /** The sorted sequence holds exactly the same entries. */
  lemma {:induction false} SortPermutes(s: seq<SavedTrack>)
    ensures multiset(SortNewestFirst(s)) == multiset(s)
  {
    if s != [] {
      SortPermutes(s[1..]);
      InsertPermutes(s[0], SortNewestFirst(s[1..]));
      assert s == [s[0]] + s[1..];
    }
  }

  /** The sorted sequence is newest first. */
  lemma {:induction false} SortIsNewestFirst(s: seq<SavedTrack>)
    ensures NewestFirst(SortNewestFirst(s))
  {
    if s != [] {
      SortIsNewestFirst(s[1..]);
      InsertNewestFirst(s[0], SortNewestFirst(s[1..]));
    }
  }

  /** Stability: entries added at the same instant keep their original relative order. */
  lemma {:induction false} SortIsStable(s: seq<SavedTrack>, t: int)
    ensures AddedAt(SortNewestFirst(s), t) == AddedAt(s, t)
  {
    if s != [] {
      SortIsStable(s[1..], t);
      SortIsNewestFirst(s[1..]);
      InsertAddedAt(s[0], SortNewestFirst(s[1..]), t);
    }
  }

  lemma {:induction false} SortLength(s: seq<SavedTrack>)
    ensures |SortNewestFirst(s)| == |s|
  {
    SortPermutes(s);
    assert |multiset(SortNewestFirst(s))| == |multiset(s)|;
  }
}
