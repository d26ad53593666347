/** What each category's transfer strategy writes to the destination
    (src/app/transfer/page.tsx): the projections and filters the strategies
    apply to the source listings, and the destination requests that a run
    issues when nothing fails. The strategies in module Transfer are proved
    to issue exactly these requests, or a prefix of them when a request
    fails. */
module TransferPlan {
  import opened Wrappers
  import opened Batching
  import opened SpotifyTypes
  import opened SpotifyApi

  const PlaylistsCategory: string := "playlists"
  const LikedSongsCategory: string := "likedSongs"
  const FollowedArtistsCategory: string := "followedArtists"
  const SavedAlbumsCategory: string := "savedAlbums"

  /** The batch size of the strategies' own loops. */
  const ChunkSize: nat := 50

  /** `.filter(Boolean)` over possibly-null strings: drops null and "". */
  function Truthy(xs: seq<Option<Id>>): (r: seq<Id>)
    ensures |r| <= |xs|
    decreases |xs|
  {
    if xs == [] then []
    else
      var rest := Truthy(xs[1..]);
      if xs[0].Some? && xs[0].value != "" then [xs[0].value] + rest else rest
  }

  /** The filter keeps exactly the present, non-empty strings. */
  lemma {:induction false} TruthyKeeps(xs: seq<Option<Id>>)
    ensures forall k :: 0 <= k < |Truthy(xs)| ==> Truthy(xs)[k] != ""
    ensures forall x :: x in Truthy(xs) <==> x != "" && Some(x) in xs
    decreases |xs|
  {
    if xs != [] {
      TruthyKeeps(xs[1..]);
      assert forall o :: o in xs <==> o == xs[0] || o in xs[1..];
    }
  }

  /** The filter works element by element: filtering a concatenation
      concatenates the filtered parts, so the kept strings stay in order
      and repeated ones stay repeated. */
  lemma {:induction false} TruthyAppend(xs: seq<Option<Id>>, ys: seq<Option<Id>>)
    ensures Truthy(xs + ys) == Truthy(xs) + Truthy(ys)
    decreases |xs|
  {
    if xs == [] {
      assert xs + ys == ys;
    } else {
      assert (xs + ys)[1..] == xs[1..] + ys;
      TruthyAppend(xs[1..], ys);
    }
  }

  function TrackUris(tracks: seq<SavedTrack>): seq<Id> {
    Truthy(seq(|tracks|, i requires 0 <= i < |tracks| => tracks[i].uri))
  }

  function TrackIds(tracks: seq<SavedTrack>): seq<Id> {
    Truthy(seq(|tracks|, i requires 0 <= i < |tracks| => tracks[i].id))
  }

  function AlbumIds(albums: seq<SavedAlbum>): seq<Id> {
    Truthy(seq(|albums|, i requires 0 <= i < |albums| => albums[i].albumId))
  }

  /** `artists.map(artist => artist.id)`: no filter here. */
  function ArtistIds(artists: seq<Artist>): seq<Id> {
    seq(|artists|, i requires 0 <= i < |artists| => artists[i].id)
  }

  /** The ownership filter: the playlists whose owner is the signed-in
      source user (`owner.id === sourceAccount.user?.id`), in listing order;
      none when no source user is known. */
  function Owned(playlists: seq<Playlist>, userId: Option<Id>): (r: seq<Playlist>)
    ensures |r| <= |playlists|
    decreases |playlists|
  {
    if playlists == [] then []
    else
      var rest := Owned(playlists[1..], userId);
      if Some(playlists[0].ownerId) == userId then [playlists[0]] + rest else rest
  }

  /** The filter keeps exactly the listed playlists owned by `userId`,
      and none at all when no user is known. */
  lemma {:induction false} OwnedKeeps(playlists: seq<Playlist>, userId: Option<Id>)
    ensures forall p :: p in Owned(playlists, userId) <==> p in playlists && Some(p.ownerId) == userId
    ensures userId.None? ==> Owned(playlists, userId) == []
    decreases |playlists|
  {
    if playlists != [] {
      OwnedKeeps(playlists[1..], userId);
      assert forall p :: p in playlists <==> p == playlists[0] || p in playlists[1..];
    }
  }

  /** The ownership filter works playlist by playlist, so it keeps the
      listing order and every repeated entry. */
  lemma {:induction false} OwnedAppend(ps: seq<Playlist>, qs: seq<Playlist>, userId: Option<Id>)
    ensures Owned(ps + qs, userId) == Owned(ps, userId) + Owned(qs, userId)
    decreases |ps|
  {
    if ps == [] {
      assert ps + qs == qs;
    } else {
      assert (ps + qs)[1..] == ps[1..] + qs;
      OwnedAppend(ps[1..], qs, userId);
    }
  }

  /** Copying one playlist: create it under the destination user, then add
      its track URIs in batches of 100 to the id the service returned
      (nothing when no URI is left). */
  function PlaylistCopy(p: Playlist, uris: seq<Id>, destUserId: Id, newId: Id): seq<Request> {
    [PostPlaylist(destUserId, p.name, p.description, p.isPublic)]
      + BulkRequests(PlaylistItems(newId), uris)
  }

  /** The playlist strategy's writes for `owned`, one copy after another,
      starting at position `at` of the destination log; `ids` gives the id
      of the playlist created at each position. */
  function PlaylistsWrites(owned: seq<Playlist>, library: Library, destUserId: Id, ids: nat -> Id, at: nat): seq<Request>
    decreases |owned|
  {
    if owned == [] then []
    else
      var pre := PlaylistsWrites(owned[..|owned| - 1], library, destUserId, ids, at);
      var p := owned[|owned| - 1];
      pre + PlaylistCopy(p, TrackUris(library.TracksOf(p.id)), destUserId, ids(at + |pre|))
  }

  /** What transferCategory writes for one category name; nothing for a
      name no strategy handles. */
  function CategoryWrites(category: string, library: Library, sourceUserId: Option<Id>, destUserId: Id, ids: nat -> Id, at: nat): seq<Request> {
    if category == PlaylistsCategory then
      PlaylistsWrites(Owned(library.playlists, sourceUserId), library, destUserId, ids, at)
    else if category == LikedSongsCategory then
      Batches(MyTracks, Chunks(TrackIds(library.likedSongs), ChunkSize))
    else if category == FollowedArtistsCategory then
      Batches(MyFollowedArtists, Chunks(ArtistIds(library.followedArtists), ChunkSize))
    else if category == SavedAlbumsCategory then
      Batches(MyAlbums, Chunks(AlbumIds(library.savedAlbums), ChunkSize))
    else []
  }

  /** A category no strategy handles, such as "followedUsers", writes
      nothing; transferCategory still marks it completed. */
  lemma UnhandledCategoryWritesNothing(category: string, library: Library, sourceUserId: Option<Id>, destUserId: Id, ids: nat -> Id, at: nat)
    requires category !in {PlaylistsCategory, LikedSongsCategory, FollowedArtistsCategory, SavedAlbumsCategory}
    ensures CategoryWrites(category, library, sourceUserId, destUserId, ids, at) == []
  {
  }

  /** The writes of `steps` run one after another, each step's writes
      starting where the previous step's stopped. */
  function Sequenced(steps: seq<string>, plan: (string, nat) -> seq<Request>, at: nat): seq<Request>
    decreases |steps|
  {
    if steps == [] then []
    else
      var pre := Sequenced(steps[..|steps| - 1], plan, at);
      pre + plan(steps[|steps| - 1], at + |pre|)
  }

  /** Each category's writes, starting at a given position of the log. */
  function CategoryPlan(library: Library, sourceUserId: Option<Id>, destUserId: Id, ids: nat -> Id): (string, nat) -> seq<Request> {
    (c: string, n: nat) => CategoryWrites(c, library, sourceUserId, destUserId, ids, n)
  }

  /** A whole run's writes: the categories' writes one after another. */
  function RunWrites(categories: seq<string>, library: Library, sourceUserId: Option<Id>, destUserId: Id, ids: nat -> Id, at: nat): seq<Request> {
    Sequenced(categories, CategoryPlan(library, sourceUserId, destUserId, ids), at)
  }

  /** The writes for the first i playlists are a prefix of the writes for
      all of them. */
  lemma {:induction false} PlaylistsWritesPrefix(owned: seq<Playlist>, library: Library, destUserId: Id, ids: nat -> Id, at: nat, i: nat)
    requires i <= |owned|
    ensures IsPrefix(PlaylistsWrites(owned[..i], library, destUserId, ids, at), PlaylistsWrites(owned, library, destUserId, ids, at))
    decreases |owned| - i
  {
    if i < |owned| {
      PlaylistsWritesPrefix(owned, library, destUserId, ids, at, i + 1);
      var shorter := owned[..i];
      var longer := owned[..i + 1];
      assert longer[..|longer| - 1] == shorter;
      var pre := PlaylistsWrites(shorter, library, destUserId, ids, at);
      var next := PlaylistsWrites(longer, library, destUserId, ids, at);
      assert IsPrefix(pre, next);
      PrefixTrans(pre, next, PlaylistsWrites(owned, library, destUserId, ids, at));
    } else {
      assert owned[..i] == owned;
    }
  }

  /** The writes for the first k + 1 steps are those for the first k
      followed by step k's, numbered on from where they stopped. */
  lemma SequencedSnoc(steps: seq<string>, plan: (string, nat) -> seq<Request>, at: nat, k: nat)
    requires k < |steps|
    ensures var pre := Sequenced(steps[..k], plan, at);
      Sequenced(steps[..k + 1], plan, at) == pre + plan(steps[k], at + |pre|)
  {
    var longer := steps[..k + 1];
    assert longer[..|longer| - 1] == steps[..k];
  }

  /** The writes for the first i steps are a prefix of the writes for all. */
  lemma {:induction false} SequencedPrefix(steps: seq<string>, plan: (string, nat) -> seq<Request>, at: nat, i: nat)
    requires i <= |steps|
    ensures IsPrefix(Sequenced(steps[..i], plan, at), Sequenced(steps, plan, at))
    decreases |steps| - i
  {
    if i < |steps| {
      SequencedPrefix(steps, plan, at, i + 1);
      SequencedSnoc(steps, plan, at, i);
      var pre := Sequenced(steps[..i], plan, at);
      var next := Sequenced(steps[..i + 1], plan, at);
      PrefixOfAppend(pre, plan(steps[i], at + |pre|));
      PrefixTrans(pre, next, Sequenced(steps, plan, at));
    } else {
      assert steps[..i] == steps;
    }
  }

  /** The writes for the first k + 1 categories are those for the first k
      followed by category k's, numbered on from where they stopped. */
  lemma RunWritesSnoc(categories: seq<string>, library: Library, sourceUserId: Option<Id>, destUserId: Id,
                      ids: nat -> Id, at: nat, k: nat, pre: seq<Request>, next: nat)
    requires k < |categories|
    requires pre == RunWrites(categories[..k], library, sourceUserId, destUserId, ids, at) && next == at + |pre|
    ensures RunWrites(categories[..k + 1], library, sourceUserId, destUserId, ids, at)
         == pre + CategoryWrites(categories[k], library, sourceUserId, destUserId, ids, next)
  {
    SequencedSnoc(categories, CategoryPlan(library, sourceUserId, destUserId, ids), at, k);
    PlanApplies(library, sourceUserId, destUserId, ids, categories[k], next);
  }

  lemma PlanApplies(library: Library, sourceUserId: Option<Id>, destUserId: Id, ids: nat -> Id, category: string, at: nat)
    ensures CategoryPlan(library, sourceUserId, destUserId, ids)(category, at)
         == CategoryWrites(category, library, sourceUserId, destUserId, ids, at)
  {
  }

  /** The writes for the first i categories are a prefix of the run's. */
  lemma RunWritesPrefix(categories: seq<string>, library: Library, sourceUserId: Option<Id>, destUserId: Id, ids: nat -> Id, at: nat, i: nat)
    requires i <= |categories|
    ensures IsPrefix(RunWrites(categories[..i], library, sourceUserId, destUserId, ids, at),
                     RunWrites(categories, library, sourceUserId, destUserId, ids, at))
  {
    SequencedPrefix(categories, CategoryPlan(library, sourceUserId, destUserId, ids), at, i);
  }

  /** The playlist-creation requests among rs, in order. */
  function Creations(rs: seq<Request>): seq<Request>
    decreases |rs|
  {
    if rs == [] then [] else (if rs[0].PostPlaylist? then [rs[0]] else []) + Creations(rs[1..])
  }

  lemma {:induction false} CreationsAppend(a: seq<Request>, b: seq<Request>)
    ensures Creations(a + b) == Creations(a) + Creations(b)
    decreases |a|
  {
    if a == [] {
      assert a + b == b;
    } else {
      assert (a + b)[0] == a[0] && (a + b)[1..] == a[1..] + b;
      CreationsAppend(a[1..], b);
    }
  }

  lemma {:induction false} NoCreationsInBatches(e: Endpoint, cs: seq<seq<Id>>)
    ensures Creations(Batches(e, cs)) == []
    decreases |cs|
  {
    if cs != [] {
      assert Batches(e, cs)[1..] == Batches(e, cs[1..]);
      NoCreationsInBatches(e, cs[1..]);
    }
  }

  /** The creation requests for `owned` under the destination user, one per
      playlist, in order, with the same name, description and public flag. */
  function NewPlaylists(owned: seq<Playlist>, destUserId: Id): seq<Request> {
    seq(|owned|, i requires 0 <= i < |owned| =>
        PostPlaylist(destUserId, owned[i].name, owned[i].description, owned[i].isPublic))
  }

  lemma NewPlaylistsSnoc(owned: seq<Playlist>, destUserId: Id)
    requires owned != []
    ensures NewPlaylists(owned, destUserId)
         == NewPlaylists(owned[..|owned| - 1], destUserId)
          + [PostPlaylist(destUserId, owned[|owned| - 1].name, owned[|owned| - 1].description, owned[|owned| - 1].isPublic)]
  {
  }

  /** The playlist strategy creates exactly one destination playlist per
      owned source playlist, in order, under the destination user, with the
      same name, description and public flag. */
  lemma {:induction false} OneCreationPerPlaylist(owned: seq<Playlist>, library: Library, destUserId: Id, ids: nat -> Id, at: nat)
    ensures Creations(PlaylistsWrites(owned, library, destUserId, ids, at)) == NewPlaylists(owned, destUserId)
    decreases |owned|
  {
    if owned != [] {
      var init := owned[..|owned| - 1];
      var p := owned[|owned| - 1];
      var pre := PlaylistsWrites(init, library, destUserId, ids, at);
      var next := at + |pre|;
      var copy := PlaylistCopy(p, TrackUris(library.TracksOf(p.id)), destUserId, ids(next));
      assert PlaylistsWrites(owned, library, destUserId, ids, at) == pre + copy;
      OneCreationPerPlaylist(init, library, destUserId, ids, at);
      CopyCreations(p, TrackUris(library.TracksOf(p.id)), destUserId, ids(next));
      CreationsAppend(pre, copy);
      NewPlaylistsSnoc(owned, destUserId);
    }
  }

  /** Copying one playlist creates exactly one playlist. */
  lemma CopyCreations(p: Playlist, uris: seq<Id>, destUserId: Id, newId: Id)
    ensures Creations(PlaylistCopy(p, uris, destUserId, newId))
         == [PostPlaylist(destUserId, p.name, p.description, p.isPublic)]
  {
    var e := PlaylistItems(newId);
    CreationsAppend([PostPlaylist(destUserId, p.name, p.description, p.isPublic)], BulkRequests(e, uris));
    NoCreationsInBatches(e, Chunks(uris, 100));
  }

  /** 120 liked songs go out as three batches of 50, 50 and 20 ids. */
  lemma LikedSongsInThreeBatches(ids: seq<Id>)
    requires |ids| == 120
    ensures var w := Batches(MyTracks, Chunks(ids, ChunkSize));
      |w| == 3 && w[0].ids == ids[..50] && w[1].ids == ids[50..100] && w[2].ids == ids[100..]
  {
    assert ids[50..][..50] == ids[50..100];
    assert ids[50..][50..] == ids[100..];
    assert Chunks(ids[100..], ChunkSize) == [ids[100..]];
  }
}
