/** The API client (src/lib/spotify-api.ts) against a modelled service.

    One `Api` object is one authenticated session with one account. The
    account's data on the service is the fixed `library`; every request
    the service answers is appended to `log`, so a source session's log
    shows what was read and a destination session's log shows what was
    written. The service answers the first `expiresAfter` requests of the
    session and turns every later one away with the error `rejection`
    (an expired token, a 5xx, any non-2xx answer other than 429); `None`
    means it never does. */
module SpotifyApi {
  import opened Wrappers
  import opened Batching
  import opened SpotifyTypes

  /** The offset-paginated listings that getAllItems drains. */
  datatype Listing = UserPlaylists | PlaylistTracks(playlistId: Id) | SavedTracks | SavedAlbums

  /** The bulk-write endpoints: /playlists/{id}/tracks, /me/tracks,
      /me/following?type=artist and /me/albums. */
  datatype Endpoint = PlaylistItems(playlistId: Id) | MyTracks | MyFollowedArtists | MyAlbums

  /** The `after` cursor of the followed-artists listing, an opaque token
      that the service hands out; here, the position it resumes from. */
  type Cursor = nat

  datatype Request =
    | GetPage(listing: Listing, limit: nat, offset: nat)
    | GetArtistsPage(limit: nat, after: Option<Cursor>)
    | PostPlaylist(userId: Id, name: string, description: string, isPublic: bool)
    | Bulk(endpoint: Endpoint, ids: seq<Id>)
    | PutFollowUser(userId: Id)
  {
    predicate IsRead() {
      GetPage? || GetArtistsPage?
    }
  }

  datatype Page<T> = Page(items: seq<T>, total: nat)

  datatype ArtistsPage = ArtistsPage(items: seq<Artist>, total: nat, after: Option<Cursor>)

  /** getAllItems' default page size. */
  const DefaultLimit: nat := 50

  /** The service's largest batch per write: 100 track URIs for a
      playlist, 50 ids for the library endpoints. */
  function MaxBatch(e: Endpoint): (n: nat)
    ensures n == 100 || n == 50
  {
    if e.PlaylistItems? then 100 else 50
  }

  /** The page the service returns for `limit` items from `offset`. */
  function Window<T>(items: seq<T>, limit: nat, offset: nat): seq<T> {
    items[Min(offset, |items|)..Min(offset + limit, |items|)]
  }

  /** The followed-artists page for `after`; a cursor comes back only while
      items remain. */
  function ArtistsPageAt(artists: seq<Artist>, limit: nat, after: Option<Cursor>): ArtistsPage {
    var start := if after.None? then 0 else after.value;
    ArtistsPage(Window(artists, limit, start), |artists|,
                if start + limit < |artists| then Some(start + limit) else None)
  }

  /** One write request per batch, in batch order. */
  function Batches(e: Endpoint, chunks: seq<seq<Id>>): seq<Request> {
    seq(|chunks|, k requires 0 <= k < |chunks| => Bulk(e, chunks[k]))
  }

  /** The requests a bulk writer issues for `ids`. */
  function BulkRequests(e: Endpoint, ids: seq<Id>): seq<Request> {
    Batches(e, Chunks(ids, MaxBatch(e)))
  }

  /** followUsers' requests: one per user id. */
  function FollowRequests(userIds: seq<Id>): seq<Request> {
    seq(|userIds|, k requires 0 <= k < |userIds| => PutFollowUser(userIds[k]))
  }

  /** The ids carried by the bulk writes of `rs`, concatenated in order. */
  function SentIds(rs: seq<Request>): seq<Id> {
    if rs == [] then [] else (if rs[0].Bulk? then rs[0].ids else []) + SentIds(rs[1..])
  }

  /** The first `k` page requests getAllItems makes: offsets 0, limit,
      2 * limit, ... */
  function PageRequests(listing: Listing, limit: nat, k: nat): seq<Request> {
    seq(k, j requires 0 <= j < k => GetPage(listing, limit, j * limit))
  }

  /** The first `k` followed-artists page requests of a cursor drain: no
      cursor first, then the cursor each page handed back. */
  function CursorRequests(limit: nat, k: nat): seq<Request> {
    seq(k, j requires 0 <= j < k => GetArtistsPage(limit, if j == 0 then None else Some(j * limit)))
  }

  lemma MulMono(a: nat, b: nat, d: nat)
    ensures a <= b ==> a * d <= b * d
  {
    assert b * d - a * d == (b - a) * d;
  }

  /** How many pages getAllItems fetches from a listing of n items: the
      least k >= 1 with k * limit >= n. */
  function PageCount(n: nat, limit: nat): (k: nat)
    requires limit > 0
    ensures k >= 1 && n <= k * limit
    ensures k == 1 || (k - 1) * limit < n
    ensures n > 0 ==> k == CeilDiv(n, limit)
  {
    if n == 0 then 1
    else
      var q := CeilDiv(n, limit);
      var r := (n + limit - 1) % limit;
      assert n + limit - 1 == q * limit + r;
      assert q * limit == (q - 1) * limit + limit;
      q
  }

  /** k fetches cover the listing exactly when k is the page count. */
  lemma PageCountUnique(n: nat, limit: nat, k: nat)
    requires limit > 0 && k >= 1
    ensures (n <= k * limit && (k == 1 || (k - 1) * limit < n)) <==> k == PageCount(n, limit)
  {
    var c := PageCount(n, limit);
    if n <= k * limit && (k == 1 || (k - 1) * limit < n) {
      if k < c {
        MulMono(k, c - 1, limit);
      } else if k > c {
        MulMono(c, k - 1, limit);
      }
    }
  }

  class Api {
    const library: Library
    const expiresAfter: Option<nat>
    const rejection: string
    /** The id the service gives the playlist created by the request at
        position n of the log; how the service picks ids is not modelled. */
    const newPlaylistId: nat -> Id
    var log: seq<Request>

    constructor (library: Library, expiresAfter: Option<nat>, rejection: string, newPlaylistId: nat -> Id)
      ensures this.library == library && this.expiresAfter == expiresAfter
      ensures this.rejection == rejection && this.newPlaylistId == newPlaylistId && log == []
      ensures Valid()
    {
      this.library := library;
      this.expiresAfter := expiresAfter;
      this.rejection := rejection;
      this.newPlaylistId := newPlaylistId;
      log := [];
    }

    /** The log holds only answered requests, so it never outgrows the
      number the service answers. */
    ghost predicate Valid()
      reads this`log
    {
      expiresAfter.None? || |log| <= expiresAfter.value
    }

    /** The service never turns this session away. */
    predicate Healthy() {
      expiresAfter.None?
    }

    /** The service still answers the next k requests. */
    predicate CanAccept(k: nat)
      reads this`log
    {
      expiresAfter.None? || |log| + k <= expiresAfter.value
    }

    /** One HTTP round trip. */
    method Send(request: Request) returns (accepted: bool)
      requires Valid()
      modifies this
      ensures Valid()
      ensures accepted == old(CanAccept(1))
      ensures log == if accepted then old(log) + [request] else old(log)
    {
      accepted := CanAccept(1);
      if accepted {
        log := log + [request];
      }
    }

    /** The fetch function handed to getAllItems: one page of a listing
      whose content on the service is `items`. */
    method FetchPage<T>(listing: Listing, items: seq<T>, limit: nat, offset: nat) returns (r: Result<Page<T>>)
      requires Valid()
      modifies this
      ensures Valid()
      ensures r.Ok? == old(CanAccept(1))
      ensures r.Ok? ==> r.value == Page(Window(items, limit, offset), |items|)
      ensures r.Ok? ==> log == old(log) + [GetPage(listing, limit, offset)]
      ensures r.Err? ==> r.error == rejection && log == old(log)
    {
      var accepted := Send(GetPage(listing, limit, offset));
      if accepted {
        r := Ok(Page(Window(items, limit, offset), |items|));
      } else {
        r := Err(rejection);
      }
    }

    /** getFollowedArtists: one page of the cursor-paginated listing. */
    method GetFollowedArtists(limit: nat, after: Option<Cursor>) returns (r: Result<ArtistsPage>)
      requires Valid()
      modifies this
      ensures Valid()
      ensures r.Ok? == old(CanAccept(1))
      ensures r.Ok? ==> r.value == ArtistsPageAt(library.followedArtists, limit, after)
      ensures r.Ok? ==> log == old(log) + [GetArtistsPage(limit, after)]
      ensures r.Err? ==> r.error == rejection && log == old(log)
    {
      var accepted := Send(GetArtistsPage(limit, after));
      if accepted {
        r := Ok(ArtistsPageAt(library.followedArtists, limit, after));
      } else {
        r := Err(rejection);
      }
    }

    /** createPlaylist: a new playlist under `userId`; the result is the
      id the service gives it. */
    method CreatePlaylist(userId: Id, name: string, description: string, isPublic: bool) returns (r: Result<Id>)
      requires Valid()
      modifies this
      ensures Valid()
      ensures r.Ok? == old(CanAccept(1))
      ensures r.Ok? ==> r.value == newPlaylistId(|old(log)|)
      ensures r.Ok? ==> log == old(log) + [PostPlaylist(userId, name, description, isPublic)]
      ensures r.Err? ==> r.error == rejection && log == old(log)
    {
      var position := |log|;
      var accepted := Send(PostPlaylist(userId, name, description, isPublic));
      if accepted {
        r := Ok(newPlaylistId(position));
      } else {
        r := Err(rejection);
      }
    }

    /** The loop shared by the bulk writers: chunkArray, then one awaited
      request per batch, in order; the first failure stops it. */
    method SendInBatches(e: Endpoint, ids: seq<Id>) returns (r: Outcome)
      requires Valid()
      modifies this
      ensures Valid()
      ensures r.Pass? <==> old(CanAccept(|BulkRequests(e, ids)|))
      ensures r.Pass? ==> log == old(log) + BulkRequests(e, ids)
      ensures r.Fail? ==> r.error == rejection && |log| < |old(log) + BulkRequests(e, ids)|
      ensures IsPrefix(old(log), log) && IsPrefix(log, old(log) + BulkRequests(e, ids))
    {
      var chunks := ChunkArray(ids, MaxBatch(e));
      ghost var base := log;
      ghost var all := Batches(e, chunks);
      PrefixOfAppend(base, all);
      for i := 0 to |chunks|
        invariant log == base + Batches(e, chunks[..i])
        invariant old(CanAccept(i))
      {
        var accepted := Send(Bulk(e, chunks[i]));
        if !accepted {
          BatchesTake(e, chunks, i);
          StopsShort(base, all, i);
          return Fail(rejection);
        }
        BatchesSnoc(e, chunks, i);
        AppendAssoc(base, Batches(e, chunks[..i]), [Bulk(e, chunks[i])]);
      }
      assert chunks[..|chunks|] == chunks;
      return Pass;
    }

    /** addTracksToPlaylist: batches of at most 100 URIs. */
    method AddTracksToPlaylist(playlistId: Id, trackUris: seq<Id>) returns (r: Outcome)
      requires Valid()
      modifies this
      ensures Valid()
      ensures r.Pass? <==> old(CanAccept(|BulkRequests(PlaylistItems(playlistId), trackUris)|))
      ensures r.Pass? ==> log == old(log) + BulkRequests(PlaylistItems(playlistId), trackUris)
      ensures IsPrefix(old(log), log) && IsPrefix(log, old(log) + BulkRequests(PlaylistItems(playlistId), trackUris))
      ensures r.Fail? ==> r.error == rejection && |log| < |old(log) + BulkRequests(PlaylistItems(playlistId), trackUris)|
    {
      r := SendInBatches(PlaylistItems(playlistId), trackUris);
    }

    /** saveTracksForUser: batches of at most 50 track ids. */
    method SaveTracksForUser(trackIds: seq<Id>) returns (r: Outcome)
      requires Valid()
      modifies this
      ensures Valid()
      ensures r.Pass? <==> old(CanAccept(|BulkRequests(MyTracks, trackIds)|))
      ensures r.Pass? ==> log == old(log) + BulkRequests(MyTracks, trackIds)
      ensures IsPrefix(old(log), log) && IsPrefix(log, old(log) + BulkRequests(MyTracks, trackIds))
      ensures r.Fail? ==> r.error == rejection && |log| < |old(log) + BulkRequests(MyTracks, trackIds)|
    {
      r := SendInBatches(MyTracks, trackIds);
    }

    /** followArtists: batches of at most 50 artist ids. */
    method FollowArtists(artistIds: seq<Id>) returns (r: Outcome)
      requires Valid()
      modifies this
      ensures Valid()
      ensures r.Pass? <==> old(CanAccept(|BulkRequests(MyFollowedArtists, artistIds)|))
      ensures r.Pass? ==> log == old(log) + BulkRequests(MyFollowedArtists, artistIds)
      ensures IsPrefix(old(log), log) && IsPrefix(log, old(log) + BulkRequests(MyFollowedArtists, artistIds))
      ensures r.Fail? ==> r.error == rejection && |log| < |old(log) + BulkRequests(MyFollowedArtists, artistIds)|
    {
      r := SendInBatches(MyFollowedArtists, artistIds);
    }

    /** saveAlbumsForUser: batches of at most 50 album ids. */
    method SaveAlbumsForUser(albumIds: seq<Id>) returns (r: Outcome)
      requires Valid()
      modifies this
      ensures Valid()
      ensures r.Pass? <==> old(CanAccept(|BulkRequests(MyAlbums, albumIds)|))
      ensures r.Pass? ==> log == old(log) + BulkRequests(MyAlbums, albumIds)
      ensures IsPrefix(old(log), log) && IsPrefix(log, old(log) + BulkRequests(MyAlbums, albumIds))
      ensures r.Fail? ==> r.error == rejection && |log| < |old(log) + BulkRequests(MyAlbums, albumIds)|
    {
      r := SendInBatches(MyAlbums, albumIds);
    }

    /** followUsers: one request per user id, in order. */
    method FollowUsers(userIds: seq<Id>) returns (r: Outcome)
      requires Valid()
      modifies this
      ensures Valid()
      ensures r.Pass? <==> old(CanAccept(|userIds|))
      ensures r.Pass? ==> log == old(log) + FollowRequests(userIds)
      ensures IsPrefix(old(log), log) && IsPrefix(log, old(log) + FollowRequests(userIds))
      ensures r.Fail? ==> r.error == rejection && |log| < |old(log)| + |userIds|
    {
      for i := 0 to |userIds|
        invariant log == old(log) + FollowRequests(userIds[..i])
        invariant old(CanAccept(i))
      {
        var accepted := Send(PutFollowUser(userIds[i]));
        if !accepted {
          assert FollowRequests(userIds)[..i] == FollowRequests(userIds[..i]);
          return Fail(rejection);
        }
        assert FollowRequests(userIds[..i + 1]) == FollowRequests(userIds[..i]) + [PutFollowUser(userIds[i])];
      }
      assert userIds[..|userIds|] == userIds;
      return Pass;
    }

    /** getAllItems: fetch pages at offsets 0, limit, 2 * limit, ...
      until the items collected reach the `total` the last page reported;
      a failed fetch fails the whole drain. The listing's contents `items`
      are passed in: the caller passes the matching field of `library`
      (the playlists, a playlist's tracks, the saved tracks or the saved
      albums), and nothing here ties the two together. */
    method GetAllItems<T>(listing: Listing, items: seq<T>, limit: nat) returns (r: Result<seq<T>>)
      requires limit > 0
      requires Valid()
      modifies this
      ensures Valid()
      ensures r.Ok? <==> old(CanAccept(PageCount(|items|, limit)))
      ensures r.Ok? ==> r.value == items
      ensures r.Ok? ==> log == old(log) + PageRequests(listing, limit, PageCount(|items|, limit))
      ensures r.Err? ==> r.error == rejection
      ensures IsPrefix(old(log), log)
      ensures IsPrefix(log, old(log) + PageRequests(listing, limit, PageCount(|items|, limit)))
    {
      var allItems: seq<T> := [];
      var offset := 0;
      var total := 0;
      ghost var fetched := 0;
      ghost var count := PageCount(|items|, limit);
      while true
        invariant offset == fetched * limit
        invariant fetched == 0 || offset < |items|
        invariant fetched < count
        invariant allItems == items[..offset]
        invariant log == old(log) + PageRequests(listing, limit, fetched)
        invariant old(CanAccept(fetched))
        decreases |items| - offset
      {
        var page := FetchPage(listing, items, limit, offset);
        if page.Err? {
          assert PageRequests(listing, limit, count)[..fetched] == PageRequests(listing, limit, fetched);
          return Err(page.error);
        }
        assert PageRequests(listing, limit, fetched + 1)
            == PageRequests(listing, limit, fetched) + [GetPage(listing, limit, offset)];
        allItems := allItems + page.value.items;
        total := page.value.total;
        offset := offset + limit;
        fetched := fetched + 1;
        assert offset == fetched * limit;
        assert allItems == items[..Min(offset, |items|)] && total == |items|;
        if |allItems| < total {
          assert allItems == items[..offset];
          PageCountUnique(|items|, limit, fetched);
          MulMono(count, fetched, limit);
        } else {
          assert allItems == items;
          PageCountUnique(|items|, limit, fetched);
          break;
        }
      }
      return Ok(allItems);
    }
  }

  lemma BatchesAppend(e: Endpoint, a: seq<seq<Id>>, b: seq<seq<Id>>)
    ensures Batches(e, a + b) == Batches(e, a) + Batches(e, b)
  {
  }

  lemma BatchesTake(e: Endpoint, cs: seq<seq<Id>>, i: nat)
    requires i <= |cs|
    ensures Batches(e, cs)[..i] == Batches(e, cs[..i])
  {
  }

  lemma BatchesSnoc(e: Endpoint, cs: seq<seq<Id>>, i: nat)
    requires i < |cs|
    ensures Batches(e, cs[..i + 1]) == Batches(e, cs[..i]) + [Bulk(e, cs[i])]
  {
  }

  lemma BatchesPrefix(e: Endpoint, a: seq<seq<Id>>, b: seq<seq<Id>>)
    requires IsPrefix(a, b)
    ensures IsPrefix(Batches(e, a), Batches(e, b))
  {
  }

  /** Each bulk writer covers every id exactly once, in order, in
      ⌈|ids| / max⌉ requests of 1 to `max` ids each, all to its endpoint. */
  lemma BulkRequestsCover(e: Endpoint, ids: seq<Id>)
    ensures SentIds(BulkRequests(e, ids)) == ids
    ensures |BulkRequests(e, ids)| == CeilDiv(|ids|, MaxBatch(e))
    ensures forall k :: 0 <= k < |BulkRequests(e, ids)| ==>
      BulkRequests(e, ids)[k].Bulk? && BulkRequests(e, ids)[k].endpoint == e &&
      0 < |BulkRequests(e, ids)[k].ids| <= MaxBatch(e)
  {
    var cs := Chunks(ids, MaxBatch(e));
    SentIdsOfBatches(e, cs);
    FlattenChunks(ids, MaxBatch(e));
    ChunkCount(ids, MaxBatch(e));
    ChunkSizes(ids, MaxBatch(e));
  }

  lemma {:induction false} SentIdsOfBatches(e: Endpoint, cs: seq<seq<Id>>)
    ensures SentIds(Batches(e, cs)) == Flatten(cs)
    decreases |cs|
  {
    if cs != [] {
      assert Batches(e, cs)[1..] == Batches(e, cs[1..]);
      SentIdsOfBatches(e, cs[1..]);
    }
  }

  /** No batch is sent for an empty list. */
  lemma NoRequestsForNoIds(e: Endpoint)
    ensures BulkRequests(e, []) == []
  {
  }

  /** A list no longer than the endpoint's limit goes out as one request. */
  lemma OneBatch(e: Endpoint, ids: seq<Id>)
    requires 0 < |ids| <= MaxBatch(e)
    ensures BulkRequests(e, ids) == [Bulk(e, ids)]
  {
  }
}
