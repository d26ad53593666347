/** The transfer page (src/app/transfer/page.tsx): startTransfer runs the
    selected categories one after another against a source and a
    destination session, keeping a progress ledger row per category. The
    ledger's successive values are recorded in `snapshots`, so that what
    the page shows can be stated over the whole run: no row's status ever
    goes back, and no row's count exceeds its total. */
module Transfer {
  import opened Wrappers
  import opened Batching
  import opened SpotifyTypes
  import opened SpotifyApi
  import opened Progress
  import opened TransferPlan
  import opened AuthStore

  /** The message of the TypeError raised by `destinationAccount.user!.id`
      when no destination user is known. */
  const NullUserMessage: string := "Cannot read properties of null (reading 'id')"

  /** The source session only ever reads: `after` extends `before` by read
      requests alone. */
  ghost predicate OnlyReads(before: seq<Request>, after: seq<Request>) {
    IsPrefix(before, after) && forall k :: |before| <= k < |after| ==> after[k].IsRead()
  }

  lemma OnlyReadsTrans(a: seq<Request>, b: seq<Request>, c: seq<Request>)
    requires OnlyReads(a, b) && OnlyReads(b, c)
    ensures OnlyReads(a, c)
  {
    PrefixTrans(a, b, c);
    forall k | |a| <= k < |c|
      ensures c[k].IsRead()
    {
      if k < |b| {
        assert c[k] == c[..|b|][k] == b[k];
      }
    }
  }

  /** A paginated fetch, finished or cut short, only reads. */
  lemma PagesOnlyRead(before: seq<Request>, after: seq<Request>, listing: Listing, limit: nat, count: nat)
    requires IsPrefix(before, after) && IsPrefix(after, before + PageRequests(listing, limit, count))
    ensures OnlyReads(before, after)
  {
    forall k | |before| <= k < |after|
      ensures after[k].IsRead()
    {
      assert after[k] == (before + PageRequests(listing, limit, count))[k];
    }
  }

  /** Every row of `category` is still pending with nothing counted: the
      state startTransfer leaves a row in until its turn comes. */
  predicate Untouched(p: seq<TransferProgress>, category: string) {
    forall i :: 0 <= i < |p| && p[i].category == category ==> p[i].status == Pending && p[i].current == 0
  }

  /** The ledgers h[o..] show the count of `category` rising by `step` per
      ledger, capped at n: h[o + j] shows min((j + 1) * step, n) of
      `total`. */
  ghost predicate CountsRise(h: seq<seq<TransferProgress>>, o: nat, category: string, step: nat, n: nat, total: nat) {
    forall j :: o <= j < |h| ==> HasCounts(h[j], category, Min((j - o + 1) * step, n), total)
  }

  lemma CountsRiseSnoc(h: seq<seq<TransferProgress>>, o: nat, category: string, step: nat, n: nat, total: nat,
                       p: seq<TransferProgress>)
    requires o <= |h| && CountsRise(h, o, category, step, n, total)
    requires HasCounts(p, category, Min((|h| - o + 1) * step, n), total)
    ensures CountsRise(h + [p], o, category, step, n, total)
  {
  }

  /** Appending the ledger after an update that moves no status backwards,
      lowers no count and leaves every touched row within its total keeps
      the history steady. */
  lemma UpdateStep(h: seq<seq<TransferProgress>>, from: nat, p: seq<TransferProgress>, category: string, u: Update)
    requires from < |h| && Steady(h, from) && h[|h| - 1] == p && Bounded(p)
    requires u.status.Some? ==> forall i :: 0 <= i < |p| && p[i].category == category ==>
      Precedes(p[i].status, u.status.value)
    requires u.current.Some? ==> forall i :: 0 <= i < |p| && p[i].category == category ==>
      p[i].current <= u.current.value
    requires forall i :: 0 <= i < |p| && p[i].category == category ==> Merge(p[i], u).current <= Merge(p[i], u).total
    ensures Bounded(Updated(p, category, u))
    ensures Steady(h + [Updated(p, category, u)], from)
  {
    UpdatedAt(p, category, u);
    UpdatedAdvances(p, category, u);
    SteadySnoc(h, from, Updated(p, category, u));
  }

  /** An update of counts alone touches only the counts of its category. */
  lemma CountsStep(p: seq<TransferProgress>, q: seq<TransferProgress>, category: string, u: Update)
    requires CountsOnly(p, q, category)
    requires u.status.None? && u.error.None?
    ensures CountsOnly(p, Updated(q, category, u), category)
  {
    UpdatedAt(q, category, u);
  }

  lemma CountsOnlyTrans(a: seq<TransferProgress>, b: seq<TransferProgress>, c: seq<TransferProgress>, category: string)
    requires CountsOnly(a, b, category) && CountsOnly(b, c, category)
    ensures CountsOnly(a, c, category)
  {
  }

  /** One batch of at most 50 ids to the writer of endpoint `e`:
      saveTracksForUser, followArtists or saveAlbumsForUser. */
  method WriteChunk(e: Endpoint, chunk: seq<Id>, dest: Api) returns (r: Outcome)
    requires e == MyTracks || e == MyFollowedArtists || e == MyAlbums
    requires 0 < |chunk| <= ChunkSize && dest.Valid()
    modifies dest
    ensures dest.Valid()
    ensures r.Pass? <==> old(dest.CanAccept(1))
    ensures r.Pass? ==> dest.log == old(dest.log) + [Bulk(e, chunk)]
    ensures r.Fail? ==> r.error == dest.rejection && dest.log == old(dest.log)
    ensures IsPrefix(old(dest.log), dest.log) && IsPrefix(dest.log, old(dest.log) + [Bulk(e, chunk)])
  {
    OneBatch(e, chunk);
    if e == MyTracks {
      r := dest.SaveTracksForUser(chunk);
    } else if e == MyFollowedArtists {
      r := dest.FollowArtists(chunk);
    } else {
      r := dest.SaveAlbumsForUser(chunk);
    }
  }

  /** A batch loop cut short after its write for `ids[..next]` failed has
      still written a prefix of what it would have written. */
  lemma ChunkLoopPrefix(e: Endpoint, ids: seq<Id>, next: nat, base: seq<Request>, log: seq<Request>)
    requires next <= |ids| && (MultipleOf(next, ChunkSize) || next == |ids|)
    requires IsPrefix(log, base + Batches(e, Chunks(ids[..next], ChunkSize)))
    ensures IsPrefix(log, base + Batches(e, Chunks(ids, ChunkSize)))
  {
    ChunksPrefix(ids, next, ChunkSize);
    BatchesPrefix(e, Chunks(ids[..next], ChunkSize), Chunks(ids, ChunkSize));
    PrefixAppend(base, Batches(e, Chunks(ids[..next], ChunkSize)), Batches(e, Chunks(ids, ChunkSize)));
    PrefixTrans(log, base + Batches(e, Chunks(ids[..next], ChunkSize)), base + Batches(e, Chunks(ids, ChunkSize)));
  }

  /** The batch loop's log after one more successful write. */
  lemma ChunkLoopStep(e: Endpoint, ids: seq<Id>, i: nat, base: seq<Request>)
    requires MultipleOf(i, ChunkSize) && i < |ids|
    ensures base + Batches(e, Chunks(ids[..i], ChunkSize)) + [Bulk(e, ids[i..Min(i + ChunkSize, |ids|)])]
         == base + Batches(e, Chunks(ids[..Min(i + ChunkSize, |ids|)], ChunkSize))
  {
    ChunksStep(ids, i, ChunkSize);
    BatchesAppend(e, Chunks(ids[..i], ChunkSize), [ids[i..Min(i + ChunkSize, |ids|)]]);
  }

  /** One more round of the playlist loop: what it wrote extends the
      rounds before it, and stays within the whole loop's writes. */
  lemma PlaylistsStep(owned: seq<Playlist>, library: Library, destId: Id, ids: nat -> Id, base: seq<Request>, at: nat, i: nat,
                      mid: seq<Request>, after: seq<Request>)
    requires i < |owned| && at == |base|
    requires mid == base + PlaylistsWrites(owned[..i], library, destId, ids, at)
    requires IsPrefix(after, mid + PlaylistCopy(owned[i], TrackUris(library.TracksOf(owned[i].id)), destId, ids(|mid|)))
    ensures IsPrefix(after, base + PlaylistsWrites(owned, library, destId, ids, at))
    ensures IsPrefix(after, base + PlaylistsWrites(owned[..i + 1], library, destId, ids, at))
    ensures after == mid + PlaylistCopy(owned[i], TrackUris(library.TracksOf(owned[i].id)), destId, ids(|mid|)) ==>
      after == base + PlaylistsWrites(owned[..i + 1], library, destId, ids, at)
  {
    var pre := PlaylistsWrites(owned[..i], library, destId, ids, at);
    var whole := PlaylistsWrites(owned[..i + 1], library, destId, ids, at);
    var copy := PlaylistCopy(owned[i], TrackUris(library.TracksOf(owned[i].id)), destId, ids(at + |pre|));
    PlaylistsWritesSnoc(owned, library, destId, ids, at, i);
    assert |mid| == at + |pre|;
    PrefixOfStep(base, pre, copy, whole, mid, after);
    PlaylistsLoopPrefix(owned, library, destId, ids, at, i + 1, base, after);
  }

  lemma PlaylistsWritesSnoc(owned: seq<Playlist>, library: Library, destUserId: Id, ids: nat -> Id, at: nat, i: nat)
    requires i < |owned|
    ensures PlaylistsWrites(owned[..i + 1], library, destUserId, ids, at)
         == PlaylistsWrites(owned[..i], library, destUserId, ids, at)
          + PlaylistCopy(owned[i], TrackUris(library.TracksOf(owned[i].id)), destUserId,
                         ids(at + |PlaylistsWrites(owned[..i], library, destUserId, ids, at)|))
  {
    assert owned[..i + 1][..i] == owned[..i];
  }

  /** The playlist loop cut short in its i-th round has still written a
      prefix of what it would have written. */
  lemma PlaylistsLoopPrefix(owned: seq<Playlist>, library: Library, destUserId: Id, ids: nat -> Id, at: nat, i: nat,
                            base: seq<Request>, log: seq<Request>)
    requires i <= |owned|
    requires IsPrefix(log, base + PlaylistsWrites(owned[..i], library, destUserId, ids, at))
    ensures IsPrefix(log, base + PlaylistsWrites(owned, library, destUserId, ids, at))
  {
    var part := PlaylistsWrites(owned[..i], library, destUserId, ids, at);
    var all := PlaylistsWrites(owned, library, destUserId, ids, at);
    PlaylistsWritesPrefix(owned, library, destUserId, ids, at, i);
    PrefixAppend(base, part, all);
    PrefixTrans(log, base + part, base + all);
  }

  /** A run cut short in its k-th category has still written a prefix of
      what the whole run would have written. */
  lemma RunLoopPrefix(categories: seq<string>, library: Library, sourceUserId: Option<Id>, destUserId: Id,
                      ids: nat -> Id, at: nat, k: nat, base: seq<Request>, log: seq<Request>)
    requires k <= |categories|
    requires IsPrefix(log, base + RunWrites(categories[..k], library, sourceUserId, destUserId, ids, at))
    ensures IsPrefix(log, base + RunWrites(categories, library, sourceUserId, destUserId, ids, at))
  {
    var part := RunWrites(categories[..k], library, sourceUserId, destUserId, ids, at);
    var all := RunWrites(categories, library, sourceUserId, destUserId, ids, at);
    RunWritesPrefix(categories, library, sourceUserId, destUserId, ids, at, k);
    PrefixAppend(base, part, all);
    PrefixTrans(log, base + part, base + all);
  }

  /** One more category of the run: what it wrote extends the categories
      before it, and stays within the whole run's writes. */
  lemma RunStep(categories: seq<string>, library: Library, sourceUserId: Option<Id>, destUserId: Id,
                ids: nat -> Id, base: seq<Request>, at: nat, k: nat, mid: seq<Request>, after: seq<Request>)
    requires k < |categories| && at == |base|
    requires mid == base + RunWrites(categories[..k], library, sourceUserId, destUserId, ids, at)
    requires IsPrefix(after, mid + CategoryWrites(categories[k], library, sourceUserId, destUserId, ids, |mid|))
    ensures IsPrefix(after, base + RunWrites(categories, library, sourceUserId, destUserId, ids, at))
    ensures IsPrefix(after, base + RunWrites(categories[..k + 1], library, sourceUserId, destUserId, ids, at))
    ensures after == mid + CategoryWrites(categories[k], library, sourceUserId, destUserId, ids, |mid|) ==>
      after == base + RunWrites(categories[..k + 1], library, sourceUserId, destUserId, ids, at)
  {
    var pre := RunWrites(categories[..k], library, sourceUserId, destUserId, ids, at);
    var whole := RunWrites(categories[..k + 1], library, sourceUserId, destUserId, ids, at);
    var next := CategoryWrites(categories[k], library, sourceUserId, destUserId, ids, at + |pre|);
    RunWritesSnoc(categories, library, sourceUserId, destUserId, ids, at, k, pre, at + |pre|);
    assert |mid| == at + |pre|;
    PrefixOfStep(base, pre, next, whole, mid, after);
    RunLoopPrefix(categories, library, sourceUserId, destUserId, ids, at, k + 1, base, after);
  }

  /** A row that has not been touched yet goes in progress with nothing
      counted. */
  lemma StartsUncounted(p: seq<TransferProgress>, category: string)
    requires Untouched(p, category)
    ensures ZeroCurrent(Updated(p, category, SetStatus(InProgress)), category)
  {
    UpdatedAt(p, category, SetStatus(InProgress));
  }

  /** The final status update of transferCategory keeps the history
      steady: the rows it touches are still in progress. */
  lemma FinishStep(h: seq<seq<TransferProgress>>, from: nat, p0: seq<TransferProgress>, p1: seq<TransferProgress>,
                   p: seq<TransferProgress>, category: string, u: Update)
    requires from < |h| && Steady(h, from) && h[|h| - 1] == p && Bounded(p)
    requires p1 == Updated(p0, category, SetStatus(InProgress)) && CountsOnly(p1, p, category)
    requires u.status == Some(Completed) || u.status == Some(Error)
    requires u.current.None? && u.total.None?
    ensures Bounded(Updated(p, category, u))
    ensures Steady(h + [Updated(p, category, u)], from)
  {
    UpdatedAt(p0, category, SetStatus(InProgress));
    assert forall i :: 0 <= i < |p| && p[i].category == category ==> p[i].status == InProgress;
    UpdateStep(h, from, p, category, u);
  }

  /** transferCategory's effect on the ledger: the rows of `category` go
      in progress, have their counts changed by the strategy, and end with
      the final status `u`; no other row changes. */
  lemma MarkedRows(p0: seq<TransferProgress>, p1: seq<TransferProgress>, p2: seq<TransferProgress>,
                   p3: seq<TransferProgress>, category: string, u: Update)
    requires u.status.Some? && u.current.None? && u.total.None?
    requires p1 == Updated(p0, category, SetStatus(InProgress))
    requires CountsOnly(p1, p2, category)
    requires p3 == Updated(p2, category, u)
    ensures |p3| == |p0|
    ensures forall i :: 0 <= i < |p0| && p0[i].category != category ==> p3[i] == p0[i]
    ensures forall i :: 0 <= i < |p0| && p0[i].category == category ==>
      p3[i].category == category && p3[i].status == u.status.value &&
      p3[i].error == (if u.error.Some? then u.error else p0[i].error)
  {
    UpdatedAt(p0, category, SetStatus(InProgress));
    UpdatedAt(p2, category, u);
  }

  /** startTransfer's ledger before its k-th category: one row per
      selected category, in order, the first k completed and the rest as
      they were created. */
  predicate RunLedger(p: seq<TransferProgress>, selected: seq<string>, k: nat) {
    k <= |selected| && |p| == |selected| &&
    (forall i :: 0 <= i < k ==> p[i].category == selected[i] && p[i].status == Completed) &&
    (forall i :: k <= i < |selected| ==> p[i] == Fresh(selected[i]))
  }

  /** With distinct categories, the k-th category's only row is the k-th,
      and it has not been touched yet. */
  lemma RunLedgerUntouched(p: seq<TransferProgress>, selected: seq<string>, k: nat)
    requires Distinct(selected) && RunLedger(p, selected, k) && k < |selected|
    ensures Untouched(p, selected[k])
    ensures forall i :: 0 <= i < |p| && p[i].category == selected[k] ==> i == k
  {
  }

  /** After the k-th category completes, k + 1 rows are completed. */
  lemma RunLedgerNext(p: seq<TransferProgress>, q: seq<TransferProgress>, selected: seq<string>, k: nat)
    requires Distinct(selected) && RunLedger(p, selected, k) && k < |selected|
    requires |q| == |p|
    requires forall i :: 0 <= i < |p| && p[i].category != selected[k] ==> q[i] == p[i]
    requires q[k].category == selected[k] && q[k].status == Completed
    ensures RunLedger(q, selected, k + 1)
  {
    RunLedgerUntouched(p, selected, k);
  }

  /** After the k-th category fails, the ledger shows k completed rows,
      the failed row, and pending rows only. */
  lemma RunLedgerFailed(p: seq<TransferProgress>, q: seq<TransferProgress>, selected: seq<string>, k: nat)
    requires Distinct(selected) && RunLedger(p, selected, k) && k < |selected|
    requires |q| == |p|
    requires forall i :: 0 <= i < |p| && p[i].category != selected[k] ==> q[i] == p[i]
    requires q[k].category == selected[k] && q[k].status == Error
    ensures FailFast(q) && NoneInProgress(q)
    ensures CompletedCount(q) == k
    ensures |q| == |selected| && forall i :: 0 <= i < |q| ==> q[i].category == selected[i]
  {
    RunLedgerUntouched(p, selected, k);
    CompletedCountOfRun(q, k);
  }

  /** A run whose every category completed. */
  lemma RunLedgerDone(p: seq<TransferProgress>, selected: seq<string>)
    requires RunLedger(p, selected, |selected|)
    ensures FailFast(p) && NoneInProgress(p)
    ensures CompletedCount(p) == |selected|
    ensures forall i :: 0 <= i < |p| ==> p[i].category == selected[i]
  {
  }

  /** The service id of an optional user (`user?.id`). */
  function UserId(user: Option<SpotifyUser>): (id: Option<Id>)
    ensures id.Some? <==> user.Some?
  {
    if user.Some? then Some(user.value.id) else None
  }

  /** The cursor-paginated drain of the followed artists: pages of 50
      until the service returns no cursor. */
  method DrainFollowedArtists(source: Api) returns (r: Result<seq<Artist>>)
    requires source.Valid()
    modifies source
    ensures source.Valid()
    ensures r.Ok? <==> old(source.CanAccept(PageCount(|source.library.followedArtists|, DefaultLimit)))
    ensures r.Ok? ==> r.value == source.library.followedArtists
    ensures r.Ok? ==> source.log == old(source.log) + CursorRequests(DefaultLimit, PageCount(|source.library.followedArtists|, DefaultLimit))
    ensures r.Err? ==> r.error == source.rejection
    ensures source.Healthy() ==> r.Ok?
    ensures IsPrefix(source.log, old(source.log) + CursorRequests(DefaultLimit, PageCount(|source.library.followedArtists|, DefaultLimit)))
    ensures OnlyReads(old(source.log), source.log)
  {
    var artists: seq<Artist> := [];
    var after: Option<Cursor> := None;
    ghost var all := source.library.followedArtists;
    ghost var fetched := 0;
    ghost var count := PageCount(|all|, DefaultLimit);
    while true
      invariant source.Valid()
      invariant fetched < count
      invariant after == if fetched == 0 then None else Some(fetched * DefaultLimit)
      invariant fetched * DefaultLimit <= |all| && artists == all[..fetched * DefaultLimit]
      invariant source.log == old(source.log) + CursorRequests(DefaultLimit, fetched)
      invariant old(source.CanAccept(fetched))
      invariant OnlyReads(old(source.log), source.log)
      decreases |all| - |artists|
    {
      ghost var before := source.log;
      var page := source.GetFollowedArtists(DefaultLimit, after);
      if page.Err? {
        assert CursorRequests(DefaultLimit, count)[..fetched] == CursorRequests(DefaultLimit, fetched);
        return Err(page.error);
      }
      OnlyReadsTrans(old(source.log), before, source.log);
      assert CursorRequests(DefaultLimit, fetched + 1)
          == CursorRequests(DefaultLimit, fetched) + [GetArtistsPage(DefaultLimit, after)];
      artists := artists + page.value.items;
      after := page.value.after;
      fetched := fetched + 1;
      PageCountUnique(|all|, DefaultLimit, fetched);
      if after.None? {
        assert artists == all;
        break;
      }
      assert artists == all[..fetched * DefaultLimit];
      MulMono(count, fetched, DefaultLimit);
    }
    return Ok(artists);
  }

  class TransferPage {
    const store: AuthState
    var progress: seq<TransferProgress>
    var currentTask: string
    var isComplete: bool
    var error: Option<string>
    /** Every value `progress` has held, oldest first. */
    ghost var snapshots: seq<seq<TransferProgress>>

    ghost predicate Valid()
      reads this`snapshots, this`progress
    {
      |snapshots| > 0 && snapshots[|snapshots| - 1] == progress
    }

    constructor (store: AuthState)
      ensures this.store == store
      ensures progress == [] && currentTask == "" && !isComplete && error == None
      ensures snapshots == [[]] && Valid()
    {
      this.store := store;
      progress := [];
      currentTask := "";
      isComplete := false;
      error := None;
      snapshots := [[]];
    }

    /** The signed-in source user's id, if any. */
    function SourceUserId(): Option<Id>
      reads store`sourceAccount, store`destinationAccount
    {
      UserId(store.sourceAccount.user)
    }

    /** The destination user's id, "" when none is known (no playlist is
        then created: the strategy fails first). */
    function DestUserId(): Id
      reads store`sourceAccount, store`destinationAccount
    {
      if store.destinationAccount.user.Some? then store.destinationAccount.user.value.id else ""
    }

    /** Both sessions have tokens: startTransfer's guard. */
    predicate Ready()
      reads store`sourceAccount, store`destinationAccount
    {
      store.sourceAccount.tokens.Some? && store.destinationAccount.tokens.Some?
    }

    /** updateProgress: merge `u` into every row of `category`. */
    method UpdateProgress(category: string, u: Update)
      modifies this`progress, this`snapshots
      ensures progress == Updated(old(progress), category, u)
      ensures snapshots == old(snapshots) + [progress]
      ensures Valid()
    {
      progress := Updated(progress, category, u);
      snapshots := snapshots + [progress];
    }

    /** updateProgress(category, { current: c }) with c between the row's
        count and its total, as each strategy's loop does after each step. */
    method ShowCount(category: string, c: nat, ghost current: nat, ghost total: nat,
                     ghost start: nat, ghost base: seq<TransferProgress>)
      requires Valid() && Bounded(progress) && start < |snapshots| && Steady(snapshots, start)
      requires HasCounts(progress, category, current, total) && current <= c <= total
      requires CountsOnly(base, progress, category)
      modifies this`progress, this`snapshots
      ensures Valid() && Bounded(progress) && Steady(snapshots, start)
      ensures snapshots == old(snapshots) + [progress] && IsPrefix(old(snapshots), snapshots)
      ensures CountsOnly(base, progress, category) && HasCounts(progress, category, c, total)
    {
      UpdateStep(snapshots, start, progress, category, SetCurrent(c));
      CountsStep(base, progress, category, SetCurrent(c));
      UpdatedAt(progress, category, SetCurrent(c));
      UpdateProgress(category, SetCurrent(c));
    }

    /** updateProgress(category, { total: n }) before anything is counted,
        as each strategy does once its listing is read. */
    method ShowTotal(category: string, n: nat)
      requires Valid() && Bounded(progress) && ZeroCurrent(progress, category)
      modifies this`progress, this`snapshots
      ensures Valid() && Bounded(progress)
      ensures snapshots == old(snapshots) + [progress] && Steady(snapshots, |old(snapshots)| - 1)
      ensures CountsOnly(old(progress), progress, category) && HasCounts(progress, category, 0, n)
    {
      UpdateStep(snapshots, |snapshots| - 1, progress, category, SetTotal(n));
      CountsStep(progress, progress, category, SetTotal(n));
      UpdatedAt(progress, category, SetTotal(n));
      UpdateProgress(category, SetTotal(n));
    }

    /** The batch loop the liked-songs, followed-artists and saved-albums
        strategies share: 50 ids per write request, the row's count moving
        to min(i + 50, n) after each. `sent` is the number of ids the
        answered writes carried: the count the row ends with. */
    method SaveInChunks(category: string, e: Endpoint, ids: seq<Id>, dest: Api, ghost total: nat)
        returns (r: Outcome, ghost sent: nat)
      requires e == MyTracks || e == MyFollowedArtists || e == MyAlbums
      requires Valid() && Bounded(progress) && dest.Valid()
      requires HasCounts(progress, category, 0, total) && |ids| <= total
      modifies this`progress, this`snapshots, dest
      ensures Valid() && Bounded(progress) && dest.Valid()
      ensures IsPrefix(old(snapshots), snapshots) && Steady(snapshots, |old(snapshots)| - 1)
      ensures CountsOnly(old(progress), progress, category)
      ensures IsPrefix(old(dest.log), dest.log)
      ensures IsPrefix(dest.log, old(dest.log) + Batches(e, Chunks(ids, ChunkSize)))
      ensures r.Pass? ==> dest.log == old(dest.log) + Batches(e, Chunks(ids, ChunkSize))
      ensures r.Pass? ==> HasCounts(progress, category, |ids|, total)
      ensures r.Fail? ==> r.error == dest.rejection
      ensures dest.Healthy() ==> r.Pass?
      // the count shown is what the answered writes carried, on both outcomes
      ensures sent <= |ids| && (r.Pass? ==> sent == |ids|) && (r.Fail? ==> sent < |ids|)
      ensures dest.log == old(dest.log) + Batches(e, Chunks(ids[..sent], ChunkSize))
      ensures HasCounts(progress, category, sent, total)
      // one ledger per answered write, the j-th showing min((j + 1) * 50, n)
      ensures sent == Min((|snapshots| - |old(snapshots)|) * ChunkSize, |ids|)
      ensures CountsRise(snapshots, |old(snapshots)|, category, ChunkSize, |ids|, total)
    {
      var n := |ids|;
      var i := 0;
      ghost var start := |snapshots| - 1;
      ghost var rounds: nat := 0;
      sent := 0;
      while i < n
        invariant MultipleOf(i, ChunkSize) && (i == 0 || i - ChunkSize < n)
        invariant i == rounds * ChunkSize && |snapshots| == |old(snapshots)| + rounds
        invariant sent == Min(i, n)
        invariant Valid() && Bounded(progress) && dest.Valid()
        invariant IsPrefix(old(snapshots), snapshots) && Steady(snapshots, start)
        invariant CountsOnly(old(progress), progress, category)
        invariant HasCounts(progress, category, sent, total)
        invariant CountsRise(snapshots, |old(snapshots)|, category, ChunkSize, n, total)
        invariant dest.log == old(dest.log) + Batches(e, Chunks(ids[..sent], ChunkSize))
        decreases n - i
      {
        ghost var shown := snapshots;
        r := SaveRound(category, e, ids, i, dest, total, start, |old(snapshots)|, old(progress), old(dest.log));
        PrefixTrans(old(snapshots), shown, snapshots);
        if r.Fail? {
          ChunkLoopPrefix(e, ids, i, old(dest.log), dest.log);
          return;
        }
        i := i + ChunkSize;
        rounds := rounds + 1;
        sent := Min(i, n);
      }
      assert ids[..sent] == ids;
      r := Pass;
    }

    /** One round of the batch loop: write the batch that starts at i and,
        once it is answered, count min(i + 50, n). */
    method SaveRound(category: string, e: Endpoint, ids: seq<Id>, i: nat, dest: Api, ghost total: nat,
                     ghost start: nat, ghost o: nat, ghost p0: seq<TransferProgress>, ghost base: seq<Request>)
        returns (r: Outcome)
      requires e == MyTracks || e == MyFollowedArtists || e == MyAlbums
      requires MultipleOf(i, ChunkSize) && i < |ids| <= total
      requires Valid() && Bounded(progress) && dest.Valid()
      requires start < |snapshots| && Steady(snapshots, start)
      requires o <= |snapshots| && i == (|snapshots| - o) * ChunkSize
      requires CountsRise(snapshots, o, category, ChunkSize, |ids|, total)
      requires CountsOnly(p0, progress, category) && HasCounts(progress, category, i, total)
      requires dest.log == base + Batches(e, Chunks(ids[..i], ChunkSize))
      modifies this`progress, this`snapshots, dest
      ensures Valid() && Bounded(progress) && dest.Valid()
      ensures IsPrefix(old(snapshots), snapshots) && Steady(snapshots, start)
      ensures r.Fail? ==> r.error == dest.rejection && dest.log == old(dest.log)
      ensures r.Fail? ==> snapshots == old(snapshots) && progress == old(progress)
      ensures r.Pass? ==> dest.log == base + Batches(e, Chunks(ids[..Min(i + ChunkSize, |ids|)], ChunkSize))
      ensures r.Pass? ==> |snapshots| == |old(snapshots)| + 1 && CountsRise(snapshots, o, category, ChunkSize, |ids|, total)
      ensures r.Pass? ==> CountsOnly(p0, progress, category) && HasCounts(progress, category, Min(i + ChunkSize, |ids|), total)
      ensures dest.Healthy() ==> r.Pass?
    {
      var next := Min(i + ChunkSize, |ids|);
      r := WriteChunk(e, ids[i..next], dest);
      if r.Fail? {
        return;
      }
      ChunkLoopStep(e, ids, i, base);
      ghost var shown := snapshots;
      ShowCount(category, next, i, total, start, p0);
      CountsRiseSnoc(shown, o, category, ChunkSize, |ids|, total, progress);
    }

    /** One round of transferPlaylists' loop: read the playlist's tracks,
        create the copy under the destination user, and add the truthy
        track URIs to it when there are any. */
    method CopyPlaylist(p: Playlist, source: Api, dest: Api) returns (r: Outcome)
      requires source.Valid() && dest.Valid() && source != dest
      modifies source, dest
      ensures source.Valid() && dest.Valid()
      ensures OnlyReads(old(source.log), source.log)
      ensures IsPrefix(old(dest.log), dest.log)
      ensures IsPrefix(dest.log, old(dest.log) + PlaylistCopy(p, TrackUris(source.library.TracksOf(p.id)), DestUserId(), dest.newPlaylistId(|old(dest.log)|)))
      ensures r.Pass? ==> dest.log == old(dest.log) + PlaylistCopy(p, TrackUris(source.library.TracksOf(p.id)), DestUserId(), dest.newPlaylistId(|old(dest.log)|))
      ensures r.Fail? ==> r.error == source.rejection || r.error == dest.rejection || r.error == NullUserMessage
      ensures source.Healthy() && dest.Healthy() && store.destinationAccount.user.Some? ==> r.Pass?
      ensures store.destinationAccount.user.None? ==> r.Fail? && dest.log == old(dest.log)
    {
      ghost var uris := TrackUris(source.library.TracksOf(p.id));
      ghost var base := dest.log;
      ghost var bulk := BulkRequests(PlaylistItems(dest.newPlaylistId(|base|)), uris);
      ghost var copy := PlaylistCopy(p, uris, DestUserId(), dest.newPlaylistId(|base|));
      PrefixOfAppend(base, copy);
      var tracks := source.GetAllItems(PlaylistTracks(p.id), source.library.TracksOf(p.id), DefaultLimit);
      PagesOnlyRead(old(source.log), source.log, PlaylistTracks(p.id), DefaultLimit,
                    PageCount(|source.library.TracksOf(p.id)|, DefaultLimit));
      if tracks.Err? {
        return Fail(tracks.error);
      }
      if store.destinationAccount.user.None? {
        return Fail(NullUserMessage);
      }
      var created := dest.CreatePlaylist(store.destinationAccount.user.value.id, p.name, p.description, p.isPublic);
      if created.Err? {
        return Fail(created.error);
      }
      ghost var post := [PostPlaylist(DestUserId(), p.name, p.description, p.isPublic)];
      ghost var mid := dest.log;
      AppendAssoc(base, post, bulk);
      PrefixOfAppend(base, post);
      if |tracks.value| > 0 {
        var trackUris := TrackUris(tracks.value);
        if |trackUris| > 0 {
          r := dest.AddTracksToPlaylist(created.value, trackUris);
          PrefixTrans(base, mid, dest.log);
          return;
        }
      }
      NoRequestsForNoIds(PlaylistItems(created.value));
      assert mid + bulk == mid;
      return Pass;
    }

    /** transferPlaylists' loop over the owned playlists: copy each in
        turn, counting i + 1 after the i-th copy. `copied` is the number of
        copies that went through: the count the row ends with. */
    method CopyPlaylists(category: string, owned: seq<Playlist>, source: Api, dest: Api)
        returns (r: Outcome, ghost copied: nat)
      requires Valid() && Bounded(progress) && HasCounts(progress, category, 0, |owned|)
      requires source.Valid() && dest.Valid() && source != dest
      modifies this`progress, this`snapshots, source, dest
      ensures Valid() && Bounded(progress) && source.Valid() && dest.Valid()
      ensures IsPrefix(old(snapshots), snapshots) && Steady(snapshots, |old(snapshots)| - 1)
      ensures CountsOnly(old(progress), progress, category)
      ensures OnlyReads(old(source.log), source.log)
      ensures IsPrefix(old(dest.log), dest.log)
      ensures IsPrefix(dest.log, old(dest.log) + PlaylistsWrites(owned, source.library, DestUserId(), dest.newPlaylistId, |old(dest.log)|))
      ensures r.Pass? ==> dest.log == old(dest.log) + PlaylistsWrites(owned, source.library, DestUserId(), dest.newPlaylistId, |old(dest.log)|)
      ensures r.Pass? ==> HasCounts(progress, category, |owned|, |owned|)
      ensures r.Fail? ==> r.error == source.rejection || r.error == dest.rejection || r.error == NullUserMessage
      ensures source.Healthy() && dest.Healthy() && store.destinationAccount.user.Some? ==> r.Pass?
      ensures store.destinationAccount.user.None? && |owned| > 0 ==> r.Fail? && dest.log == old(dest.log)
      // the count shown is the number of finished copies, on both outcomes
      ensures copied <= |owned| && (r.Pass? ==> copied == |owned|) && (r.Fail? ==> copied < |owned|)
      ensures HasCounts(progress, category, copied, |owned|)
      ensures IsPrefix(old(dest.log) + PlaylistsWrites(owned[..copied], source.library, DestUserId(), dest.newPlaylistId, |old(dest.log)|), dest.log)
      ensures r.Fail? ==>
        IsPrefix(dest.log, old(dest.log) + PlaylistsWrites(owned[..copied + 1], source.library, DestUserId(), dest.newPlaylistId, |old(dest.log)|))
      // one ledger per finished copy, the i-th showing i + 1
      ensures |snapshots| == |old(snapshots)| + copied
      ensures CountsRise(snapshots, |old(snapshots)|, category, 1, |owned|, |owned|)
    {
      ghost var start := |snapshots| - 1;
      ghost var base := dest.log;
      ghost var destId := DestUserId();
      PrefixOfAppend(base, []);
      var i := 0;
      r := Pass;
      while i < |owned|
        invariant i <= |owned| && r.Pass?
        invariant store.destinationAccount.user.None? ==> i == 0
        invariant Valid() && Bounded(progress) && source.Valid() && dest.Valid()
        invariant IsPrefix(old(snapshots), snapshots) && Steady(snapshots, start)
        invariant |snapshots| == |old(snapshots)| + i
        invariant CountsRise(snapshots, |old(snapshots)|, category, 1, |owned|, |owned|)
        invariant CountsOnly(old(progress), progress, category)
        invariant HasCounts(progress, category, i, |owned|)
        invariant OnlyReads(old(source.log), source.log)
        invariant IsPrefix(base, dest.log)
        invariant dest.log == base + PlaylistsWrites(owned[..i], source.library, destId, dest.newPlaylistId, |base|)
      {
        ghost var before := source.log;
        ghost var shown := snapshots;
        ghost var mid := dest.log;
        r := CopyRound(category, owned, i, source, dest, base, destId, start, |old(snapshots)|, old(progress));
        OnlyReadsTrans(old(source.log), before, source.log);
        PrefixTrans(old(snapshots), shown, snapshots);
        PrefixTrans(base, mid, dest.log);
        if r.Fail? {
          copied := i;
          PlaylistsLoopPrefix(owned, source.library, destId, dest.newPlaylistId, |base|, i + 1, base, dest.log);
          return;
        }
        i := i + 1;
      }
      copied := i;
      assert owned[..i] == owned;
      assert IsPrefix(dest.log, dest.log);
    }

    /** One round of transferPlaylists' loop: copy the i-th owned playlist
        and, once it is copied, count i + 1. */
    method CopyRound(category: string, owned: seq<Playlist>, i: nat, source: Api, dest: Api,
                     ghost base: seq<Request>, ghost destId: Id, ghost start: nat, ghost o: nat, ghost p0: seq<TransferProgress>)
        returns (r: Outcome)
      requires i < |owned| && source.Valid() && dest.Valid() && source != dest && destId == DestUserId()
      requires Valid() && Bounded(progress) && start < |snapshots| && Steady(snapshots, start)
      requires o <= |snapshots| && |snapshots| == o + i && CountsRise(snapshots, o, category, 1, |owned|, |owned|)
      requires CountsOnly(p0, progress, category) && HasCounts(progress, category, i, |owned|)
      requires dest.log == base + PlaylistsWrites(owned[..i], source.library, destId, dest.newPlaylistId, |base|)
      modifies this`progress, this`snapshots, source, dest
      ensures Valid() && Bounded(progress) && source.Valid() && dest.Valid()
      ensures IsPrefix(old(snapshots), snapshots) && Steady(snapshots, start)
      ensures OnlyReads(old(source.log), source.log)
      ensures IsPrefix(old(dest.log), dest.log)
      ensures r.Pass? ==> |snapshots| == o + i + 1 && CountsRise(snapshots, o, category, 1, |owned|, |owned|)
      ensures r.Pass? ==> CountsOnly(p0, progress, category) && HasCounts(progress, category, i + 1, |owned|)
      ensures r.Pass? ==> dest.log == base + PlaylistsWrites(owned[..i + 1], source.library, destId, dest.newPlaylistId, |base|)
      ensures r.Fail? ==> snapshots == old(snapshots) && progress == old(progress)
      ensures r.Fail? ==> IsPrefix(dest.log, base + PlaylistsWrites(owned[..i + 1], source.library, destId, dest.newPlaylistId, |base|))
      ensures r.Fail? ==> r.error == source.rejection || r.error == dest.rejection || r.error == NullUserMessage
      ensures source.Healthy() && dest.Healthy() && store.destinationAccount.user.Some? ==> r.Pass?
      ensures store.destinationAccount.user.None? ==> r.Fail? && dest.log == old(dest.log)
    {
      ghost var mid := dest.log;
      r := CopyPlaylist(owned[i], source, dest);
      PlaylistsStep(owned, source.library, destId, dest.newPlaylistId, base, |base|, i, mid, dest.log);
      if r.Fail? {
        return;
      }
      ghost var shown := snapshots;
      ShowCount(category, i + 1, i, |owned|, start, p0);
      CountsRiseSnoc(shown, o, category, 1, |owned|, |owned|, progress);
    }

    /** transferPlaylists: fetch every playlist, keep those the source user
        owns, show their number as the total, and copy them one by one. */
    method TransferPlaylists(category: string, source: Api, dest: Api) returns (r: Outcome)
      requires Valid() && Bounded(progress) && ZeroCurrent(progress, category)
      requires source.Valid() && dest.Valid() && source != dest
      modifies this`progress, this`snapshots, source, dest
      ensures Valid() && Bounded(progress) && source.Valid() && dest.Valid()
      ensures IsPrefix(old(snapshots), snapshots) && Steady(snapshots, |old(snapshots)| - 1)
      ensures CountsOnly(old(progress), progress, category)
      ensures OnlyReads(old(source.log), source.log)
      ensures IsPrefix(old(dest.log), dest.log)
      ensures IsPrefix(dest.log, old(dest.log) + CategoryWrites(PlaylistsCategory, source.library, SourceUserId(), DestUserId(), dest.newPlaylistId, |old(dest.log)|))
      ensures r.Pass? ==> dest.log == old(dest.log) + CategoryWrites(PlaylistsCategory, source.library, SourceUserId(), DestUserId(), dest.newPlaylistId, |old(dest.log)|)
      ensures r.Pass? ==> var n := |Owned(source.library.playlists, SourceUserId())|; HasCounts(progress, category, n, n)
      ensures r.Fail? ==> r.error == source.rejection || r.error == dest.rejection || r.error == NullUserMessage
      ensures source.Healthy() && dest.Healthy() && store.destinationAccount.user.Some? ==> r.Pass?
      ensures store.destinationAccount.user.None? && |Owned(source.library.playlists, SourceUserId())| > 0 ==>
        r.Fail? && dest.log == old(dest.log)
    {
      var got := source.GetAllItems(UserPlaylists, source.library.playlists, DefaultLimit);
      PagesOnlyRead(old(source.log), source.log, UserPlaylists, DefaultLimit, PageCount(|source.library.playlists|, DefaultLimit));
      if got.Err? {
        return Fail(got.error);
      }
      var owned := Owned(got.value, SourceUserId());
      ShowTotal(category, |owned|);
      ghost var mid := progress;
      ghost var history := snapshots;
      ghost var readDone := source.log;
      ghost var copied;
      r, copied := CopyPlaylists(category, owned, source, dest);
      CountsOnlyTrans(old(progress), mid, progress, category);
      SteadyTrans(history, snapshots, |old(snapshots)| - 1);
      OnlyReadsTrans(old(source.log), readDone, source.log);
    }

    /** transferLikedSongs: fetch every saved track, show their number as
        the total, then save the truthy track ids in batches of 50. */
    method TransferLikedSongs(category: string, source: Api, dest: Api) returns (r: Outcome)
      requires Valid() && Bounded(progress) && ZeroCurrent(progress, category)
      requires source.Valid() && dest.Valid() && source != dest
      modifies this`progress, this`snapshots, source, dest
      ensures Valid() && Bounded(progress) && source.Valid() && dest.Valid()
      ensures IsPrefix(old(snapshots), snapshots) && Steady(snapshots, |old(snapshots)| - 1)
      ensures CountsOnly(old(progress), progress, category)
      ensures OnlyReads(old(source.log), source.log)
      ensures IsPrefix(old(dest.log), dest.log)
      ensures IsPrefix(dest.log, old(dest.log) + CategoryWrites(LikedSongsCategory, source.library, SourceUserId(), DestUserId(), dest.newPlaylistId, |old(dest.log)|))
      ensures r.Pass? ==> dest.log == old(dest.log) + CategoryWrites(LikedSongsCategory, source.library, SourceUserId(), DestUserId(), dest.newPlaylistId, |old(dest.log)|)
      ensures r.Pass? ==> HasCounts(progress, category, |TrackIds(source.library.likedSongs)|, |source.library.likedSongs|)
      ensures r.Fail? ==> r.error == source.rejection || r.error == dest.rejection
      ensures source.Healthy() && dest.Healthy() ==> r.Pass?
    {
      var got := source.GetAllItems(SavedTracks, source.library.likedSongs, DefaultLimit);
      PagesOnlyRead(old(source.log), source.log, SavedTracks, DefaultLimit, PageCount(|source.library.likedSongs|, DefaultLimit));
      if got.Err? {
        return Fail(got.error);
      }
      var likedSongs := got.value;
      ShowTotal(category, |likedSongs|);
      ghost var mid := progress;
      ghost var history := snapshots;
      var trackIds := TrackIds(likedSongs);
      ghost var sent;
      r, sent := SaveInChunks(category, MyTracks, trackIds, dest, |likedSongs|);
      CountsOnlyTrans(old(progress), mid, progress, category);
      SteadyTrans(history, snapshots, |old(snapshots)| - 1);
    }

    /** transferSavedAlbums: fetch every saved album, show their number as
        the total, then save the truthy album ids in batches of 50. */
    method TransferSavedAlbums(category: string, source: Api, dest: Api) returns (r: Outcome)
      requires Valid() && Bounded(progress) && ZeroCurrent(progress, category)
      requires source.Valid() && dest.Valid() && source != dest
      modifies this`progress, this`snapshots, source, dest
      ensures Valid() && Bounded(progress) && source.Valid() && dest.Valid()
      ensures IsPrefix(old(snapshots), snapshots) && Steady(snapshots, |old(snapshots)| - 1)
      ensures CountsOnly(old(progress), progress, category)
      ensures OnlyReads(old(source.log), source.log)
      ensures IsPrefix(old(dest.log), dest.log)
      ensures IsPrefix(dest.log, old(dest.log) + CategoryWrites(SavedAlbumsCategory, source.library, SourceUserId(), DestUserId(), dest.newPlaylistId, |old(dest.log)|))
      ensures r.Pass? ==> dest.log == old(dest.log) + CategoryWrites(SavedAlbumsCategory, source.library, SourceUserId(), DestUserId(), dest.newPlaylistId, |old(dest.log)|)
      ensures r.Pass? ==> HasCounts(progress, category, |AlbumIds(source.library.savedAlbums)|, |source.library.savedAlbums|)
      ensures r.Fail? ==> r.error == source.rejection || r.error == dest.rejection
      ensures source.Healthy() && dest.Healthy() ==> r.Pass?
    {
      var got := source.GetAllItems(SavedAlbums, source.library.savedAlbums, DefaultLimit);
      PagesOnlyRead(old(source.log), source.log, SavedAlbums, DefaultLimit, PageCount(|source.library.savedAlbums|, DefaultLimit));
      if got.Err? {
        return Fail(got.error);
      }
      var savedAlbums := got.value;
      ShowTotal(category, |savedAlbums|);
      ghost var mid := progress;
      ghost var history := snapshots;
      var albumIds := AlbumIds(savedAlbums);
      ghost var sent;
      r, sent := SaveInChunks(category, MyAlbums, albumIds, dest, |savedAlbums|);
      CountsOnlyTrans(old(progress), mid, progress, category);
      SteadyTrans(history, snapshots, |old(snapshots)| - 1);
    }

    /** transferFollowedArtists: drain the cursor-paginated artists, show
        their number as the total, then follow their ids in batches of 50. */
    method TransferFollowedArtists(category: string, source: Api, dest: Api) returns (r: Outcome)
      requires Valid() && Bounded(progress) && ZeroCurrent(progress, category)
      requires source.Valid() && dest.Valid() && source != dest
      modifies this`progress, this`snapshots, source, dest
      ensures Valid() && Bounded(progress) && source.Valid() && dest.Valid()
      ensures IsPrefix(old(snapshots), snapshots) && Steady(snapshots, |old(snapshots)| - 1)
      ensures CountsOnly(old(progress), progress, category)
      ensures OnlyReads(old(source.log), source.log)
      ensures IsPrefix(old(dest.log), dest.log)
      ensures IsPrefix(dest.log, old(dest.log) + CategoryWrites(FollowedArtistsCategory, source.library, SourceUserId(), DestUserId(), dest.newPlaylistId, |old(dest.log)|))
      ensures r.Pass? ==> dest.log == old(dest.log) + CategoryWrites(FollowedArtistsCategory, source.library, SourceUserId(), DestUserId(), dest.newPlaylistId, |old(dest.log)|)
      ensures r.Pass? ==> HasCounts(progress, category, |source.library.followedArtists|, |source.library.followedArtists|)
      ensures r.Fail? ==> r.error == source.rejection || r.error == dest.rejection
      ensures source.Healthy() && dest.Healthy() ==> r.Pass?
    {
      var drained := DrainFollowedArtists(source);
      if drained.Err? {
        return Fail(drained.error);
      }
      var artists := drained.value;
      ShowTotal(category, |artists|);
      ghost var mid := progress;
      ghost var history := snapshots;
      var artistIds := ArtistIds(artists);
      ghost var sent;
      r, sent := SaveInChunks(category, MyFollowedArtists, artistIds, dest, |artists|);
      CountsOnlyTrans(old(progress), mid, progress, category);
      SteadyTrans(history, snapshots, |old(snapshots)| - 1);
    }

    /** transferCategory's switch: the strategy for `category`, or nothing
        at all for a name no strategy handles. */
    method RunStrategy(category: string, source: Api, dest: Api) returns (r: Outcome)
      requires Valid() && Bounded(progress) && ZeroCurrent(progress, category)
      requires source.Valid() && dest.Valid() && source != dest
      modifies this`progress, this`snapshots, source, dest
      ensures Valid() && Bounded(progress) && source.Valid() && dest.Valid()
      ensures IsPrefix(old(snapshots), snapshots) && Steady(snapshots, |old(snapshots)| - 1)
      ensures CountsOnly(old(progress), progress, category)
      ensures OnlyReads(old(source.log), source.log)
      ensures IsPrefix(old(dest.log), dest.log)
      ensures IsPrefix(dest.log, old(dest.log) + CategoryWrites(category, source.library, SourceUserId(), DestUserId(), dest.newPlaylistId, |old(dest.log)|))
      ensures r.Pass? ==> dest.log == old(dest.log) + CategoryWrites(category, source.library, SourceUserId(), DestUserId(), dest.newPlaylistId, |old(dest.log)|)
      ensures r.Fail? ==> r.error == source.rejection || r.error == dest.rejection || r.error == NullUserMessage
      ensures source.Healthy() && dest.Healthy() && (category == PlaylistsCategory ==> store.destinationAccount.user.Some?) ==> r.Pass?
    {
      if category == PlaylistsCategory {
        r := TransferPlaylists(category, source, dest);
      } else if category == LikedSongsCategory {
        r := TransferLikedSongs(category, source, dest);
      } else if category == FollowedArtistsCategory {
        r := TransferFollowedArtists(category, source, dest);
      } else if category == SavedAlbumsCategory {
        r := TransferSavedAlbums(category, source, dest);
      } else {
        r := Pass;
        assert dest.log + [] == dest.log;
        assert IsPrefix(dest.log, dest.log);
        assert IsPrefix(snapshots, snapshots);
      }
    }

    /** updateProgress(category, { status: 'in_progress' }) on rows not
        touched yet. */
    method MarkStarted(category: string)
      requires Valid() && Bounded(progress) && Untouched(progress, category)
      modifies this`progress, this`snapshots
      ensures Valid() && Bounded(progress)
      ensures progress == Updated(old(progress), category, SetStatus(InProgress))
      ensures ZeroCurrent(progress, category)
      ensures snapshots == old(snapshots) + [progress]
      ensures IsPrefix(old(snapshots), snapshots) && Steady(snapshots, |old(snapshots)| - 1)
    {
      UpdateStep(snapshots, |snapshots| - 1, progress, category, SetStatus(InProgress));
      StartsUncounted(progress, category);
      UpdateProgress(category, SetStatus(InProgress));
      PrefixOfAppend(old(snapshots), [progress]);
    }

    /** The final updateProgress of transferCategory: `completed`, or
        `error` with the failure's message. */
    method MarkFinished(category: string, u: Update, ghost p0: seq<TransferProgress>,
                        ghost p1: seq<TransferProgress>, ghost from: nat)
      requires Valid() && Bounded(progress) && from < |snapshots| && Steady(snapshots, from)
      requires p1 == Updated(p0, category, SetStatus(InProgress)) && CountsOnly(p1, progress, category)
      requires u.status == Some(Completed) || u.status == Some(Error)
      requires u.current.None? && u.total.None?
      modifies this`progress, this`snapshots
      ensures Valid() && Bounded(progress)
      ensures progress == Updated(old(progress), category, u)
      ensures IsPrefix(old(snapshots), snapshots) && Steady(snapshots, from)
    {
      FinishStep(snapshots, from, p0, p1, progress, category, u);
      UpdateProgress(category, u);
      PrefixOfAppend(old(snapshots), [progress]);
    }

    /** transferCategory: mark the category in progress, run its strategy,
        then mark it completed, or in error with the failure's message
        (which is passed on to the caller). */
    method TransferCategory(category: string, source: Api, dest: Api) returns (r: Outcome)
      requires Valid() && Bounded(progress) && Untouched(progress, category)
      requires source.Valid() && dest.Valid() && source != dest
      modifies this`progress, this`snapshots, source, dest
      ensures Valid() && Bounded(progress) && source.Valid() && dest.Valid()
      ensures IsPrefix(old(snapshots), snapshots) && Steady(snapshots, |old(snapshots)| - 1)
      ensures |snapshots| > |old(snapshots)| && snapshots[|old(snapshots)|] == Updated(old(progress), category, SetStatus(InProgress))
      ensures |progress| == |old(progress)|
      ensures forall i :: 0 <= i < |progress| && old(progress)[i].category != category ==> progress[i] == old(progress)[i]
      ensures forall i :: 0 <= i < |progress| && old(progress)[i].category == category ==>
        progress[i].category == category &&
        progress[i].status == (if r.Pass? then Completed else Error) &&
        progress[i].error == (if r.Pass? then old(progress)[i].error else Some(r.error))
      ensures OnlyReads(old(source.log), source.log)
      ensures IsPrefix(old(dest.log), dest.log)
      ensures IsPrefix(dest.log, old(dest.log) + CategoryWrites(category, source.library, SourceUserId(), DestUserId(), dest.newPlaylistId, |old(dest.log)|))
      ensures r.Pass? ==> dest.log == old(dest.log) + CategoryWrites(category, source.library, SourceUserId(), DestUserId(), dest.newPlaylistId, |old(dest.log)|)
      ensures r.Fail? ==> r.error == source.rejection || r.error == dest.rejection || r.error == NullUserMessage
      ensures source.Healthy() && dest.Healthy() && (category == PlaylistsCategory ==> store.destinationAccount.user.Some?) ==> r.Pass?
    {
      ghost var h0 := snapshots;
      MarkStarted(category);
      ghost var started := progress;
      ghost var h1 := snapshots;
      r := RunStrategy(category, source, dest);
      SteadyTrans(h1, snapshots, |h0| - 1);
      PrefixTrans(h0, h1, snapshots);
      assert snapshots[|h0|] == h1[|h0|] == started;
      ghost var ran := progress;
      var outcome := if r.Pass? then SetStatus(Completed) else SetFailed(r.error);
      ghost var h2 := snapshots;
      MarkFinished(category, outcome, old(progress), started, |h0| - 1);
      PrefixTrans(h0, h2, snapshots);
      assert snapshots[|h0|] == h2[|h0|];
      MarkedRows(old(progress), started, ran, progress, category, outcome);
    }

    /** One round of startTransfer's loop: announce the k-th category in
        `currentTask` and transfer it. */
    method RunOne(selected: seq<string>, k: nat, source: Api, dest: Api, ghost base: seq<Request>, ghost from: nat)
        returns (r: Outcome)
      requires Distinct(selected) && k < |selected|
      requires Valid() && Bounded(progress) && source.Valid() && dest.Valid() && source != dest
      requires from < |snapshots| && Steady(snapshots, from)
      requires RunLedger(progress, selected, k)
      requires dest.log == base + RunWrites(selected[..k], source.library, SourceUserId(), DestUserId(), dest.newPlaylistId, |base|)
      modifies this`progress, this`snapshots, this`currentTask, source, dest
      ensures Valid() && Bounded(progress) && source.Valid() && dest.Valid()
      ensures IsPrefix(old(snapshots), snapshots) && Steady(snapshots, from)
      ensures OnlyReads(old(source.log), source.log)
      ensures IsPrefix(old(dest.log), dest.log)
      ensures IsPrefix(dest.log, base + RunWrites(selected, source.library, SourceUserId(), DestUserId(), dest.newPlaylistId, |base|))
      ensures r.Pass? ==> RunLedger(progress, selected, k + 1)
      ensures r.Pass? ==> dest.log == base + RunWrites(selected[..k + 1], source.library, SourceUserId(), DestUserId(), dest.newPlaylistId, |base|)
      ensures r.Fail? ==> |progress| == |selected| && forall i :: 0 <= i < |progress| ==> progress[i].category == selected[i]
      ensures r.Fail? ==> FailFast(progress) && NoneInProgress(progress) && CompletedCount(progress) == k
      ensures r.Fail? ==> progress[k].status == Error && progress[k].error == Some(r.error)
      ensures r.Fail? ==> r.error == source.rejection || r.error == dest.rejection || r.error == NullUserMessage
      ensures r.Fail? ==> IsPrefix(dest.log, base + RunWrites(selected[..k + 1], source.library, SourceUserId(), DestUserId(), dest.newPlaylistId, |base|))
      ensures currentTask == "Transferring " + selected[k] + "..."
      ensures source.Healthy() && dest.Healthy()
        && (selected[k] == PlaylistsCategory ==> store.destinationAccount.user.Some?)
        ==> r.Pass?
    {
      currentTask := "Transferring " + selected[k] + "...";
      RunLedgerUntouched(progress, selected, k);
      ghost var p := progress;
      ghost var h := snapshots;
      ghost var mid := dest.log;
      r := TransferCategory(selected[k], source, dest);
      SteadyTrans(h, snapshots, from);
      RunStep(selected, source.library, SourceUserId(), DestUserId(), dest.newPlaylistId, base, |base|, k, mid, dest.log);
      if r.Fail? {
        RunLedgerFailed(p, progress, selected, k);
      } else {
        RunLedgerNext(p, progress, selected, k);
      }
    }

    /** startTransfer's loop: the selected categories one after another,
        until the first failure. `k` is the number of categories that
        completed. */
    method RunCategories(selected: seq<string>, source: Api, dest: Api) returns (k: nat, r: Outcome)
      requires Valid() && Bounded(progress) && source.Valid() && dest.Valid() && source != dest
      requires Distinct(selected) && RunLedger(progress, selected, 0)
      modifies this`progress, this`snapshots, this`currentTask, source, dest
      ensures Valid() && Bounded(progress) && source.Valid() && dest.Valid()
      ensures IsPrefix(old(snapshots), snapshots) && Steady(snapshots, |old(snapshots)| - 1)
      ensures OnlyReads(old(source.log), source.log)
      ensures IsPrefix(old(dest.log), dest.log)
      ensures IsPrefix(dest.log, old(dest.log) + RunWrites(selected, source.library, SourceUserId(), DestUserId(), dest.newPlaylistId, |old(dest.log)|))
      ensures r.Pass? ==> dest.log == old(dest.log) + RunWrites(selected, source.library, SourceUserId(), DestUserId(), dest.newPlaylistId, |old(dest.log)|)
      ensures k <= |selected| && (r.Pass? <==> k == |selected|)
      // the completed categories wrote all their writes, and no category after the failed one wrote any
      ensures IsPrefix(old(dest.log) + RunWrites(selected[..k], source.library, SourceUserId(), DestUserId(), dest.newPlaylistId, |old(dest.log)|), dest.log)
      ensures r.Fail? ==>
        IsPrefix(dest.log, old(dest.log) + RunWrites(selected[..k + 1], source.library, SourceUserId(), DestUserId(), dest.newPlaylistId, |old(dest.log)|))
      ensures |progress| == |selected| && forall i :: 0 <= i < |progress| ==> progress[i].category == selected[i]
      ensures FailFast(progress) && NoneInProgress(progress) && CompletedCount(progress) == k
      ensures r.Fail? ==> progress[k].status == Error && progress[k].error == Some(r.error)
      ensures r.Fail? ==> currentTask == "Transferring " + selected[k] + "..."
      ensures r.Fail? ==> r.error == source.rejection || r.error == dest.rejection || r.error == NullUserMessage
      ensures source.Healthy() && dest.Healthy()
        && (PlaylistsCategory in selected ==> store.destinationAccount.user.Some?)
        ==> r.Pass?
    {
      ghost var base := dest.log;
      ghost var from := |snapshots| - 1;
      PrefixOfAppend(base, []);
      k := 0;
      r := Pass;
      while k < |selected|
        invariant k <= |selected| && r.Pass?
        invariant Valid() && Bounded(progress) && source.Valid() && dest.Valid()
        invariant IsPrefix(old(snapshots), snapshots) && Steady(snapshots, from)
        invariant RunLedger(progress, selected, k)
        invariant OnlyReads(old(source.log), source.log)
        invariant IsPrefix(base, dest.log)
        invariant dest.log == base + RunWrites(selected[..k], source.library, SourceUserId(), DestUserId(), dest.newPlaylistId, |base|)
        decreases |selected| - k
      {
        ghost var h := snapshots;
        ghost var before := source.log;
        ghost var mid := dest.log;
        r := RunOne(selected, k, source, dest, base, from);
        PrefixTrans(old(snapshots), h, snapshots);
        OnlyReadsTrans(old(source.log), before, source.log);
        PrefixTrans(base, mid, dest.log);
        if r.Fail? {
          return;
        }
        k := k + 1;
      }
      assert selected[..k] == selected;
      assert IsPrefix(dest.log, dest.log);
      RunLedgerDone(progress, selected);
    }

    /** startTransfer once both sessions hold tokens, up to the end of its
        loop: a fresh ledger row per selected category, then the categories
        one after another, stopping at the first failure. `k` categories
        completed. */
    method Launch(selected: seq<string>, source: Api, dest: Api) returns (k: nat, r: Outcome)
      requires Valid() && source.Valid() && dest.Valid() && source != dest
      requires Distinct(selected)
      modifies this`progress, this`snapshots, this`currentTask, source, dest
      ensures Valid() && source.Valid() && dest.Valid()
      ensures |snapshots| > |old(snapshots)| && IsPrefix(old(snapshots), snapshots)
      ensures snapshots[|old(snapshots)|] == InitialProgress(selected)
      ensures Steady(snapshots, |old(snapshots)|)
      ensures |progress| == |selected| && forall i :: 0 <= i < |progress| ==> progress[i].category == selected[i]
      ensures Bounded(progress) && FailFast(progress) && NoneInProgress(progress)
      ensures k == CompletedCount(progress) && k <= |selected| && (r.Pass? <==> k == |selected|)
      ensures OnlyReads(old(source.log), source.log)
      ensures IsPrefix(old(dest.log), dest.log)
      ensures IsPrefix(dest.log, old(dest.log) + RunWrites(selected, source.library, SourceUserId(), DestUserId(), dest.newPlaylistId, |old(dest.log)|))
      // the completed categories made all their writes
      ensures IsPrefix(old(dest.log) + RunWrites(selected[..k], source.library, SourceUserId(), DestUserId(), dest.newPlaylistId, |old(dest.log)|), dest.log)
      ensures r.Pass? ==>
        dest.log == old(dest.log) + RunWrites(selected, source.library, SourceUserId(), DestUserId(), dest.newPlaylistId, |old(dest.log)|)
      // no category after the failed one made any
      ensures r.Fail? ==>
        IsPrefix(dest.log, old(dest.log) + RunWrites(selected[..k + 1], source.library, SourceUserId(), DestUserId(), dest.newPlaylistId, |old(dest.log)|))
      ensures r.Fail? ==> progress[k].status == Error && progress[k].error == Some(r.error)
      ensures r.Fail? ==> currentTask == "Transferring " + selected[k] + "..."
      ensures r.Fail? ==> r.error == source.rejection || r.error == dest.rejection || r.error == NullUserMessage
      ensures source.Healthy() && dest.Healthy()
        && (PlaylistsCategory in selected ==> store.destinationAccount.user.Some?)
        ==> r.Pass?
    {
      ResetLedger(selected);
      ghost var start := snapshots;
      PrefixOfAppend(old(snapshots), [progress]);
      k, r := RunCategories(selected, source, dest);
      PrefixTrans(old(snapshots), start, snapshots);
    }

    /** startTransfer's `setProgress(initialProgress)`: one fresh row per
        selected category, none of them started. */
    method ResetLedger(selected: seq<string>)
      modifies this`progress, this`snapshots
      ensures progress == InitialProgress(selected) && snapshots == old(snapshots) + [progress]
      ensures Valid() && Bounded(progress) && RunLedger(progress, selected, 0)
    {
      progress := InitialProgress(selected);
      snapshots := snapshots + [progress];
    }

    /** The end of startTransfer: a failure's message is kept in `error`;
        otherwise the run is complete and the flow moves on. */
    method Conclude(r: Outcome)
      modifies this`error, this`isComplete, this`currentTask, store`currentStep
      ensures r.Fail? ==> error == Some(r.error) && isComplete == old(isComplete)
      ensures r.Fail? ==> currentTask == old(currentTask) && store.currentStep == old(store.currentStep)
      ensures r.Pass? ==> isComplete && currentTask == "Transfer completed!" && store.currentStep == Complete
      ensures r.Pass? ==> error == old(error)
      ensures store.sourceAccount == old(store.sourceAccount)
      ensures store.destinationAccount == old(store.destinationAccount)
    {
      if r.Fail? {
        error := Some(r.error);
        return;
      }
      isComplete := true;
      currentTask := "Transfer completed!";
      store.SetCurrentStep(Complete);
    }

    /** startTransfer once both sessions hold tokens: a fresh ledger, the
        categories one after another until the first failure, and then
        either the failure's message in `error` or the run marked complete. */
    method Proceed(selected: seq<string>, source: Api, dest: Api)
      requires Valid() && source.Valid() && dest.Valid() && source != dest
      requires Distinct(selected)
      modifies this`progress, this`snapshots, this`currentTask, this`error, this`isComplete
      modifies store`currentStep, source, dest
      ensures Valid() && source.Valid() && dest.Valid()
      ensures store.sourceAccount == old(store.sourceAccount)
      ensures store.destinationAccount == old(store.destinationAccount)
      ensures |snapshots| > |old(snapshots)| && snapshots[|old(snapshots)|] == InitialProgress(selected)
      ensures Steady(snapshots, |old(snapshots)|)
      ensures |progress| == |selected| && FailFast(progress) && NoneInProgress(progress)
      ensures OnlyReads(old(source.log), source.log)
      ensures var k := CompletedCount(progress);
        IsPrefix(old(dest.log) + RunWrites(selected[..k], source.library, SourceUserId(), DestUserId(), dest.newPlaylistId, |old(dest.log)|), dest.log)
      ensures CompletedCount(progress) == |selected| ==>
        dest.log == old(dest.log) + RunWrites(selected, source.library, SourceUserId(), DestUserId(), dest.newPlaylistId, |old(dest.log)|)
      ensures CompletedCount(progress) == |selected| ==>
        isComplete && currentTask == "Transfer completed!" && store.currentStep == Complete && error == old(error)
      ensures CompletedCount(progress) < |selected| ==>
        var k := CompletedCount(progress);
        IsPrefix(dest.log, old(dest.log) + RunWrites(selected[..k + 1], source.library, SourceUserId(), DestUserId(), dest.newPlaylistId, |old(dest.log)|))
      ensures CompletedCount(progress) < |selected| ==>
        var k := CompletedCount(progress);
        progress[k].status == Error && error.Some? && progress[k].error == error &&
        (error.value == source.rejection || error.value == dest.rejection || error.value == NullUserMessage) &&
        currentTask == "Transferring " + selected[k] + "..." &&
        isComplete == old(isComplete) && store.currentStep == old(store.currentStep)
      ensures source.Healthy() && dest.Healthy()
        && (PlaylistsCategory in selected ==> store.destinationAccount.user.Some?)
        ==> CompletedCount(progress) == |selected|
    {
      var k, r := Launch(selected, source, dest);
      ghost var fin := progress;
      ghost var sourceId, destId := SourceUserId(), DestUserId();
      Conclude(r);
      assert progress == fin && SourceUserId() == sourceId && DestUserId() == destId;
    }

    /** startTransfer: nothing at all unless both sessions hold tokens;
        otherwise a fresh ledger, the categories one after another until the
        first failure, and then either the failure's message in `error` or
        the run marked complete. */
    method StartTransfer(selected: seq<string>, source: Api, dest: Api)
      requires Valid() && source.Valid() && dest.Valid() && source != dest
      requires Distinct(selected)
      modifies this`progress, this`snapshots, this`currentTask, this`error, this`isComplete
      modifies store`currentStep, source, dest
      ensures Valid() && source.Valid() && dest.Valid()
      ensures store.sourceAccount == old(store.sourceAccount)
      ensures store.destinationAccount == old(store.destinationAccount)
      ensures !old(Ready()) ==> unchanged(this) && unchanged(store)
      ensures !old(Ready()) ==> source.log == old(source.log) && dest.log == old(dest.log)
      ensures old(Ready()) ==> |snapshots| > |old(snapshots)| && snapshots[|old(snapshots)|] == InitialProgress(selected)
      ensures old(Ready()) ==> Steady(snapshots, |old(snapshots)|)
      ensures old(Ready()) ==> |progress| == |selected| && FailFast(progress) && NoneInProgress(progress)
      ensures old(Ready()) ==> OnlyReads(old(source.log), source.log)
      ensures old(Ready()) ==> var k := CompletedCount(progress);
        IsPrefix(old(dest.log) + RunWrites(selected[..k], source.library, SourceUserId(), DestUserId(), dest.newPlaylistId, |old(dest.log)|), dest.log)
      ensures old(Ready()) && CompletedCount(progress) == |selected| ==>
        dest.log == old(dest.log) + RunWrites(selected, source.library, SourceUserId(), DestUserId(), dest.newPlaylistId, |old(dest.log)|)
      ensures old(Ready()) && CompletedCount(progress) == |selected| ==>
        isComplete && currentTask == "Transfer completed!" && store.currentStep == Complete && error == old(error)
      ensures old(Ready()) && CompletedCount(progress) < |selected| ==>
        var k := CompletedCount(progress);
        IsPrefix(dest.log, old(dest.log) + RunWrites(selected[..k + 1], source.library, SourceUserId(), DestUserId(), dest.newPlaylistId, |old(dest.log)|))
      ensures old(Ready()) && CompletedCount(progress) < |selected| ==>
        var k := CompletedCount(progress);
        progress[k].status == Error && error.Some? && progress[k].error == error &&
        (error.value == source.rejection || error.value == dest.rejection || error.value == NullUserMessage) &&
        currentTask == "Transferring " + selected[k] + "..." &&
        isComplete == old(isComplete) && store.currentStep == old(store.currentStep)
      ensures old(Ready()) && source.Healthy() && dest.Healthy()
        && (PlaylistsCategory in selected ==> store.destinationAccount.user.Some?)
        ==> CompletedCount(progress) == |selected|
    {
      if !Ready() {
        return;
      }
      Proceed(selected, source, dest);
    }
  }
}
