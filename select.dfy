/** The selection screen (src/app/select/page.tsx): the fixed list of data
    categories, the toggles that pick which of them to transfer, and the
    values derived from the list (the ids handed to the transfer screen,
    the number of selected categories and the number of items they hold).
    Every operation builds a new list from the old one. */
module Select {
  import opened Wrappers
  import opened Progress
  import opened TransferPlan

  const FollowedUsersCategory: string := "followedUsers"

  /** One row of the selection list; `id` is the category name the
      transfer screen dispatches on. */
  datatype DataCategory = DataCategory(
    id: string,
    name: string,
    description: string,
    selected: bool,
    count: nat,
    loading: bool)

  /** The list shown when the screen opens: every count still loading, the
      four transferable categories selected and followed users not. */
  function InitialCategories(): seq<DataCategory> {
    [ DataCategory(PlaylistsCategory, "Playlists", "All your created playlists", true, 0, true),
      DataCategory(LikedSongsCategory, "Liked Songs", "Your saved tracks", true, 0, true),
      DataCategory(FollowedArtistsCategory, "Followed Artists", "Artists you follow", true, 0, true),
      DataCategory(SavedAlbumsCategory, "Saved Albums", "Albums in your library", true, 0, true),
      DataCategory(FollowedUsersCategory, "Followed Users", "Other Spotify users you follow", false, 0, true) ]
  }

  function Ids(cs: seq<DataCategory>): (r: seq<string>)
    ensures |r| == |cs|
  {
    seq(|cs|, i requires 0 <= i < |cs| => cs[i].id)
  }

  /** toggleCategory: flips `selected` on the rows whose id matches. */
  function Toggle(cs: seq<DataCategory>, categoryId: string): (r: seq<DataCategory>)
    ensures Ids(r) == Ids(cs)
  {
    seq(|cs|, i requires 0 <= i < |cs| =>
      if cs[i].id == categoryId then cs[i].(selected := !cs[i].selected) else cs[i])
  }

  /** selectAll. */
  function SelectAll(cs: seq<DataCategory>): (r: seq<DataCategory>)
    ensures Ids(r) == Ids(cs)
  {
    seq(|cs|, i requires 0 <= i < |cs| => cs[i].(selected := true))
  }

  /** deselectAll. */
  function DeselectAll(cs: seq<DataCategory>): (r: seq<DataCategory>)
    ensures Ids(r) == Ids(cs)
  {
    seq(|cs|, i requires 0 <= i < |cs| => cs[i].(selected := false))
  }

  /** `categories.filter(cat => cat.selected)`. */
  function Selected(cs: seq<DataCategory>): (r: seq<DataCategory>)
    ensures |r| <= |cs|
    decreases |cs|
  {
    if cs == [] then []
    else (if cs[0].selected then [cs[0]] else []) + Selected(cs[1..])
  }

  function SelectedCount(cs: seq<DataCategory>): nat {
    |Selected(cs)|
  }

  /** The list handleStartTransfer stores for the transfer screen: as many
      ids as the selected count says. */
  function SelectedIds(cs: seq<DataCategory>): (r: seq<string>)
    ensures |r| == SelectedCount(cs)
  {
    Ids(Selected(cs))
  }

  /** totalItems: the reduce over the list, adding the count of each
      selected row to the running sum. */
  function TotalItems(cs: seq<DataCategory>): nat
    decreases |cs|
  {
    if cs == [] then 0
    else
      var sum := TotalItems(cs[..|cs| - 1]);
      var cat := cs[|cs| - 1];
      if cat.selected then sum + cat.count else sum
  }

  /** The counts of the rows, first to last. */
  function SumCounts(cs: seq<DataCategory>): nat
    decreases |cs|
  {
    if cs == [] then 0 else cs[0].count + SumCounts(cs[1..])
  }

  /** The four listing totals fetchDataCounts asks for; None when the
      request failed (its `.catch` then stands in a total of 0). */
  datatype Totals = Totals(
    playlists: Option<nat>,
    likedSongs: Option<nat>,
    followedArtists: Option<nat>,
    savedAlbums: Option<nat>)

  function OrZero(t: Option<nat>): nat {
    if t.Some? then t.value else 0
  }

  /** The switch in fetchDataCounts: each category gets its own listing's
      total, and followed users (and any other id) 0. */
  function CountFor(categoryId: string, t: Totals): nat {
    if categoryId == PlaylistsCategory then OrZero(t.playlists)
    else if categoryId == LikedSongsCategory then OrZero(t.likedSongs)
    else if categoryId == FollowedArtistsCategory then OrZero(t.followedArtists)
    else if categoryId == SavedAlbumsCategory then OrZero(t.savedAlbums)
    else 0
  }

  /** The map fetchDataCounts applies once the totals are in. */
  function ApplyCounts(cs: seq<DataCategory>, t: Totals): (r: seq<DataCategory>)
    ensures Ids(r) == Ids(cs)
  {
    seq(|cs|, i requires 0 <= i < |cs| => cs[i].(count := CountFor(cs[i].id, t), loading := false))
  }

  /** fetchDataCounts: nothing happens without the source account's
      tokens. */
  function FetchDataCounts(cs: seq<DataCategory>, hasTokens: bool, t: Totals): (r: seq<DataCategory>)
    ensures Ids(r) == Ids(cs)
  {
    if hasTokens then ApplyCounts(cs, t) else cs
  }

  // ---------------------------------------------------------------------
  // Filtering

  lemma {:induction false} SelectedAppend(a: seq<DataCategory>, b: seq<DataCategory>)
    ensures Selected(a + b) == Selected(a) + Selected(b)
    decreases |a|
  {
    if a == [] {
      assert a + b == b;
    } else {
      assert (a + b)[0] == a[0] && (a + b)[1..] == a[1..] + b;
      SelectedAppend(a[1..], b);
    }
  }

  /** The filter keeps exactly the selected rows. */
  lemma {:induction false} SelectedMembers(cs: seq<DataCategory>)
    ensures forall c :: c in Selected(cs) <==> c in cs && c.selected
    decreases |cs|
  {
    if cs != [] {
      SelectedMembers(cs[1..]);
      assert forall c :: c in cs <==> c == cs[0] || c in cs[1..];
    }
  }

  /** The selected ids come in display order: the ids of a list made of two
      parts are those of the first part, then those of the second. */
  lemma SelectedIdsAppend(a: seq<DataCategory>, b: seq<DataCategory>)
    ensures SelectedIds(a + b) == SelectedIds(a) + SelectedIds(b)
  {
    SelectedAppend(a, b);
  }

  /** An id is handed over exactly when some row with that id is
      selected. */
  lemma SelectedIdsMembers(cs: seq<DataCategory>)
    ensures forall x :: x in SelectedIds(cs) <==> exists i :: 0 <= i < |cs| && cs[i].selected && cs[i].id == x
  {
    SelectedMembers(cs);
    var sel := Selected(cs);
    forall x | x in SelectedIds(cs)
      ensures exists i :: 0 <= i < |cs| && cs[i].selected && cs[i].id == x
    {
      var k :| 0 <= k < |sel| && Ids(sel)[k] == x;
      assert sel[k] in sel;
      var i :| 0 <= i < |cs| && cs[i] == sel[k];
      assert cs[i].selected && cs[i].id == x;
    }
    forall x | exists i :: 0 <= i < |cs| && cs[i].selected && cs[i].id == x
      ensures x in SelectedIds(cs)
    {
      var i :| 0 <= i < |cs| && cs[i].selected && cs[i].id == x;
      assert cs[i] in cs;
      var k :| 0 <= k < |sel| && sel[k] == cs[i];
      assert Ids(sel)[k] == x;
    }
  }

  /** When the rows have distinct ids, so does the list handed to the
      transfer screen, as startTransfer needs. */
  lemma {:induction false} SelectedIdsDistinct(cs: seq<DataCategory>)
    requires Distinct(Ids(cs))
    ensures Distinct(SelectedIds(cs))
    decreases |cs|
  {
    if cs != [] {
      var rest := cs[1..];
      assert Ids(rest) == Ids(cs)[1..];
      SelectedIdsDistinct(rest);
      if cs[0].selected {
        SelectedIdsMembers(rest);
        forall i | 0 <= i < |rest|
          ensures rest[i].id != cs[0].id
        {
          assert Ids(cs)[i + 1] == rest[i].id && Ids(cs)[0] == cs[0].id;
        }
        var tail := SelectedIds(rest);
        assert cs[0].id !in tail;
        assert SelectedIds(cs) == [cs[0].id] + tail;
        forall a, b | 0 <= a < b < |tail| + 1
          ensures ([cs[0].id] + tail)[a] != ([cs[0].id] + tail)[b]
        {
          if a > 0 {
            assert tail[a - 1] != tail[b - 1];
          } else {
            assert tail[b - 1] in tail;
          }
        }
      } else {
        assert SelectedIds(cs) == SelectedIds(rest);
      }
    }
  }

  /** selectedCount ranges from 0 (nothing selected) to the length of the
      list (everything selected). */
  lemma {:induction false} SelectedCountRange(cs: seq<DataCategory>)
    ensures SelectedCount(cs) <= |cs|
    ensures SelectedCount(cs) == 0 <==> forall i :: 0 <= i < |cs| ==> !cs[i].selected
    ensures SelectedCount(cs) == |cs| <==> forall i :: 0 <= i < |cs| ==> cs[i].selected
    decreases |cs|
  {
    if cs != [] {
      SelectedCountRange(cs[1..]);
      assert forall i :: 1 <= i < |cs| ==> cs[i] == cs[1..][i - 1];
    }
  }

  // ---------------------------------------------------------------------
  // The item total

  lemma {:induction false} SumCountsAppend(a: seq<DataCategory>, b: seq<DataCategory>)
    ensures SumCounts(a + b) == SumCounts(a) + SumCounts(b)
    decreases |a|
  {
    if a == [] {
      assert a + b == b;
    } else {
      assert (a + b)[0] == a[0] && (a + b)[1..] == a[1..] + b;
      SumCountsAppend(a[1..], b);
    }
  }

  /** totalItems is the sum of the counts of the selected rows only. */
  lemma {:induction false} TotalItemsIsSelectedSum(cs: seq<DataCategory>)
    ensures TotalItems(cs) == SumCounts(Selected(cs))
    decreases |cs|
  {
    if cs != [] {
      var init := cs[..|cs| - 1];
      var last := cs[|cs| - 1];
      TotalItemsIsSelectedSum(init);
      assert cs == init + [last];
      SelectedAppend(init, [last]);
      assert Selected([last]) == (if last.selected then [last] else []) + Selected([]);
      SumCountsAppend(Selected(init), Selected([last]));
    }
  }

  // ---------------------------------------------------------------------
  // Toggling and bulk selection

  /** Toggling an id flips `selected` on its rows and changes nothing
      else. */
  lemma ToggleOnlyMatching(cs: seq<DataCategory>, categoryId: string)
    ensures |Toggle(cs, categoryId)| == |cs|
    ensures forall i :: 0 <= i < |cs| && cs[i].id != categoryId ==> Toggle(cs, categoryId)[i] == cs[i]
    ensures forall i :: 0 <= i < |cs| && cs[i].id == categoryId ==>
      Toggle(cs, categoryId)[i].selected != cs[i].selected &&
      Toggle(cs, categoryId)[i].(selected := cs[i].selected) == cs[i]
  {
  }

  /** Toggling the same id twice gives back the list. */
  lemma ToggleTwice(cs: seq<DataCategory>, categoryId: string)
    ensures Toggle(Toggle(cs, categoryId), categoryId) == cs
  {
  }

  /** With distinct ids, toggling a listed category moves the selected
      count by one: up when it was not selected, down when it was. */
  lemma {:induction false} ToggleCount(cs: seq<DataCategory>, j: nat)
    requires j < |cs| && Distinct(Ids(cs))
    ensures SelectedCount(Toggle(cs, cs[j].id)) == if cs[j].selected then SelectedCount(cs) - 1 else SelectedCount(cs) + 1
    decreases |cs|
  {
    var id := cs[j].id;
    var rest := cs[1..];
    var t := Toggle(cs, id);
    assert t[1..] == Toggle(rest, id);
    assert Selected(t) == (if t[0].selected then [t[0]] else []) + Selected(t[1..]);
    if j == 0 {
      forall i | 0 <= i < |rest|
        ensures rest[i].id != id
      {
        assert Ids(cs)[i + 1] == rest[i].id;
      }
      assert Toggle(rest, id) == rest;
    } else {
      assert Ids(cs)[0] != Ids(cs)[j];
      assert Ids(rest) == Ids(cs)[1..];
      ToggleCount(rest, j - 1);
    }
  }

  lemma SelectAllIdempotent(cs: seq<DataCategory>)
    ensures SelectAll(SelectAll(cs)) == SelectAll(cs)
  {
  }

  lemma DeselectAllIdempotent(cs: seq<DataCategory>)
    ensures DeselectAll(DeselectAll(cs)) == DeselectAll(cs)
  {
  }

  /** After selectAll every id is handed over, in display order, and the
      total is every row's count. */
  lemma {:induction false} SelectAllHandsOverAll(cs: seq<DataCategory>)
    ensures SelectedIds(SelectAll(cs)) == Ids(cs)
    ensures TotalItems(SelectAll(cs)) == SumCounts(cs)
    decreases |cs|
  {
    if cs != [] {
      var s := SelectAll(cs);
      assert s[1..] == SelectAll(cs[1..]);
      SelectAllHandsOverAll(cs[1..]);
      assert Selected(s) == [s[0]] + Selected(s[1..]);
      assert Selected(s) == s by {
        TotalItemsIsSelectedSum(cs[1..]);
        SelectedCountRange(s[1..]);
        assert forall i :: 0 <= i < |s[1..]| ==> s[1..][i].selected;
        SelectedSelf(s[1..]);
      }
      TotalItemsIsSelectedSum(s);
      assert SumCounts(s) == SumCounts(cs) by {
        SumCountsSelect(cs);
      }
    }
  }

  /** A list whose rows are all selected filters to itself. */
  lemma {:induction false} SelectedSelf(cs: seq<DataCategory>)
    requires forall i :: 0 <= i < |cs| ==> cs[i].selected
    ensures Selected(cs) == cs
    decreases |cs|
  {
    if cs != [] {
      SelectedSelf(cs[1..]);
    }
  }

  /** Selecting does not change the counts. */
  lemma {:induction false} SumCountsSelect(cs: seq<DataCategory>)
    ensures SumCounts(SelectAll(cs)) == SumCounts(cs)
    decreases |cs|
  {
    if cs != [] {
      assert SelectAll(cs)[1..] == SelectAll(cs[1..]);
      SumCountsSelect(cs[1..]);
    }
  }

  /** After deselectAll nothing is handed over and the total is 0. */
  lemma DeselectAllHandsOverNothing(cs: seq<DataCategory>)
    ensures SelectedIds(DeselectAll(cs)) == []
    ensures SelectedCount(DeselectAll(cs)) == 0
    ensures TotalItems(DeselectAll(cs)) == 0
  {
    var d := DeselectAll(cs);
    SelectedCountRange(d);
    TotalItemsIsSelectedSum(d);
  }

  // ---------------------------------------------------------------------
  // Loading the counts

  /** The count mapping gives each category its own listing's total (0 when
      that request failed), gives followed users 0, ends every row's
      loading state, and leaves the selection alone; applying it again
      changes nothing. */
  lemma ApplyCountsFacts(cs: seq<DataCategory>, t: Totals)
    ensures |ApplyCounts(cs, t)| == |cs|
    ensures forall i :: 0 <= i < |cs| ==> !ApplyCounts(cs, t)[i].loading
    ensures forall i :: 0 <= i < |cs| ==>
      ApplyCounts(cs, t)[i].selected == cs[i].selected &&
      ApplyCounts(cs, t)[i].name == cs[i].name &&
      ApplyCounts(cs, t)[i].description == cs[i].description
    ensures forall i :: 0 <= i < |cs| && cs[i].id == FollowedUsersCategory ==> ApplyCounts(cs, t)[i].count == 0
    ensures forall i :: 0 <= i < |cs| && cs[i].id == PlaylistsCategory ==>
      ApplyCounts(cs, t)[i].count == (if t.playlists.Some? then t.playlists.value else 0)
    ensures forall i :: 0 <= i < |cs| && cs[i].id == LikedSongsCategory ==>
      ApplyCounts(cs, t)[i].count == (if t.likedSongs.Some? then t.likedSongs.value else 0)
    ensures forall i :: 0 <= i < |cs| && cs[i].id == FollowedArtistsCategory ==>
      ApplyCounts(cs, t)[i].count == (if t.followedArtists.Some? then t.followedArtists.value else 0)
    ensures forall i :: 0 <= i < |cs| && cs[i].id == SavedAlbumsCategory ==>
      ApplyCounts(cs, t)[i].count == (if t.savedAlbums.Some? then t.savedAlbums.value else 0)
    ensures ApplyCounts(ApplyCounts(cs, t), t) == ApplyCounts(cs, t)
  {
  }

  /** Loading the counts never changes which ids are handed over. */
  lemma {:induction false} ApplyCountsKeepsSelection(cs: seq<DataCategory>, t: Totals)
    ensures SelectedIds(ApplyCounts(cs, t)) == SelectedIds(cs)
    decreases |cs|
  {
    if cs != [] {
      var a := ApplyCounts(cs, t);
      assert a[1..] == ApplyCounts(cs[1..], t);
      ApplyCountsKeepsSelection(cs[1..], t);
      assert Selected(a) == (if a[0].selected then [a[0]] else []) + Selected(a[1..]);
      assert Ids(Selected(a)) == (if a[0].selected then [a[0].id] else []) + Ids(Selected(a[1..]));
      assert Ids(Selected(cs)) == (if cs[0].selected then [cs[0].id] else []) + Ids(Selected(cs[1..]));
    }
  }

  /** On the opening list, loading the counts makes the total shown the
      sum of the four listings' totals (a failed request adding 0) and ends
      every row's loading state; without the source account's tokens every
      row keeps loading and the total stays 0. */
  lemma FetchedInitialTotal(t: Totals)
    ensures TotalItems(FetchDataCounts(InitialCategories(), true, t))
         == OrZero(t.playlists) + OrZero(t.likedSongs) + OrZero(t.followedArtists) + OrZero(t.savedAlbums)
    ensures forall i :: 0 <= i < |InitialCategories()| ==> !FetchDataCounts(InitialCategories(), true, t)[i].loading
    ensures TotalItems(FetchDataCounts(InitialCategories(), false, t)) == 0
    ensures forall i :: 0 <= i < |InitialCategories()| ==> FetchDataCounts(InitialCategories(), false, t)[i].loading
  {
    var cs := InitialCategories();
    var a := ApplyCounts(cs, t);
    assert a[0].count == OrZero(t.playlists) && a[1].count == OrZero(t.likedSongs);
    assert a[2].count == OrZero(t.followedArtists) && a[3].count == OrZero(t.savedAlbums);
    TotalOfFive(a);
    TotalOfFive(cs);
  }

  /** What a row adds to the total. */
  function Contribution(c: DataCategory): nat {
    if c.selected then c.count else 0
  }

  /** The reduce over a five-row list, written out. */
  lemma TotalOfFive(cs: seq<DataCategory>)
    requires |cs| == 5
    ensures TotalItems(cs) == Contribution(cs[0]) + Contribution(cs[1]) + Contribution(cs[2])
                            + Contribution(cs[3]) + Contribution(cs[4])
  {
    assert TotalItems(cs[..1]) == Contribution(cs[0]) by { assert cs[..1][..0] == []; }
    assert TotalItems(cs[..2]) == TotalItems(cs[..1]) + Contribution(cs[1]) by { assert cs[..2][..1] == cs[..1]; }
    assert TotalItems(cs[..3]) == TotalItems(cs[..2]) + Contribution(cs[2]) by { assert cs[..3][..2] == cs[..2]; }
    assert TotalItems(cs[..4]) == TotalItems(cs[..3]) + Contribution(cs[3]) by { assert cs[..4][..3] == cs[..3]; }
    assert cs[..5] == cs;
  }

  // ---------------------------------------------------------------------
  // The initial list

  /** Opening the screen hands over the four transferable categories in
      that order (followed users are not selected), with distinct ids and
      nothing counted yet. */
  lemma InitialSelection()
    ensures SelectedIds(InitialCategories())
         == [PlaylistsCategory, LikedSongsCategory, FollowedArtistsCategory, SavedAlbumsCategory]
    ensures Distinct(Ids(InitialCategories()))
    ensures TotalItems(InitialCategories()) == 0
    ensures forall i :: 0 <= i < |InitialCategories()| ==> InitialCategories()[i].loading
  {
    var cs := InitialCategories();
    assert Ids(cs) == [PlaylistsCategory, LikedSongsCategory, FollowedArtistsCategory, SavedAlbumsCategory, FollowedUsersCategory];
    InitialSelected();
    TotalOfFive(cs);
  }

  /** The filter keeps the first four rows of the initial list. */
  lemma InitialSelected()
    ensures Selected(InitialCategories()) == InitialCategories()[..4]
  {
    var cs := InitialCategories();
    assert cs[4..][1..] == [];
    assert Selected(cs[4..]) == [];
    assert Selected(cs[3..]) == [cs[3]];
    assert Selected(cs[2..]) == [cs[2], cs[3]];
    assert Selected(cs[1..]) == [cs[1], cs[2], cs[3]];
  }
}
