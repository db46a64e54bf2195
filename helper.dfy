/** The Python helper (src/i_give_up.py) that talks to pixiv on behalf of
    the application and maintains the cached records and images. Every pixiv
    answer is a parameter: the user preview, the illustrations in page order,
    the bookmark or follow state before and after a toggle, and the followed
    artist ids. `localize(date, tz)` stands for the pytz conversion and
    strftime formatting of a pixiv date. */
module Helper {
  import opened Types
  import opened Text
  import opened FileHandler

  /** The fields of a pixiv user that the helper reads. */
  datatype RawUser = RawUser(name: string, id: u32, isFollowed: bool)

  /** The fields of a pixiv illustration that the helper reads. */
  datatype RawIllust = RawIllust(
    id: u32, totalView: nat, totalBookmarks: nat, createDate: string, isBookmarked: bool)

  /** The timezone `prepare_dai` uses when the setting is empty. */
  const HELPER_DEFAULT_TIMEZONE: string := "Etc/GMT-9"

  /** `create_empty_illust`. */
  function EmptyIllust(): Illustration {
    Illustration(0, 0, 0, "None", false)
  }

  /** `format_illust_json`. */
  function FormatIllust(raw: RawIllust, tz: string, localize: (string, string) -> string): Illustration {
    Illustration(raw.id, raw.totalView, raw.totalBookmarks, localize(raw.createDate, tz), raw.isBookmarked)
  }

  // ---------------------------------------------------------------------
  // The four most recent illustrations

  /** The first four illustrations in order, then empty slots. */
  function PaddedIllusts(raw: seq<RawIllust>, tz: string, localize: (string, string) -> string): seq<Illustration> {
    seq(4, k requires 0 <= k < 4 =>
      if k < |raw| then FormatIllust(raw[k], tz, localize) else EmptyIllust())
  }

  /** Empty slots (id 0) come only after every occupied slot. */
  ghost predicate ZerosTrailing(s: seq<Illustration>) {
    forall j, k :: 0 <= j < k < |s| && s[j].id == 0 ==> s[k].id == 0
  }

  /** pixiv ids are positive, so padding leaves exactly the slots past the
      fetched illustrations empty, and only at the end. */
  lemma PaddingEmptyOnlyAtEnd(raw: seq<RawIllust>, tz: string, localize: (string, string) -> string)
    requires forall k :: 0 <= k < |raw| ==> raw[k].id != 0
    ensures |PaddedIllusts(raw, tz, localize)| == 4
    ensures forall k :: 0 <= k < 4 ==> (PaddedIllusts(raw, tz, localize)[k].id == 0 <==> k >= |raw|)
    ensures ZerosTrailing(PaddedIllusts(raw, tz, localize))
  {
    var p := PaddedIllusts(raw, tz, localize);
    assert forall k :: 0 <= k < 4 ==> p[k] == if k < |raw| then FormatIllust(raw[k], tz, localize) else EmptyIllust();
  }

  /** The two loops at lines 150-158. */
  method PadRecentIllusts(raw: seq<RawIllust>, tz: string, localize: (string, string) -> string)
    returns (illusts: seq<Illustration>)
    ensures illusts == PaddedIllusts(raw, tz, localize)
  {
    illusts := [];
    var n := if |raw| < 4 then |raw| else 4;
    for i := 0 to n
      invariant illusts == seq(i, k requires 0 <= k < i => FormatIllust(raw[k], tz, localize))
    {
      illusts := illusts + [FormatIllust(raw[i], tz, localize)];
    }
    for i := n to 4
      invariant |illusts| == i
      invariant forall k :: 0 <= k < i ==>
                  illusts[k] == if k < |raw| then FormatIllust(raw[k], tz, localize) else EmptyIllust()
    {
      illusts := illusts + [EmptyIllust()];
    }
  }

  // ---------------------------------------------------------------------
  // Recent count and last bookmarked illustration

  /** The length of the leading run of illustrations, among the first
      `amount`, whose date is not before `threshold`. */
  function RecentRun(s: seq<RawIllust>, amount: int, threshold: string): nat {
    if |s| == 0 || amount <= 0 || StrLess(s[0].createDate, threshold) then 0
    else 1 + RecentRun(s[1..], amount - 1, threshold)
  }

  /** The first bookmarked illustration among the first `amount`. */
  function FirstBookmarked(s: seq<RawIllust>, amount: int): Option<RawIllust> {
    if |s| == 0 || amount <= 0 then None
    else if s[0].isBookmarked then Some(s[0])
    else FirstBookmarked(s[1..], amount - 1)
  }

  lemma {:induction false} RecentRunIsLeadingRun(s: seq<RawIllust>, amount: int, threshold: string)
    ensures RecentRun(s, amount, threshold) <= |s|
    ensures RecentRun(s, amount, threshold) <= (if amount < 0 then 0 else amount)
    ensures forall k :: 0 <= k < RecentRun(s, amount, threshold) ==> !StrLess(s[k].createDate, threshold)
    ensures var r := RecentRun(s, amount, threshold);
            r < |s| && r < amount ==> StrLess(s[r].createDate, threshold)
  {
    if |s| > 0 && amount > 0 && !StrLess(s[0].createDate, threshold) {
      RecentRunIsLeadingRun(s[1..], amount - 1, threshold);
      assert forall k :: 1 <= k < |s| ==> s[1..][k - 1] == s[k];
    }
  }

  lemma {:induction false} FirstBookmarkedIsFirst(s: seq<RawIllust>, amount: int) returns (k: nat)
    ensures FirstBookmarked(s, amount).Some? ==>
              && k < |s| && k < amount && s[k].isBookmarked
              && FirstBookmarked(s, amount).value == s[k]
              && forall j :: 0 <= j < k ==> !s[j].isBookmarked
    ensures FirstBookmarked(s, amount).None? ==>
              forall j :: 0 <= j < |s| && j < amount ==> !s[j].isBookmarked
  {
    if |s| == 0 || amount <= 0 || s[0].isBookmarked {
      k := 0;
    } else {
      var k' := FirstBookmarkedIsFirst(s[1..], amount - 1);
      k := k' + 1;
      assert forall j :: 1 <= j < |s| ==> s[1..][j - 1] == s[j];
    }
  }

  /** The scan at lines 162-203 over the illustrations in page order (the
      pages concatenated, so the `while_break` flag that leaves the page
      loop is the `break` here). It stops as soon as both answers are known. */
  method ScanIllusts(s: seq<RawIllust>, amountToSearch: int, dateThreshold: string)
    returns (recentCount: nat, lastBookmarked: Option<RawIllust>)
    ensures recentCount == RecentRun(s, amountToSearch, dateThreshold)
    ensures lastBookmarked == FirstBookmarked(s, amountToSearch)
  {
    var countRecent := true;
    recentCount := 0;
    var foundBookmarked := false;
    lastBookmarked := None;
    var totalCount := 0;
    var i := 0;
    while i < |s|
      invariant 0 <= i <= |s| && totalCount == i
      invariant i == 0 || i <= amountToSearch
      invariant countRecent ==> recentCount == i
      invariant RecentRun(s, amountToSearch, dateThreshold) ==
                  if countRecent then i + RecentRun(s[i..], amountToSearch - i, dateThreshold)
                  else recentCount
      invariant foundBookmarked <==> lastBookmarked.Some?
      invariant FirstBookmarked(s, amountToSearch) ==
                  if foundBookmarked then lastBookmarked
                  else FirstBookmarked(s[i..], amountToSearch - i)
    {
      var illust := s[i];
      assert s[i..][1..] == s[i + 1..];
      totalCount := totalCount + 1;
      if totalCount > amountToSearch {
        break;
      }
      if countRecent {
        if StrLess(illust.createDate, dateThreshold) {
          countRecent := false;
          if foundBookmarked {
            break;
          }
        } else {
          recentCount := recentCount + 1;
        }
      }
      if !foundBookmarked {
        if illust.isBookmarked {
          lastBookmarked := Some(illust);
          foundBookmarked := true;
          if !countRecent {
            break;
          }
        }
      }
      i := i + 1;
    }
  }

  /** The record `download_artist_info` builds from the first page of the
      artist's illustrations and the pages after it: the slots come from the
      first page alone, the scan runs over all pages in order. */
  function DerivedResult(
    user: RawUser, firstPage: seq<RawIllust>, laterPages: seq<RawIllust>, amountToSearch: int,
    dateThreshold: string, tz: string, localize: (string, string) -> string): ArtistResult
  {
    var all := firstPage + laterPages;
    ArtistResult(
      Artist(user.name, user.id, RecentRun(all, amountToSearch, dateThreshold), user.isFollowed),
      match FirstBookmarked(all, amountToSearch)
      case Some(b) => FormatIllust(b, tz, localize)
      case None => EmptyIllust(),
      PaddedIllusts(firstPage, tz, localize))
  }

  /** The record has four slots, its recent count never exceeds the number
      of illustrations nor the scan bound, and its last bookmarked
      illustration is either empty or a bookmarked one. */
  lemma DerivedResultFacts(
    user: RawUser, firstPage: seq<RawIllust>, laterPages: seq<RawIllust>, amountToSearch: int,
    dateThreshold: string, tz: string, localize: (string, string) -> string)
    ensures var r := DerivedResult(user, firstPage, laterPages, amountToSearch, dateThreshold, tz, localize);
            && WellFormed(r) && r.artist.id == user.id
            && r.artist.recentCount <= |firstPage| + |laterPages|
            && (amountToSearch >= 0 ==> r.artist.recentCount <= amountToSearch)
            && (r.lastBookmarked.isBookmarked || r.lastBookmarked == EmptyIllust())
  {
    RecentRunIsLeadingRun(firstPage + laterPages, amountToSearch, dateThreshold);
    var k := FirstBookmarkedIsFirst(firstPage + laterPages, amountToSearch);
  }

  // ---------------------------------------------------------------------
  // Cached files

  /** The image files belonging to a cached record, as
      `delete_artist_info_if_exists` removes them: the profile picture of
      `artistId` and the thumbnail of every non-empty slot. */
  function StaleImages(r: ArtistResult, artistId: u32): set<string> {
    {PathToPfp(artistId)} + set k | 0 <= k < |r.illusts| && r.illusts[k].id != 0 :: PathToIllust(r.illusts[k].id)
  }

  /** The index of the first empty slot, or the slot count. */
  function FirstEmptySlot(s: seq<Illustration>): (n: nat)
    ensures n <= |s| && (forall k :: 0 <= k < n ==> s[k].id != 0) && (n < |s| ==> s[n].id == 0)
  {
    if |s| == 0 || s[0].id == 0 then 0 else 1 + FirstEmptySlot(s[1..])
  }

  /** The images the download at lines 209-230 writes: the profile picture
      and the thumbnails up to the first empty slot. */
  function DownloadedImages(r: ArtistResult): set<string> {
    {PathToPfp(r.artist.id)}
      + set k | 0 <= k < FirstEmptySlot(r.illusts) :: PathToIllust(r.illusts[k].id)
  }

  /** When the empty slots are at the end, every non-empty slot's thumbnail
      is downloaded; this is what makes `load_images` find all its files. */
  lemma DownloadCoversEveryIllust(r: ArtistResult, k: nat)
    requires ZerosTrailing(r.illusts) && k < |r.illusts| && r.illusts[k].id != 0
    ensures PathToIllust(r.illusts[k].id) in DownloadedImages(r)
  {
    var n := FirstEmptySlot(r.illusts);
    assert n < |r.illusts| ==> r.illusts[n].id == 0;
    assert k < n;
  }

  /** For a record whose empty slots come last, as `PadRecentIllusts`
      builds them, the files `delete_artist_info_if_exists` removes are
      exactly the files the download wrote: its `remove` calls can only fail
      on a file that went away in between. */
  lemma StaleImagesWereDownloaded(r: ArtistResult)
    requires ZerosTrailing(r.illusts)
    ensures StaleImages(r, r.artist.id) == DownloadedImages(r)
  {
  }

  /** `delete_artist_info_if_exists`. */
  method DeleteArtistInfoIfExists(store: Store, artistId: u32)
    requires store.Valid()
    modifies store`records, store`images
    ensures store.Valid()
    ensures artistId !in old(store.records) ==>
              store.records == old(store.records) && store.images == old(store.images)
    ensures artistId in old(store.records) ==>
              && store.records == old(store.records) - {artistId}
              && store.images == old(store.images) - StaleImages(old(store.records)[artistId], artistId)
  {
    if artistId !in store.records {
      return;
    }
    var file := store.records[artistId];
    var i := 0;
    while i < |file.illusts|
      invariant 0 <= i <= |file.illusts|
      invariant store.records == old(store.records)
      invariant store.images == old(store.images)
                  - set k | 0 <= k < i && file.illusts[k].id != 0 :: PathToIllust(file.illusts[k].id)
    {
      if file.illusts[i].id != 0 {
        store.images := store.images - {PathToIllust(file.illusts[i].id)};
      }
      i := i + 1;
    }
    store.images := store.images - {PathToPfp(artistId)};
    store.records := store.records - {artistId};
  }

  /** `delete_all_artist_info_if_exists`: every .json and .jpeg file goes. */
  method DeleteAllArtistInfoIfExists(store: Store)
    modifies store`records, store`images
    ensures store.records == map[] && store.images == {}
  {
    store.records := map[];
    store.images := {};
  }

  /** `save_result`: the record is filed under its own artist id. */
  method SaveResult(store: Store, result: ArtistResult)
    requires store.Valid() && WellFormed(result)
    modifies store`records
    ensures store.Valid() && store.records == old(store.records)[result.artist.id := result]
  {
    store.records := store.records[result.artist.id := result];
  }

  /** The image downloads at lines 209-230 followed by `save_result`. */
  method StoreDownloadedResult(store: Store, result: ArtistResult)
    requires store.Valid() && WellFormed(result)
    modifies store`records, store`images
    ensures store.Valid()
    ensures store.records == old(store.records)[result.artist.id := result]
    ensures store.images == old(store.images) + DownloadedImages(result)
  {
    var downloaded := {PathToPfp(result.artist.id)};
    var n := FirstEmptySlot(result.illusts);
    var i := 0;
    while i < 4
      invariant 0 <= i <= n
      invariant downloaded == {PathToPfp(result.artist.id)} + set k | 0 <= k < i :: PathToIllust(result.illusts[k].id)
    {
      if result.illusts[i].id == 0 {
        break;
      }
      downloaded := downloaded + {PathToIllust(result.illusts[i].id)};
      i := i + 1;
    }
    assert i == n;
    store.images := store.images + downloaded;
    SaveResult(store, result);
  }

  /** `download_artist_info`: derive the record, download its images, save it. */
  method DownloadArtistInfo(
    store: Store, user: RawUser, firstPage: seq<RawIllust>, laterPages: seq<RawIllust>,
    amountToSearch: int, dateThreshold: string, tz: string, localize: (string, string) -> string)
    returns (result: ArtistResult)
    requires store.Valid()
    modifies store`records, store`images
    ensures result == DerivedResult(user, firstPage, laterPages, amountToSearch, dateThreshold, tz, localize)
    ensures store.Valid()
    ensures store.records == old(store.records)[user.id := result]
    ensures store.images == old(store.images) + DownloadedImages(result)
  {
    var slots := PadRecentIllusts(firstPage, tz, localize);
    var recentCount, bookmarked := ScanIllusts(firstPage + laterPages, amountToSearch, dateThreshold);
    var lastBookmarked := match bookmarked
      case Some(b) => FormatIllust(b, tz, localize)
      case None => EmptyIllust();
    var artist := Artist(user.name, user.id, recentCount, user.isFollowed);
    result := ArtistResult(artist, lastBookmarked, slots);
    StoreDownloadedResult(store, result);
  }

  /** The timezone `prepare_dai` hands on. */
  function EffectiveTimezone(tz: string): (r: string)
    ensures |r| > 0
    ensures |tz| > 0 ==> r == tz
  {
    if |tz| == 0 then HELPER_DEFAULT_TIMEZONE else tz
  }

  /** `prepare_dai`: the cached record and images of `artistId` are deleted
      before the download, so a refresh never keeps the old files. */
  method PrepareDai(
    store: Store, artistId: u32, amountToSearch: int, tz: string,
    user: RawUser, firstPage: seq<RawIllust>, laterPages: seq<RawIllust>, dateThreshold: string,
    localize: (string, string) -> string)
    returns (result: ArtistResult)
    requires store.Valid()
    modifies store`records, store`images
    ensures result == DerivedResult(
              user, firstPage, laterPages, amountToSearch, dateThreshold, EffectiveTimezone(tz), localize)
    ensures store.Valid()
    ensures store.records == (old(store.records) - {artistId})[user.id := result]
    ensures store.images ==
              (old(store.images)
                - (if artistId in old(store.records) then StaleImages(old(store.records)[artistId], artistId) else {}))
              + DownloadedImages(result)
  {
    var zone := if |tz| == 0 then HELPER_DEFAULT_TIMEZONE else tz;
    DeleteArtistInfoIfExists(store, artistId);
    result := DownloadArtistInfo(store, user, firstPage, laterPages, amountToSearch, dateThreshold, zone, localize);
  }

  // ---------------------------------------------------------------------
  // The artist list

  /** artists.json as `download_artist_list` writes it: the followed ids in
      reverse order, none of them checked. */
  function FreshQueue(ids: seq<u32>): (r: seq<Entry>)
    ensures |r| == |ids|
    ensures forall j :: 0 <= j < |ids| ==> r[j] == (ids[|ids| - 1 - j], false)
  {
    seq(|ids|, j requires 0 <= j < |ids| => (ids[|ids| - 1 - j], false))
  }

  /** A fresh queue satisfies the watermark with mark 0. */
  lemma FreshQueueWatermark(ids: seq<u32>)
    ensures WatermarkAt(FreshQueue(ids), 0)
  {
  }

  /** `download_artist_list`: the caller's `page_limit` is overridden by 1,
      so only the first page of followed users is read. */
  method DownloadArtistList(store: Store, firstPage: seq<u32>)
    modifies store`artistsFile, store`listWrites, store`records, store`images
    ensures store.Valid()
    ensures store.artistsFile == Stored(FreshQueue(firstPage))
    ensures store.records == map[] && store.images == {}
    ensures store.listWrites == old(store.listWrites) + 1
  {
    DeleteAllArtistInfoIfExists(store);
    var artistList: seq<Entry> := [];
    for i := 0 to |firstPage|
      invariant store.records == map[] && store.images == {}
      invariant artistList == seq(i, j requires 0 <= j < i => (firstPage[j], false))
    {
      artistList := artistList + [(firstPage[i], false)];
    }
    // artist_list.reverse()
    var reversed: seq<Entry> := [];
    for i := 0 to |artistList|
      invariant store.records == map[] && store.images == {}
      invariant reversed == seq(i, j requires 0 <= j < i => artistList[|artistList| - 1 - j])
    {
      reversed := reversed + [artistList[|artistList| - 1 - i]];
    }
    store.SaveArtistList(reversed);
  }

  // ---------------------------------------------------------------------
  // Bookmark and follow toggles

  /** The success rule of `toggle_bookmark` and `toggle_follow`: either the
      cached flag already disagreed with pixiv (a toggle made elsewhere), or
      pixiv's flag changed across the add/delete call. */
  function ToggleSucceeded(cached: bool, remoteBefore: bool, remoteAfter: bool): bool {
    cached != remoteBefore || remoteBefore != remoteAfter
  }

  /** pixiv's flag once the helper is done: no call is made on a desync. */
  function RemoteFlagAfter(cached: bool, remoteBefore: bool, remoteAfter: bool): bool {
    if cached != remoteBefore then remoteBefore else remoteAfter
  }

  /** Whatever pixiv answered, after a toggle the cached flag agrees with
      pixiv's; and a success always reports a flipped cached flag. */
  lemma ToggleResynchronises(cached: bool, remoteBefore: bool, remoteAfter: bool)
    ensures (if ToggleSucceeded(cached, remoteBefore, remoteAfter) then !cached else cached)
            == RemoteFlagAfter(cached, remoteBefore, remoteAfter)
  {
  }

  function FlipBookmark(r: ArtistResult, k: nat): (f: ArtistResult)
    requires k < |r.illusts|
    ensures |f.illusts| == |r.illusts| && f.artist == r.artist && f.lastBookmarked == r.lastBookmarked
    ensures f.illusts[k].isBookmarked == !r.illusts[k].isBookmarked
    ensures f.illusts[k].(isBookmarked := r.illusts[k].isBookmarked) == r.illusts[k]
    ensures forall j :: 0 <= j < |r.illusts| && j != k ==> f.illusts[j] == r.illusts[j]
  {
    r.(illusts := r.illusts[k := r.illusts[k].(isBookmarked := !r.illusts[k].isBookmarked)])
  }

  function FlipFollow(r: ArtistResult): (f: ArtistResult)
    ensures f.artist.isFollowed == !r.artist.isFollowed
    ensures f.artist.(isFollowed := r.artist.isFollowed) == r.artist
    ensures f.illusts == r.illusts && f.lastBookmarked == r.lastBookmarked
  {
    r.(artist := r.artist.(isFollowed := !r.artist.isFollowed))
  }

  /** Two flips of the same flag restore the record. */
  lemma FlipTwiceRestores(r: ArtistResult, k: nat)
    requires k < |r.illusts|
    ensures FlipBookmark(FlipBookmark(r, k), k) == r
    ensures FlipFollow(FlipFollow(r)) == r
  {
  }

  /** `toggle_bookmark`: on success the slot's flag in the cached record is
      flipped and the record saved (under the id it carries). */
  method ToggleBookmark(store: Store, artistId: u32, illustIndex: nat, remoteBefore: bool, remoteAfter: bool)
    returns (success: bool)
    requires store.Valid() && artistId in store.records && illustIndex < 4
    modifies store`records
    ensures store.Valid()
    ensures var r := old(store.records)[artistId];
            && success == ToggleSucceeded(r.illusts[illustIndex].isBookmarked, remoteBefore, remoteAfter)
            && store.records == if success then old(store.records)[r.artist.id := FlipBookmark(r, illustIndex)]
                                else old(store.records)
  {
    var artistJson := store.records[artistId];
    var isBookmarked := artistJson.illusts[illustIndex].isBookmarked;
    var oldBookmarkStatus := remoteBefore;
    success := false;
    if isBookmarked != oldBookmarkStatus {
      success := true;
    } else {
      // illust_bookmark_delete / illust_bookmark_add, then re-read
      var newBookmarkStatus := remoteAfter;
      if oldBookmarkStatus != newBookmarkStatus {
        success := true;
      }
    }
    if success {
      SaveResult(store, FlipBookmark(artistJson, illustIndex));
    }
  }

  /** `toggle_follow`: the same rule for the artist's follow flag. */
  method ToggleFollow(store: Store, artistId: u32, remoteBefore: bool, remoteAfter: bool)
    returns (success: bool)
    requires store.Valid() && artistId in store.records
    modifies store`records
    ensures store.Valid()
    ensures var r := old(store.records)[artistId];
            && success == ToggleSucceeded(r.artist.isFollowed, remoteBefore, remoteAfter)
            && store.records == if success then old(store.records)[r.artist.id := FlipFollow(r)]
                                else old(store.records)
  {
    var artistJson := store.records[artistId];
    var isFollowed := artistJson.artist.isFollowed;
    var oldFollowStatus := remoteBefore;
    success := false;
    if isFollowed != oldFollowStatus {
      success := true;
    } else {
      // user_follow_delete / user_follow_add, then re-read
      var newFollowStatus := remoteAfter;
      if oldFollowStatus != newFollowStatus {
        success := true;
      }
    }
    if success {
      SaveResult(store, FlipFollow(artistJson));
    }
  }
}
