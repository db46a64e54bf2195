/** The handlers of the main window, src/main_win.rs: what a click opens
    externally and what the footer buttons do to the review queue. The
    process that opens a file or a URL (`cmd /C start`) is left out; a
    click is modelled by the string it hands over. */
module MainWin {
  import opened Types
  import opened Text
  import opened FileHandler
  import opened Data
  import Helper

  const ARTIST_URL_PREFIX: string := "https://www.pixiv.net/en/users/"
  const ILLUST_URL_PREFIX: string := "https://www.pixiv.net/en/artworks/"

  /** `open_artist_url`: the artist's pixiv page. */
  function ArtistUrl(id: u32): string {
    ARTIST_URL_PREFIX + NatToString(id)
  }

  /** `open_illust_url`: the illustration's pixiv page. */
  function IllustUrl(id: u32): string {
    ILLUST_URL_PREFIX + NatToString(id)
  }

  /** Different artists have different pages. */
  lemma ArtistUrlInjective(a: u32, b: u32)
    requires ArtistUrl(a) == ArtistUrl(b)
    ensures a == b
  {
    assert NatToString(a) == ArtistUrl(a)[|ARTIST_URL_PREFIX|..];
    assert NatToString(b) == ArtistUrl(b)[|ARTIST_URL_PREFIX|..];
    NatToStringInjective(a, b);
  }

  /** Different illustrations have different pages. */
  lemma IllustUrlInjective(a: u32, b: u32)
    requires IllustUrl(a) == IllustUrl(b)
    ensures a == b
  {
    assert NatToString(a) == IllustUrl(a)[|ILLUST_URL_PREFIX|..];
    assert NatToString(b) == IllustUrl(b)[|ILLUST_URL_PREFIX|..];
    NatToStringInjective(a, b);
  }

  /** An artist's page is never an illustration's page. */
  lemma ArtistUrlIsNeverIllustUrl(a: u32, b: u32)
    ensures ArtistUrl(a) != IllustUrl(b)
  {
    assert ArtistUrl(a)[25] == 'u';
    assert IllustUrl(b)[25] == 'a';
  }

  /** The clickable widgets of the main window that open something. */
  datatype Clickable =
    | ArtistName
    | LastBookmark
    | ProfilePicture
    | IllustImage(slot: nat)
    | OpenButton(slot: nat)

  /** What a click on `w` hands to `execute_process`, if anything. A name
      or a button acts only for a non-zero id; an image is clickable only
      while one is shown, and opens the cached file of the id in its
      place. */
  function ClickTarget(s: Screen, w: Clickable): (r: Option<string>)
    requires w.IllustImage? || w.OpenButton? ==> w.slot < |s.illusts| && w.slot < |s.illustImages|
    ensures w == ArtistName ==> (r.Some? <==> s.artist.id != 0)
    ensures w == LastBookmark ==> (r.Some? <==> s.lastBookmarked.id != 0)
    ensures w == ProfilePicture ==> (r.Some? <==> s.pfpImage.Some?)
    ensures w.IllustImage? ==> (r.Some? <==> s.illustImages[w.slot].Some?)
    ensures w.OpenButton? ==> (r.Some? <==> s.illusts[w.slot].id != 0)
  {
    match w
    case ArtistName => if s.artist.id != 0 then Some(ArtistUrl(s.artist.id)) else None
    case LastBookmark => if s.lastBookmarked.id != 0 then Some(IllustUrl(s.lastBookmarked.id)) else None
    case ProfilePicture => if s.pfpImage.Some? then Some(PathToPfp(s.artist.id)) else None
    case IllustImage(k) => if s.illustImages[k].Some? then Some(PathToIllust(s.illusts[k].id)) else None
    case OpenButton(k) => if s.illusts[k].id != 0 then Some(IllustUrl(s.illusts[k].id)) else None
  }

  /** Once `load_images` has run, a click on an image opens exactly the
      file that is shown, and an image is clickable exactly when the
      matching name or Open button is. */
  lemma ImageClickOpensShownFile(s: Screen, k: nat)
    requires k < |s.illusts| && |s.illustImages| == |s.illusts|
    requires s.pfpImage == PfpImage(s.artist.id) && s.illustImages == IllustImages(s.illusts)
    ensures ClickTarget(s, ProfilePicture) == (if s.pfpImage.Some? then Some(s.pfpImage.value.path) else None)
    ensures ClickTarget(s, IllustImage(k)) ==
              (if s.illustImages[k].Some? then Some(s.illustImages[k].value.path) else None)
    ensures ClickTarget(s, ProfilePicture).Some? <==> ClickTarget(s, ArtistName).Some?
    ensures ClickTarget(s, IllustImage(k)).Some? <==> ClickTarget(s, OpenButton(k)).Some?
  {
  }

  /** The "<" button: the previous entry, unless the first is on display. */
  method PrevClicked(data: AppData, downloaded: ArtistResult)
    requires data.DisplayValid() && WellFormed(downloaded)
    modifies data`screen, data.store`artistsFile, data.store`listWrites, data.store`records, data.store`images
    ensures data.DisplayValid()
    ensures var i := old(data.screen.artistIndex);
            if i != 0 && old(data.CanVisit(i - 1)) then
              && data.VisitedFrom(old(data.store.artistsFile).entries, i - 1, false, downloaded,
                                  old(data.store.records), old(data.store.images))
              && data.screen.artistIndex == i - 1
            else
              data.Kept(old(data.screen), old(data.store.records), old(data.store.images), old(data.store.artistsFile))
    ensures old(data.QueueValid()) ==> data.QueueValid()
  {
    if data.screen.artistIndex != 0 {
      data.ChangeArtist(data.screen.artistIndex - 1, false, downloaded);
    }
  }

  /** The ">" button: the next entry, if the list has one; past the end the
      guards of `change_artist` leave everything as it was. The source's
      u16 `+ 1` must not overflow. */
  method NextClicked(data: AppData, downloaded: ArtistResult)
    requires data.DisplayValid() && WellFormed(downloaded) && data.screen.artistIndex + 1 < U16_LIMIT
    modifies data`screen, data.store`artistsFile, data.store`listWrites, data.store`records, data.store`images
    ensures data.DisplayValid()
    ensures var i := old(data.screen.artistIndex) + 1;
            if old(data.CanVisit(i)) then
              && data.VisitedFrom(old(data.store.artistsFile).entries, i, false, downloaded,
                                  old(data.store.records), old(data.store.images))
              && data.screen.artistIndex == i
            else
              data.Kept(old(data.screen), old(data.store.records), old(data.store.images), old(data.store.artistsFile))
    ensures old(data.QueueValid()) ==> data.QueueValid()
  {
    data.ChangeArtist(data.screen.artistIndex + 1, false, downloaded);
  }

  /** The Reload button: the entry on display is downloaded again, and the
      position does not move. */
  method ReloadClicked(data: AppData, downloaded: ArtistResult)
    requires data.DisplayValid() && WellFormed(downloaded)
    modifies data`screen, data.store`artistsFile, data.store`listWrites, data.store`records, data.store`images
    ensures data.DisplayValid()
    ensures data.screen.artistIndex == old(data.screen.artistIndex)
    ensures var i := old(data.screen.artistIndex);
            if old(data.CanVisit(i)) then
              var l := old(data.store.artistsFile).entries;
              && data.VisitedFrom(l, i, true, downloaded, old(data.store.records), old(data.store.images))
              && data.RefreshedFrom(old(data.store.records), old(data.store.images), l[i].0, downloaded)
            else
              data.Kept(old(data.screen), old(data.store.records), old(data.store.images), old(data.store.artistsFile))
    ensures old(data.QueueValid()) ==> data.QueueValid()
  {
    data.ChangeArtist(data.screen.artistIndex, true, downloaded);
  }

  /** The Bookmark button of slot `slot`: `toggle_bookmark` only for a
      non-zero illustration id. */
  method BookmarkClicked(data: AppData, slot: nat, remoteBefore: bool, remoteAfter: bool)
    requires data.DisplayValid() && slot < 4
    requires data.screen.illusts[slot].id != 0 ==> data.screen.artist.id in data.store.records
    modifies data`screen, data.store`records
    ensures data.DisplayValid()
    ensures old(data.screen.illusts[slot].id) == 0 ==>
              data.screen == old(data.screen) && data.store.records == old(data.store.records)
    ensures old(data.screen.illusts[slot].id) != 0 ==>
              var id := old(data.screen).artist.id;
              var cached := old(data.store.records)[id];
              var success := Helper.ToggleSucceeded(cached.illusts[slot].isBookmarked, remoteBefore, remoteAfter);
              var shown := old(data.screen).illusts[slot];
              && data.screen == (if success then old(data.screen).(illusts := old(data.screen).illusts[slot := shown.(isBookmarked := !shown.isBookmarked)])
                                 else old(data.screen))
              && data.store.records == (if success then old(data.store.records)[id := Helper.FlipBookmark(cached, slot)]
                                        else old(data.store.records))
    ensures old(data.ShowsCachedRecord()) ==> data.ShowsCachedRecord()
    ensures old(data.QueueValid()) ==> data.QueueValid()
  {
    if data.screen.illusts[slot].id != 0 {
      data.ToggleBookmark(slot, remoteBefore, remoteAfter);
    }
  }
}
