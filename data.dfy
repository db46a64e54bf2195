/** The application state of src/data.rs: the settings and their drafts,
    the artist on display and its position in the review queue. The methods
    of `AppData` also hold `toggle_bookmark`, `toggle_follow` and
    `reset_artist_list` of src/pixiv_handler.rs and `prepare_artists` /
    `prepare_settings` of src/file_handler.rs, which in the source call and
    are called by `AppData` methods.

    What the Python helper answers is passed in: whether a token or a
    timezone is accepted, the record printed by `download_artist_info`
    (the record `Helper.PrepareDai` derives), the first page of followed
    artists, and pixiv's flag before and after a toggle. */
module Data {
  import opened Types
  import opened Text
  import opened FileHandler
  import Helper
  import PixivHandler

  /** A decoded `ImageBuf`, identified by the file it was read from. */
  datatype Image = Image(path: string)

  const INITIAL_WINDOW_TITLE: string := "<- Click on the S and change your token"
  const INITIAL_JUMP_INDEX: string := "0"

  /** `UserData::load_default`. */
  function LoadDefault(): UserData {
    UserData("None", DEFAULT_AMOUNT_TO_SEARCH, DEFAULT_TIMEZONE)
  }

  /** The default settings pass the checks `apply_settings` makes. */
  lemma DefaultSettingsAreValid()
    ensures PixivHandler.CheckAmountToSearchValidity(LoadDefault().amountToSearch)
    ensures |LoadDefault().timezone| > 0
  {
    PixivHandler.DefaultAmountIsValid();
  }

  /** `Artist::load_empty`. */
  function EmptyArtist(): Artist {
    Artist("Artist name", 0, 0, false)
  }

  /** `Illustration::load_empty`. */
  function EmptyIllustration(): Illustration {
    Illustration(0, 0, 0, "Upload date", false)
  }

  /** `Illustration::load_empty_list`. */
  function EmptyIllustrations(): seq<Illustration> {
    [EmptyIllustration(), EmptyIllustration(), EmptyIllustration(), EmptyIllustration()]
  }

  // ---------------------------------------------------------------------
  // Derived display state

  /** `make_window_title`; the position is shown counting from 1. */
  function MakeWindowTitle(artistName: string, artistIndex: u16, totalArtists: u16): string {
    "PAR - " + (artistName + (" - " + (NatToString(artistIndex + 1) + ("/" + NatToString(totalArtists)))))
  }

  /** A number, '/', a number: both numbers can be read back. */
  lemma SplitAtSlash(a: nat, b: nat, c: nat, d: nat)
    requires NatToString(a) + ("/" + NatToString(b)) == NatToString(c) + ("/" + NatToString(d))
    ensures a == c && b == d
  {
    SplitAfterDigits(NatToString(a), "/" + NatToString(b), NatToString(c), "/" + NatToString(d));
    assert NatToString(b) == ("/" + NatToString(b))[1..];
    assert NatToString(d) == ("/" + NatToString(d))[1..];
    NatToStringInjective(a, c);
    NatToStringInjective(b, d);
  }

  /** For a given artist name the title tells the position and the total. */
  lemma TitleDeterminesPosition(name: string, i1: u16, t1: u16, i2: u16, t2: u16)
    requires MakeWindowTitle(name, i1, t1) == MakeWindowTitle(name, i2, t2)
    ensures i1 == i2 && t1 == t2
  {
    var n := |"PAR - "| + |name| + |" - "|;
    var x1 := NatToString(i1 + 1) + ("/" + NatToString(t1));
    var x2 := NatToString(i2 + 1) + ("/" + NatToString(t2));
    assert x1 == MakeWindowTitle(name, i1, t1)[n..];
    assert x2 == MakeWindowTitle(name, i2, t2)[n..];
    SplitAtSlash(i1 + 1, t1, i2 + 1, t2);
  }

  /** The profile picture `load_images` loads for an artist id. */
  function PfpImage(artistId: u32): (r: Option<Image>)
    ensures r.Some? <==> artistId != 0
  {
    if artistId != 0 then Some(Image(PathToPfp(artistId))) else None
  }

  /** The thumbnails `load_images` loads for the four slots. */
  function IllustImages(illusts: seq<Illustration>): (r: seq<Option<Image>>)
    ensures |r| == |illusts|
    ensures forall k :: 0 <= k < |illusts| ==> (r[k].Some? <==> illusts[k].id != 0)
  {
    seq(|illusts|, k requires 0 <= k < |illusts| =>
      if illusts[k].id != 0 then Some(Image(PathToIllust(illusts[k].id))) else None)
  }

  /** For a record just downloaded with its empty slots at the end, every
      image `load_images` reads is one the download wrote. */
  lemma LoadedImagesWereDownloaded(r: ArtistResult)
    requires Helper.ZerosTrailing(r.illusts)
    ensures PfpImage(r.artist.id).Some? ==> PfpImage(r.artist.id).value.path in Helper.DownloadedImages(r)
    ensures forall k :: 0 <= k < |r.illusts| && IllustImages(r.illusts)[k].Some? ==>
              IllustImages(r.illusts)[k].value.path in Helper.DownloadedImages(r)
  {
    forall k | 0 <= k < |r.illusts| && IllustImages(r.illusts)[k].Some?
      ensures IllustImages(r.illusts)[k].value.path in Helper.DownloadedImages(r)
    {
      Helper.DownloadCoversEveryIllust(r, k);
    }
  }

  // ---------------------------------------------------------------------
  // The jump index

  /** `jump_index_is_valid`: a u16 between 1 and the number of artists. */
  predicate JumpIndexIsValid(jumpIndex: string, totalArtists: u16) {
    match ParseU16(jumpIndex)
    case None => false
    case Some(num) => !(num == 0 || num > totalArtists)
  }

  /** `get_jump_index`: the 0-based position a valid jump index names. */
  function GetJumpIndex(jumpIndex: string, totalArtists: u16): (r: Option<u16>)
    ensures r.Some? <==> JumpIndexIsValid(jumpIndex, totalArtists)
    ensures r.Some? ==> r.value < totalArtists && ParseU16(jumpIndex) == Some(r.value + 1)
  {
    if JumpIndexIsValid(jumpIndex, totalArtists) then Some(ParseU16(jumpIndex).value - 1) else None
  }

  /** The number shown for a position names that position again. */
  lemma JumpIndexOfPosition(i: u16, totalArtists: u16)
    requires i < totalArtists
    ensures GetJumpIndex(NatToString(i + 1), totalArtists) == Some(i)
  {
    ParseU16OfNatToString(i + 1);
  }

  /** After a jump to `k` the watermark sits just past `k` (or at the end
      when `k` is past the list). */
  lemma JumpWatermark(l: seq<Entry>, k: nat)
    ensures k < |l| ==> k < |MarkedUpTo(l, k)| && WatermarkAt(Visited(MarkedUpTo(l, k), k), k + 1)
    ensures k >= |l| ==> WatermarkAt(MarkedUpTo(l, k), |l|)
  {
    MarkedUpToWatermark(l, k);
    if k < |l| {
      VisitKeepsWatermark(MarkedUpTo(l, k), k, k);
    }
  }

  /** A second jump to the entry a jump landed on leaves the list as the
      first one left it. */
  lemma JumpTwiceIsJumpOnce(l: seq<Entry>, k: nat)
    requires k < |l|
    ensures var once := Visited(MarkedUpTo(l, k), k);
            Visited(MarkedUpTo(once, k), k) == once
  {
    var once := Visited(MarkedUpTo(l, k), k);
    var twice := Visited(MarkedUpTo(once, k), k);
    assert forall j :: 0 <= j < |l| ==> twice[j] == once[j];
  }

  // ---------------------------------------------------------------------
  // The review queue

  /** The rule the queue keeps: artists.json, when it holds a list, has a
      watermark (checked entries up to it, unchecked ones after it); and once
      a valid token is known and the list is not empty, the entry on display
      is a checked one, before the mark, and the total shown is the list's
      length as a `u16`. */
  ghost predicate QueueInvariant(f: ListFile, requiresInitialization: bool, index: nat, total: nat) {
    && HasWatermark(f)
    && (f.Stored? && !requiresInitialization && |f.entries| > 0 ==>
          index < FirstUncheckedFrom(f.entries, 0) && total == |f.entries| % U16_LIMIT)
  }

  /** Visiting an entry at most one past the one on display (the previous,
      the same or the next artist) keeps the rule. */
  lemma QueueAfterVisit(l: seq<Entry>, index: nat, total: nat, i: nat)
    requires QueueInvariant(Stored(l), false, index, total) && i < |l| && i <= index + 1
    ensures QueueInvariant(Stored(Visited(l, i)), false, i, |l| % U16_LIMIT)
  {
    var w := FirstUncheckedFrom(l, 0);
    VisitKeepsWatermark(l, w, i);
    WatermarkIsFirstUnchecked(Visited(l, i), if i == w then w + 1 else w);
  }

  /** A jump to `k` keeps the rule: the marked list has a watermark, and the
      visit of `k` in it leaves `k` before the mark. */
  lemma QueueAfterJump(l: seq<Entry>, k: nat, index: nat, total: nat)
    ensures QueueInvariant(Stored(MarkedUpTo(l, k)), true, index, total)
    ensures k < |l| ==> QueueInvariant(Stored(Visited(MarkedUpTo(l, k), k)), false, k, |l| % U16_LIMIT)
  {
    MarkedUpToWatermark(l, k);
    WatermarkIsFirstUnchecked(MarkedUpTo(l, k), if k < |l| then k else |l|);
    if k < |l| {
      JumpWatermark(l, k);
      WatermarkIsFirstUnchecked(Visited(MarkedUpTo(l, k), k), k + 1);
    }
  }

  /** A fresh queue keeps the rule whether or not its first entry is then
      visited. */
  lemma QueueAfterReset(ids: seq<u32>, requiresInitialization: bool, index: nat, total: nat)
    ensures requiresInitialization || |ids| == 0 ==>
              QueueInvariant(Stored(Helper.FreshQueue(ids)), requiresInitialization, index, total)
    ensures |ids| > 0 ==>
              QueueInvariant(Stored(Visited(Helper.FreshQueue(ids), 0)), false, 0, |ids| % U16_LIMIT)
  {
    var q := Helper.FreshQueue(ids);
    Helper.FreshQueueWatermark(ids);
    WatermarkIsFirstUnchecked(q, 0);
    if |ids| > 0 {
      VisitKeepsWatermark(q, 0, 0);
      WatermarkIsFirstUnchecked(Visited(q, 0), 1);
    }
  }

  /** Resuming a list that has a watermark at `ResumeIndex` and visiting that
      entry establishes the rule. */
  lemma QueueAfterResume(l: seq<Entry>)
    requires |l| > 0 && HasWatermark(Stored(l))
    ensures ResumeIndex(l) < |l|
    ensures QueueInvariant(Stored(Visited(l, ResumeIndex(l))), false, ResumeIndex(l), |l| % U16_LIMIT)
  {
    var w := FirstUncheckedFrom(l, 0);
    var r := ResumeIndex(l);
    ResumeIndexInRange(l);
    ResumeIndexUnderWatermark(l, w);
    VisitKeepsWatermark(l, w, r);
    WatermarkIsFirstUnchecked(Visited(l, r), if r == w then w + 1 else w);
  }

  // ---------------------------------------------------------------------
  // Settings

  /** How `apply_settings` settles one field: the committed value afterwards
      (the draft is set to it as well) and whether it counts as a change.
      `default` is what an empty draft stands for, when the field has one;
      `valid` is the check on the draft. */
  function Settle(committed: string, draft: string, default: Option<string>, valid: bool): (r: (string, bool))
    ensures committed == draft ==> r == (committed, false)
    ensures committed != draft && default.Some? && draft == "" ==> r == (default.value, true)
    ensures committed != draft && !(default.Some? && draft == "") ==>
              r == (if valid then (draft, true) else (committed, false))
  {
    if committed == draft then (committed, false)
    else if default.Some? && |draft| == 0 then (default.value, true)
    else if valid then (draft, true)
    else (committed, false)
  }

  /** One of the three blocks of `apply_settings` (src/data.rs:190-232):
      a differing draft is committed when it is valid, or replaced by the
      default when it is empty and the field has one; an invalid draft is
      rolled back. `value` is what both copies hold afterwards. */
  method SettleField(committed: string, draft: string, default: Option<string>, isValid: bool)
    returns (value: string, changed: bool)
    ensures (value, changed) == Settle(committed, draft, default, isValid)
  {
    value, changed := committed, false;
    if committed != draft {
      if default.Some? && |draft| == 0 {
        value, changed := default.value, true;
      } else if isValid {
        value, changed := draft, true;
      }
    }
  }

  /** What `apply_settings` commits from the trimmed drafts: the new
      settings, whether anything changed (so settings.json is written) and
      whether the token was accepted (so the list is reset). */
  datatype Commit = Commit(settings: UserData, changesMade: bool, tokenAccepted: bool)

  function CommitOf(committed: UserData, tokenDraft: string, amountDraft: string, timezoneDraft: string,
                    tokenIsValid: bool, timezoneIsValid: bool): (r: Commit)
    ensures r.tokenAccepted ==> r.changesMade
    ensures !r.changesMade ==> r.settings == committed
    ensures r.tokenAccepted <==> committed.token != tokenDraft && tokenIsValid
    ensures r.settings.token == if r.tokenAccepted then tokenDraft else committed.token
    // The amount: an unchanged draft keeps it, an empty one restores the
    // default, any other is taken only when the check accepts it.
    ensures r.settings.amountToSearch ==
              if amountDraft == committed.amountToSearch then committed.amountToSearch
              else if amountDraft == "" then DEFAULT_AMOUNT_TO_SEARCH
              else if PixivHandler.CheckAmountToSearchValidity(amountDraft) then amountDraft
              else committed.amountToSearch
    // The timezone, likewise, with the helper's check.
    ensures r.settings.timezone ==
              if timezoneDraft == committed.timezone then committed.timezone
              else if timezoneDraft == "" then DEFAULT_TIMEZONE
              else if timezoneIsValid then timezoneDraft
              else committed.timezone
    // A change is an accepted token, or an amount or timezone draft that
    // differs and is empty or accepted.
    ensures r.changesMade <==>
              || r.tokenAccepted
              || (amountDraft != committed.amountToSearch &&
                  (amountDraft == "" || PixivHandler.CheckAmountToSearchValidity(amountDraft)))
              || (timezoneDraft != committed.timezone && (timezoneDraft == "" || timezoneIsValid))
  {
    var t := Settle(committed.token, tokenDraft, None, tokenIsValid);
    var a := Settle(committed.amountToSearch, amountDraft, Some(DEFAULT_AMOUNT_TO_SEARCH),
                    PixivHandler.CheckAmountToSearchValidity(amountDraft));
    var z := Settle(committed.timezone, timezoneDraft, Some(DEFAULT_TIMEZONE), timezoneIsValid);
    Commit(UserData(t.0, a.0, z.0), t.1 || a.1 || z.1, t.1)
  }

  /** Lines 186-232 of `apply_settings`: the three drafts are trimmed and
      settled one after the other. */
  method SettleDrafts(committed: UserData, tempToken: string, tempAmountToSearch: string, tempTimezone: string,
                      tokenIsValid: bool, timezoneIsValid: bool) returns (c: Commit)
    ensures c == CommitOf(committed, Trim(tempToken), Trim(tempAmountToSearch), Trim(tempTimezone),
                          tokenIsValid, timezoneIsValid)
  {
    var tokenDraft := Trim(tempToken);
    var amountDraft := Trim(tempAmountToSearch);
    var timezoneDraft := Trim(tempTimezone);
    var token, tokenChanged := SettleField(committed.token, tokenDraft, None, tokenIsValid);
    var amountIsValid := PixivHandler.CheckAmountToSearchValidity(amountDraft);
    var amount, amountChanged :=
      SettleField(committed.amountToSearch, amountDraft, Some(DEFAULT_AMOUNT_TO_SEARCH), amountIsValid);
    var timezone, timezoneChanged :=
      SettleField(committed.timezone, timezoneDraft, Some(DEFAULT_TIMEZONE), timezoneIsValid);
    c := Commit(UserData(token, amount, timezone), tokenChanged || amountChanged || timezoneChanged, tokenChanged);
  }

  /** Committing keeps a valid amount valid and a non-empty timezone
      non-empty, whatever the drafts. */
  lemma CommitKeepsSettingsValid(committed: UserData, tokenDraft: string, amountDraft: string,
                                 timezoneDraft: string, tokenIsValid: bool, timezoneIsValid: bool)
    requires PixivHandler.CheckAmountToSearchValidity(committed.amountToSearch) && |committed.timezone| > 0
    ensures var r := CommitOf(committed, tokenDraft, amountDraft, timezoneDraft, tokenIsValid, timezoneIsValid);
            PixivHandler.CheckAmountToSearchValidity(r.settings.amountToSearch) && |r.settings.timezone| > 0
  {
    PixivHandler.DefaultAmountIsValid();
  }

  /** What the main window shows: the record fields, the position, the
      title and the images. */
  datatype Screen = Screen(
    artist: Artist, lastBookmarked: Illustration, illusts: seq<Illustration>,
    artistIndex: u16, totalArtists: u16, hasBeenChecked: bool,
    windowTitle: string, pfpImage: Option<Image>, illustImages: seq<Option<Image>>)

  /** The screen for record `r` shown as entry `index` of `total`. */
  function ScreenOf(r: ArtistResult, index: u16, total: u16, checked: bool): (v: Screen)
    ensures v.illustImages == IllustImages(r.illusts) && v.pfpImage == PfpImage(r.artist.id)
    ensures v.windowTitle == MakeWindowTitle(r.artist.name, index, total)
  {
    Screen(r.artist, r.lastBookmarked, r.illusts, index, total, checked,
           MakeWindowTitle(r.artist.name, index, total), PfpImage(r.artist.id), IllustImages(r.illusts))
  }

  /** The screen `AppData::load` starts with, at position `artistIndex`. */
  function InitialScreen(artistIndex: u16): (v: Screen)
    ensures v.artistIndex == artistIndex && v.totalArtists == 0 && !v.hasBeenChecked
    ensures v.pfpImage == PfpImage(v.artist.id) && v.illustImages == IllustImages(v.illusts)
  {
    Screen(EmptyArtist(), EmptyIllustration(), EmptyIllustrations(), artistIndex, 0, false,
           INITIAL_WINDOW_TITLE, None, [None, None, None, None])
  }

  // ---------------------------------------------------------------------
  // AppData

  class AppData {
    /** The working directory the application reads and writes. */
    const store: Store

    var requiresInitialization: bool
    var settingsWindowIsOpen: bool
    var infoWindowIsOpen: bool
    var jumpIndex: string
    var settings: UserData
    var tempToken: string
    var tempAmountToSearch: string
    var tempTimezone: string
    /** The main window's fields `artist`, `last_bookmarked`, `illusts`,
        `artist_index`, `total_artists`, `has_been_checked`, `window_title`,
        `pfp_image` and `illust_images`, held together. */
    var screen: Screen

    /** Settings and confirmation windows created and not yet closed. */
    ghost var openSettingsWindows: nat
    ghost var openInfoWindows: nat

    /** The main window and the store are well formed, and so are the
        dialogs. */
    ghost predicate Valid()
      reads this`screen, store`records, store`artistsFile,
            this`openSettingsWindows, this`openInfoWindows, this`settingsWindowIsOpen,
            this`infoWindowIsOpen, this`jumpIndex, this`tempToken, this`tempAmountToSearch,
            this`tempTimezone, this`settings
    {
      DisplayValid() && WindowsValid()
    }

    /** The slot sequences have four entries, the store is well formed, and
        a non-zero count of artists was read from a list that is still
        there. */
    ghost predicate DisplayValid()
      reads this`screen, store`records, store`artistsFile
    {
      && |screen.illusts| == 4 && |screen.illustImages| == 4
      && store.Valid()
      && (screen.totalArtists > 0 ==> store.artistsFile.Stored?)
    }

    /** Every open flag accounts for exactly the windows created and not
        closed (so at most one of each kind is open), a confirmation is only
        open over the settings window, and the drafts equal the committed
        settings whenever the settings window is closed. */
    ghost predicate WindowsValid()
      reads this`openSettingsWindows, this`openInfoWindows, this`settingsWindowIsOpen,
            this`infoWindowIsOpen, this`jumpIndex, this`tempToken, this`tempAmountToSearch,
            this`tempTimezone, this`settings
    {
      && openSettingsWindows == (if settingsWindowIsOpen then 1 else 0)
      && openInfoWindows == (if infoWindowIsOpen then 1 else 0)
      && (infoWindowIsOpen ==> settingsWindowIsOpen)
      && (!settingsWindowIsOpen ==> Cancelled())
    }

    /** The queue rule holds for artists.json, the token flag and the
        position on display. */
    ghost predicate QueueValid()
      reads this`requiresInitialization, this`screen, store`artistsFile
    {
      QueueInvariant(store.artistsFile, requiresInitialization, screen.artistIndex, screen.totalArtists)
    }

    /** The main window shows record `r` as entry `index` of `total`. */
    ghost predicate Shows(r: ArtistResult, index: u16, total: u16, checked: bool)
      reads this`screen
    {
      screen == ScreenOf(r, index, total, checked)
    }

    /** The artist on display is the cached record filed under its id. */
    ghost predicate ShowsCachedRecord()
      reads this`screen, store`records
    {
      && screen.artist.id in store.records
      && store.records[screen.artist.id] == ArtistResult(screen.artist, screen.lastBookmarked, screen.illusts)
    }

    /** `change_artist(index, _)` gets past its guards. */
    ghost predicate CanVisit(index: u16)
      reads this`requiresInitialization, store`artistsFile
    {
      !requiresInitialization && store.artistsFile.Stored? && index < |store.artistsFile.entries|
    }

    /** What `prepare_dai` does to a cache that held `records0` and
        `images0` when it prints `downloaded` for `artistId`: the old record
        and its images go, the new ones come. */
    ghost predicate RefreshedFrom(
      records0: map<u32, ArtistResult>, images0: set<string>, artistId: u32, downloaded: ArtistResult)
      reads store`records, store`images
    {
      && store.records == (records0 - {artistId})[downloaded.artist.id := downloaded]
      && store.images ==
           (images0 - (if artistId in records0 then Helper.StaleImages(records0[artistId], artistId) else {}))
           + Helper.DownloadedImages(downloaded)
    }

    /** A successful `change_artist(index, redownload)` over the list `l` and
        the cache `records0`/`images0`: the entry is marked checked, the
        record is downloaded exactly when asked to or when none is cached,
        and the main window shows it. */
    ghost predicate VisitedFrom(
      l: seq<Entry>, index: u16, redownload: bool, downloaded: ArtistResult,
      records0: map<u32, ArtistResult>, images0: set<string>)
      requires index < |l|
      reads this`screen, store`artistsFile, store`records, store`images
    {
      var id := l[index].0;
      var download := redownload || id !in records0;
      && store.artistsFile == Stored(Visited(l, index))
      && (if download then RefreshedFrom(records0, images0, id, downloaded)
          else store.records == records0 && store.images == images0)
      && Shows(if download then downloaded else records0[id], index, |l| % U16_LIMIT, l[index].1)
    }

    /** The main window, the cache and artists.json are as given. */
    ghost predicate Kept(before: Screen, records0: map<u32, ArtistResult>, images0: set<string>, artistsFile0: ListFile)
      reads this`screen, store`artistsFile, store`records, store`images
    {
      (screen, store.records, store.images, store.artistsFile) == (before, records0, images0, artistsFile0)
    }

    /** `reset_artist_list`: a fresh queue from the first page of followed
        artists, an empty cache, then `change_artist(0, false)`, which does
        nothing without a valid token or with an empty queue. */
    ghost predicate ListReset(firstPage: seq<u32>, downloaded: ArtistResult, before: Screen)
      reads this`requiresInitialization, this`screen, store`artistsFile, store`records, store`images
    {
      var q := Helper.FreshQueue(firstPage);
      if requiresInitialization || |q| == 0 then Kept(before, map[], {}, Stored(q))
      else Kept(ScreenOf(downloaded, 0, |q| % U16_LIMIT, false), map[downloaded.artist.id := downloaded],
                Helper.DownloadedImages(downloaded), Stored(Visited(q, 0)))
    }

    /** The settings, the drafts, settings.json and the token flag after
        committing `c` over the given earlier file, write count and flag. */
    ghost predicate DraftsCommitted(c: Commit, settingsFile0: Option<UserData>, settingsWrites0: nat, requiresInitialization0: bool)
      reads this`settings, this`tempToken, this`tempAmountToSearch, this`tempTimezone,
            this`requiresInitialization, store`settingsFile, store`settingsWrites
    {
      && settings == c.settings
      && tempToken == c.settings.token && tempAmountToSearch == c.settings.amountToSearch
      && tempTimezone == c.settings.timezone
      && store.settingsFile == (if c.changesMade then Some(settings) else settingsFile0)
      && store.settingsWrites == settingsWrites0 + (if c.changesMade then 1 else 0)
      && requiresInitialization == (requiresInitialization0 && !c.tokenAccepted)
    }

    /** The drafts as `cancel_settings` leaves them. */
    ghost predicate Cancelled()
      reads this`jumpIndex, this`tempToken, this`tempAmountToSearch, this`tempTimezone, this`settings
    {
      && jumpIndex == INITIAL_JUMP_INDEX
      && tempToken == settings.token && tempAmountToSearch == settings.amountToSearch
      && tempTimezone == settings.timezone
    }

    /** The state `AppData::load` builds from the settings `u`, the token
        answer, the list file `l` and the cache `records0`/`images0`: the
        drafts equal the settings, no dialog is open, and with a valid token
        and a list the resumed entry is visited; otherwise the main window
        keeps its initial screen at the resumed position. */
    ghost predicate LoadedFrom(u: UserData, tokenIsValid: bool, l: ListFile,
                               records0: map<u32, ArtistResult>, images0: set<string>, downloaded: ArtistResult)
      requires l.Stored? ==> |l.entries| > 0
      reads this`settings, this`requiresInitialization, this`tempToken, this`tempAmountToSearch,
            this`tempTimezone, this`jumpIndex, this`settingsWindowIsOpen, this`infoWindowIsOpen,
            this`screen, store`artistsFile, store`records, store`images
    {
      && settings == u && requiresInitialization == !tokenIsValid
      && tempToken == u.token && tempAmountToSearch == u.amountToSearch && tempTimezone == u.timezone
      && jumpIndex == INITIAL_JUMP_INDEX && !settingsWindowIsOpen && !infoWindowIsOpen
      && if requiresInitialization || !l.Stored? then
           Kept(InitialScreen(if l.Stored? then ResumeIndex(l.entries) else 0), records0, images0, l)
         else
           && ResumeIndex(l.entries) < |l.entries|
           && VisitedFrom(l.entries, ResumeIndex(l.entries), false, downloaded, records0, images0)
    }

    /** `AppData::load`: settings.json is read (its parse is unwrapped), the
        helper is asked about the token, the queue position is resumed and
        that artist is loaded. A list with a watermark, as the application
        writes them, leaves the queue rule holding. */
    constructor Load(store: Store, tokenIsValid: bool, downloaded: ArtistResult)
      requires store.Valid() && WellFormed(downloaded) && store.settingsFile.Some?
      requires store.artistsFile.Stored? ==> |store.artistsFile.entries| > 0
      modifies store`artistsFile, store`listWrites, store`records, store`images
      ensures Valid() && this.store == store
      ensures LoadedFrom(old(store.settingsFile).value, tokenIsValid, old(store.artistsFile),
                         old(store.records), old(store.images), downloaded)
      ensures HasWatermark(old(store.artistsFile)) ==> QueueValid()
    {
      var userData := store.settingsFile.value;
      var resumeAt := store.GetLastCheckedArtistIndex();
      this.store := store;
      requiresInitialization := !tokenIsValid;
      settingsWindowIsOpen := false;
      infoWindowIsOpen := false;
      jumpIndex := INITIAL_JUMP_INDEX;
      settings := userData;
      tempToken := userData.token;
      tempAmountToSearch := userData.amountToSearch;
      tempTimezone := userData.timezone;
      screen := InitialScreen(resumeAt);
      openSettingsWindows := 0;
      openInfoWindows := 0;
      new;
      if store.artistsFile.Stored? {
        ResumeIndexInRange(store.artistsFile.entries);
      }
      ChangeArtist(resumeAt, false, downloaded);
      if tokenIsValid && old(store.artistsFile).Stored? && HasWatermark(old(store.artistsFile)) {
        QueueAfterResume(old(store.artistsFile).entries);
      }
    }

    /** `load_window_title`. */
    method LoadWindowTitle()
      modifies this`screen
      ensures screen == old(screen).(windowTitle := MakeWindowTitle(screen.artist.name, screen.artistIndex, screen.totalArtists))
    {
      screen := screen.(windowTitle := MakeWindowTitle(screen.artist.name, screen.artistIndex, screen.totalArtists));
    }

    /** `load_images`: an image for the artist and for every slot whose id is
        not 0, none for the others. */
    method LoadImages()
      requires |screen.illusts| == 4 && |screen.illustImages| == 4
      modifies this`screen
      ensures screen == old(screen).(pfpImage := PfpImage(screen.artist.id), illustImages := IllustImages(screen.illusts))
    {
      if screen.artist.id != 0 {
        screen := screen.(pfpImage := Some(Image(PathToPfp(screen.artist.id))));
      } else {
        screen := screen.(pfpImage := None);
      }
      for index := 0 to 4
        invariant screen == old(screen).(pfpImage := PfpImage(screen.artist.id), illustImages := screen.illustImages)
        invariant |screen.illustImages| == 4
        invariant forall k :: 0 <= k < index ==> screen.illustImages[k] == IllustImages(screen.illusts)[k]
      {
        var slot := screen.illusts[index];
        if slot.id != 0 {
          screen := screen.(illustImages := screen.illustImages[index := Some(Image(PathToIllust(slot.id)))]);
        } else {
          screen := screen.(illustImages := screen.illustImages[index := None]);
        }
      }
      assert screen.illustImages == IllustImages(screen.illusts);
    }

    /** The end of `change_artist` (lines 142-151): the record and the
        position go on display, then the title and the images follow. */
    method ShowRecord(r: ArtistResult, index: u16, total: u16, checked: bool)
      requires WellFormed(r) && |screen.illustImages| == 4
      modifies this`screen
      ensures Shows(r, index, total, checked)
    {
      screen := screen.(artist := r.artist, lastBookmarked := r.lastBookmarked, illusts := r.illusts,
                        artistIndex := index, totalArtists := total, hasBeenChecked := checked);
      LoadWindowTitle();
      LoadImages();
    }

    /** `change_artist`. */
    method ChangeArtist(index: u16, redownloadIfExists: bool, downloaded: ArtistResult)
      requires DisplayValid() && WellFormed(downloaded)
      modifies this`screen, store`artistsFile, store`listWrites, store`records, store`images
      ensures DisplayValid()
      ensures old(CanVisit(index)) ==>
                VisitedFrom(old(store.artistsFile).entries, index, redownloadIfExists, downloaded,
                            old(store.records), old(store.images))
      ensures !old(CanVisit(index)) ==>
                Kept(old(screen), old(store.records), old(store.images), old(store.artistsFile))
      ensures old(CanVisit(index)) ==> ShowsCachedRecord()
      ensures old(QueueValid()) && index <= old(screen.artistIndex) + 1 ==> QueueValid()
    {
      ghost var wasValid := QueueValid();
      ghost var before, f := screen, store.artistsFile;
      if requiresInitialization {
        return;
      }
      var info := store.GetSmallArtistInfo(index);
      if info.None? {
        return;
      }
      var (artistId, checked, count) := info.value;
      ShowEntry(artistId, index, count, checked, redownloadIfExists, downloaded);
      if wasValid && index <= before.artistIndex + 1 {
        QueueAfterVisit(f.entries, before.artistIndex, before.totalArtists, index);
      }
    }

    /** Lines 134-151 of `change_artist`, once the entry is found: the record
        is downloaded when asked to or when none is cached, else read from
        the cache, and goes on display. */
    method ShowEntry(artistId: u32, index: u16, total: u16, checked: bool, redownloadIfExists: bool,
                     downloaded: ArtistResult)
      requires store.Valid() && WellFormed(downloaded) && |screen.illustImages| == 4
      modifies this`screen, store`records, store`images
      ensures store.Valid() && ShowsCachedRecord()
      ensures var download := redownloadIfExists || artistId !in old(store.records);
              && (if download then RefreshedFrom(old(store.records), old(store.images), artistId, downloaded)
                  else store.records == old(store.records) && store.images == old(store.images))
              && Shows(if download then downloaded else old(store.records)[artistId], index, total, checked)
    {
      if redownloadIfExists || artistId !in store.records {
        Helper.DeleteArtistInfoIfExists(store, artistId);
        Helper.StoreDownloadedResult(store, downloaded);
        ShowRecord(downloaded, index, total, checked);
      } else {
        ShowRecord(store.records[artistId], index, total, checked);
      }
    }

    /** The settings half of `apply_settings` (lines 186-236): each draft
        is trimmed and settled on its own, and the settings are saved when
        anything changed. */
    method CommitDrafts(tokenIsValid: bool, timezoneIsValid: bool) returns (tokenAccepted: bool)
      modifies this`tempToken, this`tempAmountToSearch, this`tempTimezone, this`settings,
               this`requiresInitialization, store`settingsFile, store`settingsWrites
      requires WindowsValid()
      ensures WindowsValid()
      ensures var c := CommitOf(old(settings), Trim(old(tempToken)), Trim(old(tempAmountToSearch)),
                                Trim(old(tempTimezone)), tokenIsValid, timezoneIsValid);
              && tokenAccepted == c.tokenAccepted
              && DraftsCommitted(c, old(store.settingsFile), old(store.settingsWrites), old(requiresInitialization))
    {
      var c := SettleDrafts(settings, tempToken, tempAmountToSearch, tempTimezone, tokenIsValid, timezoneIsValid);
      settings := c.settings;
      tempToken, tempAmountToSearch, tempTimezone := c.settings.token, c.settings.amountToSearch, c.settings.timezone;
      if c.tokenAccepted {
        requiresInitialization := false;
      }
      tokenAccepted := c.tokenAccepted;
      if c.changesMade {
        store.SaveSettings(settings);
      }
    }

    /** `apply_settings`: the drafts are committed, then an accepted token
        resets the list. */
    method ApplySettings(tokenIsValid: bool, timezoneIsValid: bool, firstPage: seq<u32>, downloaded: ArtistResult)
      requires Valid() && WellFormed(downloaded)
      modifies this`tempToken, this`tempAmountToSearch, this`tempTimezone, this`settings,
               this`requiresInitialization, store`settingsFile, store`settingsWrites,
               this`screen, store`artistsFile, store`listWrites, store`records, store`images
      ensures Valid()
      ensures var c := CommitOf(old(settings), Trim(old(tempToken)), Trim(old(tempAmountToSearch)),
                                Trim(old(tempTimezone)), tokenIsValid, timezoneIsValid);
              && DraftsCommitted(c, old(store.settingsFile), old(store.settingsWrites), old(requiresInitialization))
              && (c.tokenAccepted ==> ListReset(firstPage, downloaded, old(screen)))
              && (!c.tokenAccepted ==>
                    Kept(old(screen), old(store.records), old(store.images), old(store.artistsFile)))
      ensures !TempTokenHasChanged()
      ensures old(QueueValid()) ==> QueueValid()
    {
      var doResetArtistList := CommitDrafts(tokenIsValid, timezoneIsValid);
      ResetIfAccepted(doResetArtistList, firstPage, downloaded);
    }

    /** The end of `apply_settings` (lines 238-240): the list is reset only
        after a new token was accepted. */
    method ResetIfAccepted(doResetArtistList: bool, firstPage: seq<u32>, downloaded: ArtistResult)
      requires Valid() && WellFormed(downloaded)
      modifies this`screen, store`artistsFile, store`listWrites, store`records, store`images
      ensures Valid()
      ensures if doResetArtistList then ListReset(firstPage, downloaded, old(screen))
              else Kept(old(screen), old(store.records), old(store.images), old(store.artistsFile))
      ensures doResetArtistList || old(QueueValid()) ==> QueueValid()
    {
      if doResetArtistList {
        ResetArtistList(firstPage, downloaded);
      }
    }

    /** `cancel_settings`: the drafts go back to the committed settings.
        Cancelling twice is cancelling once. */
    method CancelSettings()
      modifies this`jumpIndex, this`tempToken, this`tempAmountToSearch, this`tempTimezone
      ensures Cancelled()
      ensures old(Cancelled()) ==> unchanged(this)
    {
      jumpIndex := INITIAL_JUMP_INDEX;
      tempToken := settings.token;
      tempAmountToSearch := settings.amountToSearch;
      tempTimezone := settings.timezone;
    }

    /** `temp_token_has_changed`. */
    predicate TempTokenHasChanged()
      reads this`settings, this`tempToken
    {
      settings.token != tempToken
    }

    /** `jump_to_jump_index`: entries before the target become checked, the
        rest unchecked, then the target is loaded (and so checked). The
        source unwraps the jump index and the list read. */
    method JumpToJumpIndex(downloaded: ArtistResult)
      requires DisplayValid() && WellFormed(downloaded)
      requires JumpIndexIsValid(jumpIndex, screen.totalArtists)
      modifies this`screen, store`artistsFile, store`listWrites, store`records, store`images
      ensures DisplayValid()
      ensures var k := GetJumpIndex(old(jumpIndex), old(screen.totalArtists)).value;
              var m := MarkedUpTo(old(store.artistsFile).entries, k);
              if requiresInitialization || k >= |m| then
                Kept(old(screen), old(store.records), old(store.images), Stored(m))
              else
                VisitedFrom(m, k, false, downloaded, old(store.records), old(store.images))
      ensures old(QueueValid()) ==> QueueValid()
    {
      var newIndex := GetJumpIndex(jumpIndex, screen.totalArtists).value;
      ghost var l := store.artistsFile.entries;
      store.MarkAsCheckedUpToIndex(newIndex);
      ChangeArtist(newIndex, false, downloaded);
      QueueAfterJump(l, newIndex, screen.artistIndex, screen.totalArtists);
    }

    /** `reset_artist_list` (src/pixiv_handler.rs). */
    method ResetArtistList(firstPage: seq<u32>, downloaded: ArtistResult)
      requires DisplayValid() && WellFormed(downloaded)
      modifies this`screen, store`artistsFile, store`listWrites, store`records, store`images
      ensures DisplayValid()
      ensures ListReset(firstPage, downloaded, old(screen))
      ensures QueueValid()
    {
      Helper.DownloadArtistList(store, firstPage);
      ChangeArtist(0, false, downloaded);
      QueueAfterReset(firstPage, requiresInitialization, screen.artistIndex, screen.totalArtists);
      if !requiresInitialization && |Helper.FreshQueue(firstPage)| > 0 {
        assert store.records == map[downloaded.artist.id := downloaded];
        assert store.images == Helper.DownloadedImages(downloaded);
      }
    }

    /** `toggle_bookmark` (src/pixiv_handler.rs): the helper settles the
        cached record; on success the slot's flag on display is flipped.
        The helper reads the cached record, so one must exist. */
    method ToggleBookmark(illustIndex: nat, remoteBefore: bool, remoteAfter: bool)
      requires DisplayValid() && illustIndex < 4 && screen.artist.id in store.records
      modifies this`screen, store`records
      ensures DisplayValid()
      ensures var id := old(screen).artist.id;
              var cached := old(store.records)[id];
              var success := Helper.ToggleSucceeded(cached.illusts[illustIndex].isBookmarked, remoteBefore, remoteAfter);
              var shown := old(screen).illusts[illustIndex];
              && screen == (if success then old(screen).(illusts := old(screen).illusts[illustIndex := shown.(isBookmarked := !shown.isBookmarked)])
                            else old(screen))
              && store.records == (if success then old(store.records)[id := Helper.FlipBookmark(cached, illustIndex)]
                                   else old(store.records))
      ensures old(ShowsCachedRecord()) ==> ShowsCachedRecord()
      ensures old(QueueValid()) ==> QueueValid()
    {
      var success := Helper.ToggleBookmark(store, screen.artist.id, illustIndex, remoteBefore, remoteAfter);
      if success {
        var shown := screen.illusts[illustIndex];
        screen := screen.(illusts := screen.illusts[illustIndex := shown.(isBookmarked := !shown.isBookmarked)]);
      }
    }

    /** `toggle_follow` (src/pixiv_handler.rs): nothing without a valid
        token; otherwise as `ToggleBookmark`, for the follow flag. */
    method ToggleFollow(remoteBefore: bool, remoteAfter: bool)
      requires DisplayValid() && (!requiresInitialization ==> screen.artist.id in store.records)
      modifies this`screen, store`records
      ensures DisplayValid()
      ensures requiresInitialization ==> screen == old(screen) && store.records == old(store.records)
      ensures !requiresInitialization ==>
                var shown := old(screen).artist;
                var cached := old(store.records)[shown.id];
                var success := Helper.ToggleSucceeded(cached.artist.isFollowed, remoteBefore, remoteAfter);
                && screen == (if success then old(screen).(artist := shown.(isFollowed := !shown.isFollowed)) else old(screen))
                && store.records == (if success then old(store.records)[shown.id := Helper.FlipFollow(cached)]
                                     else old(store.records))
      ensures old(ShowsCachedRecord()) ==> ShowsCachedRecord()
      ensures old(QueueValid()) ==> QueueValid()
    {
      if requiresInitialization {
        return;
      }
      var success := Helper.ToggleFollow(store, screen.artist.id, remoteBefore, remoteAfter);
      if success {
        screen := screen.(artist := screen.artist.(isFollowed := !screen.artist.isFollowed));
      }
    }
  }

  /** `prepare_settings` (src/file_handler.rs): a missing settings.json is
      written with the defaults before the state is loaded. */
  method PrepareSettings(store: Store, tokenIsValid: bool, downloaded: ArtistResult) returns (data: AppData)
    requires store.Valid() && WellFormed(downloaded)
    requires store.artistsFile.Stored? ==> |store.artistsFile.entries| > 0
    modifies store`settingsFile, store`settingsWrites,
             store`artistsFile, store`listWrites, store`records, store`images
    ensures fresh(data) && data.Valid() && data.store == store
    ensures var u := if old(store.settingsFile).None? then LoadDefault() else old(store.settingsFile).value;
            data.LoadedFrom(u, tokenIsValid, old(store.artistsFile), old(store.records), old(store.images), downloaded)
    ensures store.settingsFile == Some(data.settings)
    ensures store.settingsWrites == old(store.settingsWrites) + (if old(store.settingsFile).None? then 1 else 0)
    ensures HasWatermark(old(store.artistsFile)) ==> data.QueueValid()
  {
    if store.settingsFile.None? {
      store.SaveSettings(LoadDefault());
    }
    data := new AppData.Load(store, tokenIsValid, downloaded);
  }

  /** `prepare_artists` (src/file_handler.rs): the list is downloaded only
      with a valid token and when artists.json does not exist at all. */
  method PrepareArtists(data: AppData, firstPage: seq<u32>, downloaded: ArtistResult)
    requires data.Valid() && WellFormed(downloaded)
    modifies data`screen, data.store`artistsFile, data.store`listWrites, data.store`records, data.store`images
    ensures data.Valid()
    ensures !data.requiresInitialization && old(data.store.artistsFile).Missing? ==>
              data.ListReset(firstPage, downloaded, old(data.screen))
    ensures !(!data.requiresInitialization && old(data.store.artistsFile).Missing?) ==>
              data.Kept(old(data.screen), old(data.store.records), old(data.store.images), old(data.store.artistsFile))
    ensures old(data.QueueValid()) ==> data.QueueValid()
  {
    if !data.requiresInitialization {
      if data.store.artistsFile.Missing? {
        data.ResetArtistList(firstPage, downloaded);
      }
    }
  }
}
