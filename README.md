# PAR — a Dafny model of the review queue

PAR is a desktop application for going through the
artists a pixiv user follows, one at a time. It keeps a review queue in
artists.json: a list of (artist id, checked) entries, in reverse order of
the follow list. For the artist on display it shows:

- the name and profile picture;
- how many illustrations were uploaded in the last six months;
- the most recently bookmarked illustration;
- the four newest illustrations, each with a bookmark toggle.

A Python helper (`src/i_give_up.py`) does all the talking to pixiv. It
derives the artist record and caches it as `./jsons/{id}.json`, next to the
images under `./images`. The Rust side keeps the application state
(`AppData`) and three windows: main, settings and confirmation.

This project models:

- the queue and its watermark. Every entry before the mark is checked and
  every entry from the mark on is not. The queue rule `Data.QueueInvariant`
  adds that, once a valid token is known and the list is not empty, the
  entry on display lies before the mark and the total shown is the list's
  length. Each `AppData` operation promises `old(QueueValid()) ==>
  QueueValid()`, and loading establishes the rule from a list with a
  watermark. The list reset and the Yes of a list reload establish it
  unconditionally. `AppData.CommitDrafts` on its own may clear the token flag
  while the display is still the initial one. `ApplySettings` follows it with
  the reset, which restores the rule;
- the files of the working directory: the `FileHandler.Store` class;
- the `AppData` state machine: loading, moving through the queue, settings
  drafts and their commit, the jump and the list reset;
- the helper's record derivation, cache maintenance and bookmark/follow
  toggles;
- the rules of the UI callbacks: which click does what, which confirmation
  text is shown, and the bookkeeping of the open windows.

Modules, one per source file:

- `Types`: the records of `src/data.rs` (`Artist`, `Illustration`,
  `ArtistResult`, `UserData`), `u16`/`u32` and `Option`.
- `Text`: decimal printing, Rust's `str::parse` for `u16`/`i16`, Rust's
  `trim` and Python's string `<`.
- `FileHandler`: `src/file_handler.rs`. It has the queue functions and their
  lemmas, the image paths, and the `Store` class, whose fields are
  artists.json, the cached records, the image files and settings.json.
- `Helper`: `src/i_give_up.py`.
- `PixivHandler`: the range check of `src/pixiv_handler.rs`.
- `Data`: `src/data.rs`. It also has, as `AppData` methods,
  `toggle_bookmark`, `toggle_follow` and `reset_artist_list` of
  `src/pixiv_handler.rs`, and `prepare_settings` and `prepare_artists` of
  `src/file_handler.rs`. These functions and `AppData`'s methods call each
  other.
- `InfoWin`, `SettingsWin`, `MainWin`: `src/info_win.rs`,
  `src/settings_win.rs` and `src/main_win.rs`. The Yes button of the
  confirmation window is in `SettingsWin`, because each of its branches ends
  by closing the settings window. It is split into one method per
  `InfoWindowType`: `ConfirmTokenChangeYes`, `ConfirmJumpYes` and
  `ConfirmListReloadYes`.

Several buttons are an operation that already has a member:

| button | member |
|---|---|
| Cancel (settings) | `SettingsWin.CloseSettingsWindow` |
| No (confirmation) | `InfoWin.CloseInfoWindow` |
| Follow (main) | `Data.AppData.ToggleFollow` |
| S (main) | `SettingsWin.OpenSettingsWindow` |

Everything pixiv answers is a parameter of the methods that need it:

- whether a token or a timezone is accepted (`check_token_validity`,
  `check_timezone_validity`);
- the record the helper prints for `download_artist_info`. `Helper.PrepareDai`
  is the helper's derivation of that record from pixiv's pages;
- the first page of followed artist ids;
- pixiv's bookmark or follow flag before and after a toggle.

The clock enters as the date threshold string. The pytz conversion of a date
enters as a function parameter `localize`.

Nine fields of the main window are kept together as one value of type
`Data.Screen` (`artist`, `last_bookmarked`, `illusts`, `artist_index`,
`total_artists`, `has_been_checked`, `window_title`, `pfp_image` and
`illust_images`). A decoded image is modelled by the path it was read from.

Points where the code behaves in a way that is easy to miss, which the model
follows:

- `prepare_dai` deletes the cached record and its images before it
  downloads (src/i_give_up.py:129-137). A failed fetch therefore leaves no
  cache for that artist.
- An empty draft stands for the default only for the amount and the
  timezone (src/data.rs:202-232). The token has no default
  (src/data.rs:190-200): an empty token draft is validated like any other.
- The doc comment of `check_amount_to_search_validity` says the amount must
  be less than 1020. The code accepts 1020 (src/pixiv_handler.rs:69-77), and
  so does the model (`PixivHandler.AmountBoundExamples`).
- `temp_token_has_changed` compares the untrimmed draft with the committed
  token, so Save asks for confirmation on a draft that differs only by
  surrounding whitespace. `apply_settings` then trims the draft, and the
  token does not change. If settings.json holds an untrimmed token, a Save
  without confirmation offers the trimmed token as a change. It is accepted,
  and the list reset, only when `check_token_validity` accepts the trimmed
  token; otherwise the draft is rolled back to the committed token.
  `SettingsWin.SaveClicked` and `Data.CommitOf` state these outcomes.

## Model

| member | source | states |
|---|---|---|
| Text.NatToString | src/data.rs:96-98 | Rust's `{}` of a number: a non-empty run of digits whose decimal value is the number |
| Text.NatToStringInjective | src/data.rs:96-98 | different numbers never print the same |
| Text.ParseDigits | src/data.rs:256-264 | a string of digits parses exactly when it is non-empty and every character is a digit |
| Text.ParseU16 | src/data.rs:256-264 | `parse::<u16>` yields a value exactly when the unsigned parse gives one below 65536, and that value |
| Text.ParseI16 | src/pixiv_handler.rs:69-77 | `parse::<i16>` yields only values in -32768..32767 |
| Text.ParseUnsignedOfNatToString | src/data.rs:256-264 | a printed number parses back to itself, with or without a leading `+` |
| Text.ParseI16OfNatToString | src/pixiv_handler.rs:69-77 | `parse::<i16>` of a printed number or of its negation gives exactly the numbers from -32768 to 32767 back |
| Text.ParseU16OfNatToString | src/settings_win.rs:169-174 | a printed u16 parses back to itself |
| Text.Trim | src/data.rs:186-188 | trimming never lengthens a string |
| Text.TrimEnds | src/data.rs:186-188 | a non-empty trimmed string neither starts nor ends with whitespace |
| Text.TrimIsSlice | src/data.rs:186-188 | trimming keeps one contiguous slice, with only whitespace cut off on both sides |
| Text.TrimEmptyIff | src/data.rs:186-188 | a string trims to empty exactly when it is all whitespace |
| Text.TrimIdempotent | src/data.rs:186-188 | trimming twice is trimming once |
| Text.StrLess | src/i_give_up.py:179 | no contract of its own: Python's `<` on strings; `Text.StrLessIsStrictOrder` states its properties |
| Text.StrLessIsStrictOrder | src/i_give_up.py:179 | the date comparison is a strict order: irreflexive and transitive |
| FileHandler.WatermarkUnique | src/file_handler.rs:104-115 | a queue has at most one watermark position |
| FileHandler.WatermarkIsFirstUnchecked | src/file_handler.rs:104-115 | a queue's watermark is its first unchecked entry |
| FileHandler.Visited | src/file_handler.rs:69-90 | visiting marks exactly the visited entry checked, keeps its id, and leaves every other entry alone |
| FileHandler.VisitKeepsWatermark | src/file_handler.rs:69-90 | visiting an entry at or before the mark keeps the watermark, and moves it one on when the visited entry is the mark |
| FileHandler.MarkedUpTo | src/file_handler.rs:104-115 | ids are kept; an entry is checked exactly when it precedes the index |
| FileHandler.MarkedUpToWatermark | src/file_handler.rs:104-115 | after marking up to `k` the watermark sits at `k`, or at the end of a shorter list |
| FileHandler.FirstUncheckedFromIsFirst | src/file_handler.rs:53-66 | the search returns the first unchecked entry from its start, or the end when all are checked |
| FileHandler.FirstUncheckedFromLooksAhead | src/file_handler.rs:53-66 | the search depends only on the flags from its start on |
| FileHandler.ResumeIndexInRange | src/file_handler.rs:53-66 | the resume position lies inside a non-empty list |
| FileHandler.ResumeIndex | src/file_handler.rs:53-66 | no contract of its own: the position the loop resumes at; the three `ResumeIndex` lemmas state it |
| FileHandler.ResumeIndexUnderWatermark | src/file_handler.rs:53-66 | under the watermark the application resumes at the last checked entry (the first entry when none is checked) |
| FileHandler.ResumeIndexIgnoresFirstEntry | src/file_handler.rs:53-66 | the flag of the first entry never affects where the application resumes |
| FileHandler.PathToPfpInjective | src/file_handler.rs:125-127 | different artists have different profile-picture files |
| FileHandler.PathToPfp | src/file_handler.rs:125-127 | no contract of its own: `./images/u_{id}.jpeg`; `FileHandler.PathToPfpInjective` and `FileHandler.PfpIsNeverIllust` state it |
| FileHandler.PathToIllustInjective | src/file_handler.rs:129-131 | different illustrations have different thumbnail files |
| FileHandler.PathToIllust | src/file_handler.rs:129-131 | no contract of its own: `./images/i_{id}.jpeg`; `FileHandler.PathToIllustInjective` states it |
| FileHandler.PfpIsNeverIllust | src/file_handler.rs:125-131 | a profile-picture file is never an illustration file |
| FileHandler.Store.SaveArtistList | src/file_handler.rs:45-50 | artists.json is rewritten with exactly the given list |
| FileHandler.Store.SaveSettings | src/data.rs:80-85 | settings.json is rewritten with exactly the given settings |
| FileHandler.Store.GetLastCheckedArtistIndex | src/file_handler.rs:53-66 | the loop returns the resume position of a readable list, and 0 without one |
| FileHandler.Store.GetSmallArtistInfo | src/file_handler.rs:69-90 | outside the list nothing changes; inside, the id, the earlier flag and the length are returned, the entry is visited, and the file is written only when the flag was false |
| FileHandler.Store.MarkAsCheckedUpToIndex | src/file_handler.rs:104-115 | the loop stores the list marked up to the index |
| Helper.PaddingEmptyOnlyAtEnd | src/i_give_up.py:150-158 | from illustrations with non-zero ids there are four slots, a slot is empty exactly when pixiv had fewer illustrations, and the empty slots come last |
| Helper.FormatIllust | src/i_give_up.py:33-42 | no contract of its own: the id, counts and flag of pixiv's illustration, with the date localised to the timezone |
| Helper.EmptyIllust | src/i_give_up.py:44-51 | no contract of its own: the empty slot with id 0 and date "None", which `Helper.PaddingEmptyOnlyAtEnd` places after the real ones |
| Helper.PadRecentIllusts | src/i_give_up.py:150-158 | the two loops build the padded slot list |
| Helper.PaddedIllusts | src/i_give_up.py:150-158 | no contract of its own: the first four illustrations formatted, then empty slots; `Helper.PaddingEmptyOnlyAtEnd` states its shape and `Helper.PadRecentIllusts` that the loops build it |
| Helper.RecentRunIsLeadingRun | src/i_give_up.py:162-205 | the recent count is at most the number of illustrations and the scan bound; every counted illustration is recent; the count stops at the first old one within the bound |
| Helper.RecentRun | src/i_give_up.py:162-205 | no contract of its own: the recent count; `Helper.RecentRunIsLeadingRun` states it and `Helper.ScanIllusts` that the loop computes it |
| Helper.FirstBookmarkedIsFirst | src/i_give_up.py:162-205 | the last bookmarked illustration is the first bookmarked one within the scan bound, or none is bookmarked there |
| Helper.FirstBookmarked | src/i_give_up.py:162-205 | no contract of its own: the last bookmarked illustration; `Helper.FirstBookmarkedIsFirst` states it and `Helper.ScanIllusts` that the loop computes it |
| Helper.ScanIllusts | src/i_give_up.py:162-205 | the early-exit scan over the pages gives both the recent count and the last bookmarked illustration |
| Helper.DerivedResultFacts | src/i_give_up.py:139-241 | the derived record has four slots and the artist's id, its count respects both bounds, and its last bookmark is empty or bookmarked |
| Helper.DerivedResult | src/i_give_up.py:139-241 | no contract of its own: the record the helper derives; `Helper.DerivedResultFacts` and `Helper.DownloadArtistInfo` state it |
| Helper.FirstEmptySlot | src/i_give_up.py:209-230 | the image loop stops at the first empty slot, after non-empty ones only |
| Helper.DownloadCoversEveryIllust | src/i_give_up.py:209-230 | when the empty slots come last, every non-empty slot's thumbnail is downloaded |
| Helper.StaleImages | src/i_give_up.py:73-77 | no contract of its own: the profile picture and the non-empty slots' thumbnails that the delete removes; `Helper.DeleteArtistInfoIfExists` removes exactly these |
| Helper.DownloadedImages | src/i_give_up.py:209-230 | no contract of its own: the profile picture and the thumbnails before the first empty slot; `Helper.DownloadCoversEveryIllust` states that these cover every non-empty slot when the empty ones come last |
| Helper.StaleImagesWereDownloaded | src/i_give_up.py:73-77 | for a record whose empty slots come last, the files the delete removes are exactly the files the download wrote |
| Helper.DeleteArtistInfoIfExists | src/i_give_up.py:65-78 | without a cached record nothing changes; with one, the record, its profile picture and its slots' thumbnails are removed |
| Helper.DeleteAllArtistInfoIfExists | src/i_give_up.py:80-91 | the cache and the images are emptied |
| Helper.SaveResult | src/i_give_up.py:53-55 | the record is filed under its own artist id |
| Helper.StoreDownloadedResult | src/i_give_up.py:209-240 | the record is filed and its images are added |
| Helper.DownloadArtistInfo | src/i_give_up.py:139-241 | the stored and returned record is the derived record, and its images are added |
| Helper.EffectiveTimezone | src/i_give_up.py:129-137 | the timezone used is never empty, and is the given one when that is not empty |
| Helper.PrepareDai | src/i_give_up.py:129-137 | the old record and its images are deleted, and then the derived record is stored, with the default zone for an empty timezone |
| Helper.FreshQueue | src/i_give_up.py:95-125 | the followed ids in reverse order, none checked |
| Helper.FreshQueueWatermark | src/i_give_up.py:95-125 | a fresh queue has its watermark at 0 |
| Helper.DownloadArtistList | src/i_give_up.py:95-125 | artists.json becomes the fresh queue and the cache and images are emptied |
| Helper.ToggleResynchronises | src/i_give_up.py:245-276 | after a toggle the cached flag equals pixiv's flag, and a success always means a flipped cached flag |
| Helper.ToggleSucceeded | src/i_give_up.py:256-270 | no contract of its own: success is a desync or a changed pixiv flag; `Helper.ToggleResynchronises` states that the cache then agrees with pixiv |
| Helper.RemoteFlagAfter | src/i_give_up.py:290-302 | no contract of its own: pixiv's flag when the helper is done, with no call on a desync; `Helper.ToggleResynchronises` relates it to the success rule |
| Helper.FlipBookmark | src/i_give_up.py:245-276 | only the chosen slot's bookmark flag changes |
| Helper.FlipFollow | src/i_give_up.py:280-308 | only the artist's follow flag changes |
| Helper.FlipTwiceRestores | src/i_give_up.py:245-308 | flipping a flag twice restores the record |
| Helper.ToggleBookmark | src/i_give_up.py:245-276 | success is the desync-or-changed rule, and only a success rewrites the cached record, with the slot flipped |
| Helper.ToggleFollow | src/i_give_up.py:280-308 | the same rule for the follow flag |
| PixivHandler.AmountValidForm | src/pixiv_handler.rs:69-77 | the accepted strings exactly: optional sign, digits, value at most 1020, '-' only on zero |
| PixivHandler.CheckAmountToSearchValidity | src/pixiv_handler.rs:69-77 | no contract of its own: an i16 from 0 to 1020; `PixivHandler.AmountValidForm` characterises the accepted strings and `PixivHandler.AmountValidOfNumber` the accepted numbers |
| PixivHandler.AmountValidOfNumber | src/pixiv_handler.rs:69-77 | a printed number is accepted exactly when it is at most 1020 |
| PixivHandler.DefaultAmountIsValid | src/ui_globals.rs:24 | the default amount "210" passes the check |
| PixivHandler.AmountBoundExamples | src/pixiv_handler.rs:69-77 | "1020" is accepted and "1021" is not |
| PixivHandler.AmountSignExamples | src/pixiv_handler.rs:69-77 | "-0" is accepted; "-1", "" and " 5" are not |
| Data.DefaultSettingsAreValid | src/data.rs:87-93 | the default settings pass the amount check and have a non-empty timezone |
| Data.LoadDefault | src/data.rs:87-93 | no contract of its own: token "None", amount "210", timezone "Etc/GMT-9"; `Data.DefaultSettingsAreValid` states that they pass the checks |
| Data.TitleDeterminesPosition | src/data.rs:96-98 | for one artist name, the window title determines the position and the total |
| Data.MakeWindowTitle | src/data.rs:96-98 | no contract of its own: the name and the position counted from 1; `Data.TitleDeterminesPosition` states that the position can be read back |
| Data.PfpImage | src/data.rs:105-121 | a profile picture is loaded exactly for a non-zero artist id |
| Data.IllustImages | src/data.rs:105-121 | a thumbnail is loaded exactly for each slot with a non-zero id |
| Data.LoadedImagesWereDownloaded | src/data.rs:105-121 | every image the main window loads for a derived record is one the helper downloaded |
| Data.GetJumpIndex | src/data.rs:256-273 | a target exists exactly when the jump text is valid, and then it is inside the list and one less than the typed number |
| Data.JumpIndexIsValid | src/data.rs:256-264 | no contract of its own: a u16 from 1 to the number of artists; `Data.GetJumpIndex` states that a target exists exactly when it holds |
| Data.JumpIndexOfPosition | src/settings_win.rs:169-174 | the jump text that opening the settings window writes designates the entry on display |
| Data.JumpWatermark | src/data.rs:276-280 | after a jump to `k` the watermark sits just after `k`, or at the end when `k` is past it |
| Data.JumpTwiceIsJumpOnce | src/data.rs:276-280 | jumping again to the entry a jump landed on leaves the queue as it was |
| Data.QueueAfterVisit | src/data.rs:124-152 | visiting the previous, the same or the next entry keeps the queue rule |
| Data.QueueAfterJump | src/data.rs:276-280 | marking up to a target keeps the mark rule, and visiting that target leaves it before the mark |
| Data.QueueAfterReset | src/pixiv_handler.rs:133-136 | a fresh queue satisfies the queue rule, whether or not its first entry is then visited |
| Data.QueueAfterResume | src/file_handler.rs:53-66 | resuming a list that has a watermark and visiting the resume entry establishes the queue rule |
| Data.Settle | src/data.rs:190-232 | an unchanged draft keeps the value, with no change; a differing empty draft of a field with a default gives the default, as a change; any other differing draft is taken, as a change, exactly when it is valid, and otherwise rolled back |
| Data.SettleField | src/data.rs:202-232 | one field's block computes the settled value and change flag |
| Data.CommitOf | src/data.rs:182-240 | a token is accepted exactly when it differs and is valid, and the token is then the draft; the amount and the timezone each keep an unchanged draft, take the default for an empty one and a different draft only when valid; a change is exactly an accepted token or a differing amount or timezone draft that is empty or valid; without a change the settings are unchanged |
| Data.SettleDrafts | src/data.rs:186-232 | the three trimmed drafts are settled one after the other |
| Data.CommitKeepsSettingsValid | src/data.rs:202-232 | committing keeps a valid amount valid and a non-empty timezone non-empty |
| Data.ScreenOf | src/data.rs:142-151 | the display of a record has the title and the images derived from it |
| Data.InitialScreen | src/data.rs:158-176 | the empty display at the resume position, with matching images |
| Data.EmptyArtist | src/data.rs:283-292 | no contract of its own: the placeholder artist with id 0; `Data.InitialScreen` puts it on display |
| Data.EmptyIllustration | src/data.rs:294-303 | no contract of its own: the placeholder slot with id 0 |
| Data.EmptyIllustrations | src/data.rs:305-312 | no contract of its own: four placeholder slots; `Data.InitialScreen` states that none of them has an image |
| Data.AppData.Load | src/data.rs:154-180 | the state starts from settings.json with closed windows and matching drafts; without a valid token or list nothing else happens; otherwise the resume entry is visited; a list with a watermark leaves the queue rule holding |
| Data.AppData.LoadWindowTitle | src/data.rs:101-103 | only the title changes, to the title of the current position |
| Data.AppData.LoadImages | src/data.rs:105-121 | only the images change, to the images of the displayed record |
| Data.AppData.ShowRecord | src/data.rs:142-151 | the main window shows the record at the given position |
| Data.AppData.ChangeArtist | src/data.rs:124-152 | past the guards the entry is visited, its record is downloaded when asked to or when none is cached, and the display is the cached record; otherwise nothing changes; a visit at most one past the entry on display keeps the queue rule |
| Data.AppData.ShowEntry | src/data.rs:134-151 | downloads exactly when asked to or missing, then shows the record |
| Data.AppData.CommitDrafts | src/data.rs:182-236 | settings and drafts become the commit's, settings.json is written exactly on a change, and an accepted token clears the initialization flag |
| Data.AppData.ApplySettings | src/data.rs:182-241 | the drafts are committed; an accepted token resets the list, and otherwise the display and the store are unchanged; the queue rule is kept |
| Data.AppData.ResetIfAccepted | src/data.rs:238-240 | the list is reset exactly when asked to; a reset establishes the queue rule, and otherwise it is kept |
| Data.AppData.CancelSettings | src/data.rs:243-248 | the drafts equal the settings and the jump text is "0"; cancelling twice is cancelling once |
| Data.AppData.TempTokenHasChanged | src/data.rs:250-253 | no contract of its own: the untrimmed token draft differs from the committed token; `SettingsWin.SaveClicked` states what it decides |
| Data.AppData.JumpToJumpIndex | src/data.rs:276-280 | the queue is marked up to the target, and then the target is visited, or left alone when the guards refuse it; the queue rule is kept |
| Data.AppData.ResetArtistList | src/pixiv_handler.rs:133-136 | a fresh queue and an empty cache; with a valid token and a non-empty queue the first entry is visited; the queue rule holds afterwards |
| Data.AppData.ToggleBookmark | src/pixiv_handler.rs:93-110 | on success the cached record and the displayed slot are flipped; otherwise nothing changes; the display stays the cached record; the queue rule is kept |
| Data.AppData.ToggleFollow | src/pixiv_handler.rs:112-131 | nothing without a valid token; otherwise the same as the bookmark toggle, for the follow flag; the queue rule is kept |
| Data.PrepareSettings | src/file_handler.rs:8-13 | a missing settings.json is written once with the defaults, and an existing one is left alone; the state is then exactly what loading from that file builds, with the queue rule for a list with a watermark |
| Data.PrepareArtists | src/file_handler.rs:16-22 | the list is downloaded exactly with a valid token and no artists.json; otherwise nothing changes; the queue rule is kept |
| InfoWin.InfoMessageFor | src/info_win.rs:18-36 | the text for each window type; a jump text is forward, backward or "does nothing" by comparing the target with the current entry, and gives both positions counted from 1 |
| InfoWin.MessageText | src/info_win.rs:18-36 | no contract of its own: the label text of each message; `InfoWin.JumpTextDeterminesPositions` and `InfoWin.JumpMessageTextInjective` state that a jump text names its positions |
| InfoWin.JumpTextDeterminesPositions | src/info_win.rs:26-27 | a jump sentence determines both positions and the rest of the text |
| InfoWin.JumpMessageTextInjective | src/info_win.rs:26-27 | different jump confirmations never read the same |
| InfoWin.CloseInfoWindow | src/info_win.rs:114-122 | the confirmation window is closed; closing a closed window changes nothing |
| InfoWin.OpenInfoWindow | src/info_win.rs:124-128 | exactly one confirmation window is open afterwards |
| SettingsWin.CloseSettingsWindow | src/settings_win.rs:156-167 | both windows are closed and the drafts cancelled; closing a closed window changes nothing |
| SettingsWin.OpenSettingsWindow | src/settings_win.rs:169-174 | exactly one settings window, drafts equal to the settings, the jump text is the current position, and confirming that jump does nothing |
| SettingsWin.JumpButtonLabel | src/settings_win.rs:73-76 | the label is the bare prefix exactly when the jump text is invalid, and otherwise the prefix followed by the text |
| SettingsWin.JumpClicked | src/settings_win.rs:78-80 | a jump confirmation opens exactly when the jump text is valid, which is when the label shows a number |
| SettingsWin.ReloadListClicked | src/settings_win.rs:91-95 | a reload confirmation opens exactly when a valid token is known |
| SettingsWin.SaveClicked | src/settings_win.rs:120-123 | a changed token draft opens the confirmation and changes nothing else; otherwise the settings are applied and both windows closed; the queue rule is kept |
| SettingsWin.ConfirmTokenChangeYes | src/info_win.rs:61-64 | the settings are applied and both windows closed; the queue rule is kept |
| SettingsWin.ConfirmJumpYes | src/info_win.rs:65-74 | nothing happens when the text says so; otherwise the jump is made and both windows closed; the queue rule is kept |
| SettingsWin.ConfirmListReloadYes | src/info_win.rs:75-78 | the list is reset and both windows closed; the queue rule holds afterwards |
| MainWin.ArtistUrlInjective | src/main_win.rs:68-70 | different artists have different pages |
| MainWin.ArtistUrl | src/main_win.rs:68-70 | no contract of its own: the artist's pixiv page; `MainWin.ArtistUrlInjective` states it |
| MainWin.IllustUrlInjective | src/main_win.rs:72-74 | different illustrations have different pages |
| MainWin.IllustUrl | src/main_win.rs:72-74 | no contract of its own: the illustration's pixiv page; `MainWin.IllustUrlInjective` states it |
| MainWin.ArtistUrlIsNeverIllustUrl | src/main_win.rs:68-74 | an artist's page is never an illustration's page |
| MainWin.ClickTarget | src/main_win.rs:17-175 | a name, a bookmark label or an Open button acts exactly for a non-zero id; an image exactly while one is shown |
| MainWin.ImageClickOpensShownFile | src/main_win.rs:17-37 | a click on an image opens the file it shows, and an image is clickable exactly when its name or Open button is |
| MainWin.PrevClicked | src/main_win.rs:237-239 | the previous entry is visited unless the first is on display or the guards refuse; otherwise nothing changes; the queue rule is kept |
| MainWin.NextClicked | src/main_win.rs:243-245 | the next entry is visited when there is one; otherwise nothing changes; the queue rule is kept |
| MainWin.ReloadClicked | src/main_win.rs:218-220 | the entry on display is downloaded again and the position is kept; the queue rule is kept |
| MainWin.BookmarkClicked | src/main_win.rs:181-183 | an empty slot does nothing; otherwise the bookmark toggle; the queue rule is kept |

## Left out

- The pixiv client, HTTP and the image downloads: their answers are parameters of the members that need them.
- The subprocess calls to the helper and its exit-code checks, the JSON on its stdout and serde failures: the helper's printed record is a parameter.
- `check_token_validity` and `check_timezone_validity`: calls into pixiv and pytz, so they enter as booleans.
- The clock and the pytz date conversion: they enter as the threshold string and the `localize` parameter.
- `get_next_page`: the pages are given concatenated, in page order.
- Decoding images into `ImageBuf`, and panics on unreadable files: an image is its path.
- A cached `./jsons/{id}.json` that exists but does not parse: `load_artist_info` panics, and the model takes every cached record to be readable.
- The Windows `\\` spelling of the image directory in the helper: the model uses the `./images/` spelling of `src/file_handler.rs`.
- Creating the `jsons` and `images` folders (`prepare_folders`) and the startup order in `src/main.rs`.
- Widget layout, window ids, `CLOSE_WINDOW` commands, the quit button and the mouse-drag title bars: a window is its open flag.
- `execute_process` and `cmd /C start`: a click is modelled by the string it hands over (`MainWin.ClickTarget`).
- Data.MakeWindowTitle, InfoWin.InfoMessageFor and SettingsWin.OpenSettingsWindow:
  - they use a mathematical `+ 1` for the source's u16 `artist_index + 1`;
  - that sum only overflows when the position is 65535;
  - MainWin.NextClicked requires the sum to fit.
- Helper.DeleteArtistInfoIfExists: the FileNotFoundError that `remove` raises when a listed thumbnail or the profile picture is already gone (src/i_give_up.py:75, 77) is not modelled; the model removes the files that are there and always succeeds. The source would then exit non-zero, and the Rust side panics (src/pixiv_handler.rs:16-18). `FileHandler.Store.Valid` does not tie a cached record to its image files, so the model does not prove this case unreachable. `Helper.StaleImagesWereDownloaded` shows that for a record built by the helper, the files removed are the ones its download wrote.
- Helper.DerivedResult: the helper's `recent_count` is a Python integer, and the model keeps it unbounded; the Rust side reads it into a u16.
- FileHandler.Store.GetLastCheckedArtistIndex: requires a readable list to be non-empty, because the source's `len() - 1` underflows on an empty one. Data.AppData.Load inherits this requirement.
- Data.AppData.ToggleBookmark and Data.AppData.ToggleFollow: require a cached record for the artist on display, because the helper reads one and fails without it.
- Data.AppData.Load and Data.PrepareSettings: establish the queue rule only from an artists.json list that has a watermark. Every list the application writes has one; a list edited by hand is loaded as it is, and the rule is not promised for it.
- Data.AppData.JumpToJumpIndex: requires a valid jump text, because the source unwraps it; every caller checks validity first.
- Concurrency: druid runs callbacks one at a time, and the model does the same.
