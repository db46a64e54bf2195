/** The handlers of src/settings_win.rs, and the Yes button of the
    confirmation window (src/info_win.rs), whose every branch ends by
    closing the settings window. Buttons of a window can only be clicked
    while that window is open, which the preconditions say. */
module SettingsWin {
  import opened Types
  import opened Text
  import opened FileHandler
  import opened Data
  import opened InfoWin

  /** `close_settings_window`: only an open window is closed; the drafts are
      dropped and the confirmation over it is closed too. */
  method CloseSettingsWindow(data: AppData)
    requires data.WindowsValid()
    modifies data`jumpIndex, data`tempToken, data`tempAmountToSearch, data`tempTimezone,
             data`infoWindowIsOpen, data`openInfoWindows, data`settingsWindowIsOpen, data`openSettingsWindows
    ensures data.WindowsValid() && !data.settingsWindowIsOpen && !data.infoWindowIsOpen && data.Cancelled()
    ensures !old(data.settingsWindowIsOpen) ==> unchanged(data)
  {
    if data.settingsWindowIsOpen {
      data.CancelSettings();
      CloseInfoWindow(data);
      data.openSettingsWindows := data.openSettingsWindows - 1;
      data.settingsWindowIsOpen := false;
    }
  }

  /** `open_settings_window`: any open settings window is closed first, so
      exactly one is open afterwards, with the drafts equal to the settings
      and the jump box holding the position on display (counting from 1).
      Confirming a jump to that number does nothing. */
  method OpenSettingsWindow(data: AppData)
    requires data.WindowsValid()
    modifies data`jumpIndex, data`tempToken, data`tempAmountToSearch, data`tempTimezone,
             data`infoWindowIsOpen, data`openInfoWindows, data`settingsWindowIsOpen, data`openSettingsWindows
    ensures data.WindowsValid() && data.settingsWindowIsOpen && !data.infoWindowIsOpen
    ensures data.openSettingsWindows == 1
    ensures data.tempToken == data.settings.token && data.tempAmountToSearch == data.settings.amountToSearch
    ensures data.tempTimezone == data.settings.timezone
    ensures data.jumpIndex == NatToString(data.screen.artistIndex + 1)
    ensures data.screen.artistIndex < data.screen.totalArtists ==>
              var target := GetJumpIndex(data.jumpIndex, data.screen.totalArtists);
              target == Some(data.screen.artistIndex) &&
              InfoMessageFor(ConfirmJump, target, data.screen.artistIndex).SaysYesIsIdle()
  {
    CloseSettingsWindow(data);
    data.jumpIndex := NatToString(data.screen.artistIndex + 1);
    data.openSettingsWindows := data.openSettingsWindows + 1;
    data.settingsWindowIsOpen := true;
    if data.screen.artistIndex < data.screen.totalArtists {
      JumpIndexOfPosition(data.screen.artistIndex, data.screen.totalArtists);
    }
  }

  const JUMP_LABEL_PREFIX: string := "Jump to artist "

  /** The jump button's label: the number is shown only when it is valid. */
  function JumpButtonLabel(jumpIndex: string, totalArtists: u16): (r: string)
    ensures r == JUMP_LABEL_PREFIX <==> !JumpIndexIsValid(jumpIndex, totalArtists)
    ensures |r| >= |JUMP_LABEL_PREFIX| && r[..|JUMP_LABEL_PREFIX|] == JUMP_LABEL_PREFIX
    ensures JumpIndexIsValid(jumpIndex, totalArtists) ==> r[|JUMP_LABEL_PREFIX|..] == jumpIndex
  {
    if JumpIndexIsValid(jumpIndex, totalArtists) then
      assert |jumpIndex| > 0 by {
        if |jumpIndex| > 0 && jumpIndex[0] == '+' {
          assert ParseDigits(jumpIndex[1..]).Some?;
        } else {
          assert ParseDigits(jumpIndex).Some?;
        }
      }
      JUMP_LABEL_PREFIX + jumpIndex
    else JUMP_LABEL_PREFIX + ""
  }

  /** The jump button: a valid jump index opens the jump confirmation, any
      other does nothing, so a click opens it exactly when the label shows
      a number. */
  method JumpClicked(data: AppData) returns (confirmation: Option<InfoWindowType>)
    requires data.WindowsValid() && data.settingsWindowIsOpen
    modifies data`infoWindowIsOpen, data`openInfoWindows
    ensures data.WindowsValid()
    ensures confirmation == (if JumpIndexIsValid(data.jumpIndex, data.screen.totalArtists) then Some(ConfirmJump) else None)
    ensures confirmation.Some? <==> JumpButtonLabel(data.jumpIndex, data.screen.totalArtists) != JUMP_LABEL_PREFIX
    ensures confirmation.Some? ==> data.infoWindowIsOpen && data.openInfoWindows == 1
    ensures confirmation.None? ==> unchanged(data)
  {
    confirmation := None;
    if JumpIndexIsValid(data.jumpIndex, data.screen.totalArtists) {
      OpenInfoWindow(data, ConfirmJump);
      confirmation := Some(ConfirmJump);
    }
  }

  /** The reload button: the list confirmation opens only once a token was
      accepted. */
  method ReloadListClicked(data: AppData) returns (confirmation: Option<InfoWindowType>)
    requires data.WindowsValid() && data.settingsWindowIsOpen
    modifies data`infoWindowIsOpen, data`openInfoWindows
    ensures data.WindowsValid()
    ensures confirmation == (if data.requiresInitialization then None else Some(ConfirmListReload))
    ensures confirmation.Some? ==> data.infoWindowIsOpen && data.openInfoWindows == 1
    ensures confirmation.None? ==> unchanged(data)
  {
    confirmation := None;
    if !data.requiresInitialization {
      OpenInfoWindow(data, ConfirmListReload);
      confirmation := Some(ConfirmListReload);
    }
  }

  /** The Save button: a changed token draft asks for confirmation first and
      nothing else happens; otherwise the settings are applied and the
      window is closed. Unless the committed token has surrounding
      whitespace, saving without confirmation never resets the list. */
  method SaveClicked(data: AppData, tokenIsValid: bool, timezoneIsValid: bool, firstPage: seq<u32>,
                     downloaded: ArtistResult) returns (confirmation: Option<InfoWindowType>)
    requires data.Valid() && data.settingsWindowIsOpen && WellFormed(downloaded)
    modifies data`tempToken, data`tempAmountToSearch, data`tempTimezone, data`settings,
             data`requiresInitialization, data.store`settingsFile, data.store`settingsWrites,
             data`screen, data.store`artistsFile, data.store`listWrites, data.store`records, data.store`images,
             data`jumpIndex, data`infoWindowIsOpen, data`openInfoWindows, data`settingsWindowIsOpen,
             data`openSettingsWindows
    ensures data.Valid()
    ensures confirmation == (if old(data.TempTokenHasChanged()) then Some(ConfirmTokenChange) else None)
    ensures old(data.TempTokenHasChanged()) ==>
              && data.infoWindowIsOpen && data.openInfoWindows == 1 && data.settingsWindowIsOpen
              && unchanged(data.store)
              && (data.settings, data.tempToken, data.tempAmountToSearch, data.tempTimezone, data.jumpIndex)
                 == old((data.settings, data.tempToken, data.tempAmountToSearch, data.tempTimezone, data.jumpIndex))
              && data.screen == old(data.screen) && data.requiresInitialization == old(data.requiresInitialization)
    ensures !old(data.TempTokenHasChanged()) ==>
              var c := CommitOf(old(data.settings), Trim(old(data.tempToken)), Trim(old(data.tempAmountToSearch)),
                                Trim(old(data.tempTimezone)), tokenIsValid, timezoneIsValid);
              && !data.settingsWindowIsOpen && !data.infoWindowIsOpen
              && data.DraftsCommitted(c, old(data.store.settingsFile), old(data.store.settingsWrites),
                                      old(data.requiresInitialization))
              && (c.tokenAccepted ==> data.ListReset(firstPage, downloaded, old(data.screen)))
              && (!c.tokenAccepted ==>
                    data.Kept(old(data.screen), old(data.store.records), old(data.store.images),
                              old(data.store.artistsFile)))
    ensures !old(data.TempTokenHasChanged()) && Trim(old(data.settings.token)) == old(data.settings.token) ==>
              data.Kept(old(data.screen), old(data.store.records), old(data.store.images), old(data.store.artistsFile))
    ensures old(data.QueueValid()) ==> data.QueueValid()
  {
    if data.TempTokenHasChanged() {
      OpenInfoWindow(data, ConfirmTokenChange);
      confirmation := Some(ConfirmTokenChange);
    } else {
      data.ApplySettings(tokenIsValid, timezoneIsValid, firstPage, downloaded);
      CloseSettingsWindow(data);
      confirmation := None;
    }
  }

  /** Yes on `ConfirmTokenChange`: the settings are applied and the
      settings window closes. */
  method ConfirmTokenChangeYes(data: AppData, tokenIsValid: bool, timezoneIsValid: bool, firstPage: seq<u32>,
                               downloaded: ArtistResult)
    requires data.Valid() && data.infoWindowIsOpen && WellFormed(downloaded)
    modifies data`tempToken, data`tempAmountToSearch, data`tempTimezone, data`settings,
             data`requiresInitialization, data.store`settingsFile, data.store`settingsWrites,
             data`screen, data.store`artistsFile, data.store`listWrites, data.store`records, data.store`images,
             data`jumpIndex, data`infoWindowIsOpen, data`openInfoWindows, data`settingsWindowIsOpen,
             data`openSettingsWindows
    ensures data.Valid() && !data.settingsWindowIsOpen && !data.infoWindowIsOpen
    ensures var c := CommitOf(old(data.settings), Trim(old(data.tempToken)), Trim(old(data.tempAmountToSearch)),
                              Trim(old(data.tempTimezone)), tokenIsValid, timezoneIsValid);
            && data.DraftsCommitted(c, old(data.store.settingsFile), old(data.store.settingsWrites),
                                    old(data.requiresInitialization))
            && (c.tokenAccepted ==> data.ListReset(firstPage, downloaded, old(data.screen)))
            && (!c.tokenAccepted ==>
                  data.Kept(old(data.screen), old(data.store.records), old(data.store.images),
                            old(data.store.artistsFile)))
    ensures old(data.QueueValid()) ==> data.QueueValid()
  {
    data.ApplySettings(tokenIsValid, timezoneIsValid, firstPage, downloaded);
    CloseSettingsWindow(data);
  }

  /** Yes on `ConfirmJump`: when the text says Yes does nothing (no valid
      target, or the target is the entry on display) nothing changes and
      both windows stay open; otherwise the jump is made and the settings
      window closes. */
  method ConfirmJumpYes(data: AppData, downloaded: ArtistResult)
    requires data.Valid() && data.infoWindowIsOpen && WellFormed(downloaded)
    modifies data`screen, data.store`artistsFile, data.store`listWrites, data.store`records, data.store`images,
             data`jumpIndex, data`tempToken, data`tempAmountToSearch, data`tempTimezone,
             data`infoWindowIsOpen, data`openInfoWindows, data`settingsWindowIsOpen, data`openSettingsWindows
    ensures data.Valid()
    ensures var target := old(GetJumpIndex(data.jumpIndex, data.screen.totalArtists));
            var msg := InfoMessageFor(ConfirmJump, target, old(data.screen.artistIndex));
            && (msg.SaysYesIsIdle() ==> unchanged(data) && unchanged(data.store))
            && (!msg.SaysYesIsIdle() ==>
                  var k := target.value;
                  var m := MarkedUpTo(old(data.store.artistsFile).entries, k);
                  && !data.settingsWindowIsOpen && !data.infoWindowIsOpen
                  && (if data.requiresInitialization || k >= |m| then
                        data.Kept(old(data.screen), old(data.store.records), old(data.store.images), Stored(m))
                      else
                        data.VisitedFrom(m, k, false, downloaded, old(data.store.records), old(data.store.images))))
    ensures old(data.QueueValid()) ==> data.QueueValid()
  {
    var target := GetJumpIndex(data.jumpIndex, data.screen.totalArtists);
    if target.Some? && target.value != data.screen.artistIndex {
      data.JumpToJumpIndex(downloaded);
      CloseSettingsWindow(data);
    }
  }

  /** Yes on `ConfirmListReload`: the list is reset and the settings window
      closes. */
  method ConfirmListReloadYes(data: AppData, firstPage: seq<u32>, downloaded: ArtistResult)
    requires data.Valid() && data.infoWindowIsOpen && WellFormed(downloaded)
    modifies data`screen, data.store`artistsFile, data.store`listWrites, data.store`records, data.store`images,
             data`jumpIndex, data`tempToken, data`tempAmountToSearch, data`tempTimezone,
             data`infoWindowIsOpen, data`openInfoWindows, data`settingsWindowIsOpen, data`openSettingsWindows
    ensures data.Valid() && !data.settingsWindowIsOpen && !data.infoWindowIsOpen
    ensures data.ListReset(firstPage, downloaded, old(data.screen))
    ensures data.QueueValid()
  {
    data.ResetArtistList(firstPage, downloaded);
    CloseSettingsWindow(data);
  }
}
