/** The confirmation window of src/info_win.rs: which text it shows and how
    its open flag is kept. What its Yes button does is in module SettingsWin,
    since every branch of it ends by closing the settings window. */
module InfoWin {
  import opened Types
  import opened Text
  import opened Data

  /** `InfoWindowType`: what the window asks to confirm. */
  datatype InfoWindowType = ConfirmTokenChange | ConfirmJump | ConfirmListReload

  /** The cases of `create_info_label`. Jump positions count from 1. */
  datatype InfoMessage =
    | TokenChangeWarning
    | JumpForward(from: nat, to: nat)
    | JumpBackward(from: nat, to: nat)
    | JumpToSame
    | JumpIndexBroken
    | ListReloadWarning
  {
    /** The text warns that clicking Yes does nothing. */
    predicate SaysYesIsIdle() {
      JumpToSame? || JumpIndexBroken?
    }
  }

  /** `create_info_label`: a jump confirmation compares the target entry with
      the one on display. */
  function InfoMessageFor(winType: InfoWindowType, jumpTarget: Option<u16>, artistIndex: u16): (m: InfoMessage)
    ensures m.TokenChangeWarning? <==> winType == ConfirmTokenChange
    ensures m.ListReloadWarning? <==> winType == ConfirmListReload
    ensures m.SaysYesIsIdle() <==> winType == ConfirmJump && (jumpTarget.None? || jumpTarget.value == artistIndex)
    ensures m.JumpForward? <==> winType == ConfirmJump && jumpTarget.Some? && jumpTarget.value > artistIndex
    ensures m.JumpBackward? <==> winType == ConfirmJump && jumpTarget.Some? && jumpTarget.value < artistIndex
    ensures m.JumpForward? || m.JumpBackward? ==> m.from == artistIndex + 1 && m.to == jumpTarget.value + 1
  {
    match winType
    case ConfirmTokenChange => TokenChangeWarning
    case ConfirmListReload => ListReloadWarning
    case ConfirmJump =>
      match jumpTarget
      case None => JumpIndexBroken
      case Some(newIndex) =>
        if newIndex > artistIndex then JumpForward(artistIndex + 1, newIndex + 1)
        else if newIndex < artistIndex then JumpBackward(artistIndex + 1, newIndex + 1)
        else JumpToSame
  }

  /** The sentence of both jump texts, up to what the jump does to the other
      entries. */
  function JumpText(from: nat, to: nat, consequence: string): string {
    "You are about to jump from artist " + (NatToString(from) + (" to artist " + (NatToString(to)
    + (", that will mark all artists " + consequence))))
  }

  /** The label text. */
  function MessageText(m: InfoMessage): string {
    match m
    case TokenChangeWarning =>
      "You are about to change the token, that will erase all currently downloaded artist data. Are you sure you want to continue?"
    case JumpForward(from, to) =>
      JumpText(from, to, "before " + NatToString(to) + " as reviewed. Are you sure you want to continue?")
    case JumpBackward(from, to) =>
      JumpText(from, to, "after " + NatToString(to) + " as not reviewed. Are you sure you want to continue?")
    case JumpToSame =>
      "Your jump number is the same as the current artist number. Clicking yes will not do much."
    case JumpIndexBroken =>
      "You broke the jump index, congrats. As a reward, clicking yes will not do anything."
    case ListReloadWarning =>
      "You are about to reload the artist list, that will erase all currently downloaded artist data. Are you sure you want to continue?"
  }

  /** `p`, a number, `q`, a number, `r`, then anything: when `q` and `r`
      start with a non-digit, the two numbers and the rest can be read
      back. */
  lemma SplitTwoNumbers(p: string, q: string, r: string, a: nat, b: nat, x: string, c: nat, d: nat, y: string)
    requires |q| > 0 && !IsDigit(q[0]) && |r| > 0 && !IsDigit(r[0])
    requires p + (NatToString(a) + (q + (NatToString(b) + (r + x)))) ==
             p + (NatToString(c) + (q + (NatToString(d) + (r + y))))
    ensures a == c && b == d && x == y
  {
    var t1 := NatToString(b) + (r + x);
    var t2 := NatToString(d) + (r + y);
    var s1 := NatToString(a) + (q + t1);
    var s2 := NatToString(c) + (q + t2);
    assert s1 == (p + s1)[|p|..] && s2 == (p + s2)[|p|..];
    SplitAfterDigits(NatToString(a), q + t1, NatToString(c), q + t2);
    assert t1 == (q + t1)[|q|..] && t2 == (q + t2)[|q|..];
    SplitAfterDigits(NatToString(b), r + x, NatToString(d), r + y);
    assert x == (r + x)[|r|..] && y == (r + y)[|r|..];
    NatToStringInjective(a, c);
    NatToStringInjective(b, d);
  }

  /** A jump text tells both positions and the consequence apart. */
  lemma JumpTextDeterminesPositions(a: nat, b: nat, x: string, c: nat, d: nat, y: string)
    requires JumpText(a, b, x) == JumpText(c, d, y)
    ensures a == c && b == d && x == y
  {
    var p := "You are about to jump from artist ";
    var q := " to artist ";
    var r := ", that will mark all artists ";
    SplitTwoNumbers(p, q, r, a, b, x, c, d, y);
  }

  /** The text of a jump confirmation tells its direction and both
      positions: different jumps never read the same. */
  lemma JumpMessageTextInjective(m1: InfoMessage, m2: InfoMessage)
    requires m1.JumpForward? || m1.JumpBackward?
    requires m2.JumpForward? || m2.JumpBackward?
    requires MessageText(m1) == MessageText(m2)
    ensures m1 == m2
  {
    var x := if m1.JumpForward? then "before " + NatToString(m1.to) + " as reviewed. Are you sure you want to continue?"
             else "after " + NatToString(m1.to) + " as not reviewed. Are you sure you want to continue?";
    var y := if m2.JumpForward? then "before " + NatToString(m2.to) + " as reviewed. Are you sure you want to continue?"
             else "after " + NatToString(m2.to) + " as not reviewed. Are you sure you want to continue?";
    assert MessageText(m1) == JumpText(m1.from, m1.to, x);
    assert MessageText(m2) == JumpText(m2.from, m2.to, y);
    JumpTextDeterminesPositions(m1.from, m1.to, x, m2.from, m2.to, y);
    assert x[0] == (if m1.JumpForward? then 'b' else 'a');
    assert y[0] == (if m2.JumpForward? then 'b' else 'a');
  }

  /** `close_info_window`: only an open window is closed. */
  method CloseInfoWindow(data: AppData)
    requires data.WindowsValid()
    modifies data`infoWindowIsOpen, data`openInfoWindows
    ensures data.WindowsValid() && !data.infoWindowIsOpen
    ensures !old(data.infoWindowIsOpen) ==> unchanged(data)
  {
    if data.infoWindowIsOpen {
      data.openInfoWindows := data.openInfoWindows - 1;
      data.infoWindowIsOpen := false;
    }
  }

  /** `open_info_window`: any open confirmation is closed before the new one
      is created, so exactly one is open afterwards. The window is opened
      from buttons of the settings window, which is therefore open. */
  method OpenInfoWindow(data: AppData, winType: InfoWindowType)
    requires data.WindowsValid() && data.settingsWindowIsOpen
    modifies data`infoWindowIsOpen, data`openInfoWindows
    ensures data.WindowsValid() && data.infoWindowIsOpen && data.openInfoWindows == 1
  {
    CloseInfoWindow(data);
    data.openInfoWindows := data.openInfoWindows + 1;
    data.infoWindowIsOpen := true;
  }
}
