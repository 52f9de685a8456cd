/** The start menu: a list of items exactly one of which is highlighted,
    moved cyclically with Up/W and Down/S, confirmed with Return/Space,
    and abandoned with Escape, which picks the last item (exit). */
module Menu {
  import opened SdlTypes

  /** The menu's state: each item's `isSelected` flag, the index of the
      current item and whether the menu loop should end. */
  datatype MenuState = MenuState(isSelected: seq<bool>, current: int, quit: bool)

  /** The index the event handler can dereference. */
  predicate Valid(s: MenuState) {
    0 <= s.current < |s.isSelected|
  }

  /** The menu's display invariant: the current item, and only it, is
      highlighted. */
  predicate OneSelected(s: MenuState) {
    && Valid(s)
    && forall i :: 0 <= i < |s.isSelected| ==> (s.isSelected[i] <==> i == s.current)
  }

  /** Move the highlight from the current item to `next`. */
  function Select(s: MenuState, next: int): MenuState
    requires Valid(s) && 0 <= next < |s.isSelected|
  {
    s.(isSelected := s.isSelected[s.current := false][next := true], current := next)
  }

  /** One polled event of handleEvents. The index arithmetic is done on
      `size_t` in the source; for an index below the item count it equals
      the mathematical remainder used here. */
  function Step(s: MenuState, e: Event): (r: MenuState)
    requires Valid(s)
    ensures Valid(r) && |r.isSelected| == |s.isSelected|
  {
    var n := |s.isSelected|;
    match e
    case Quit => s.(quit := true)
    case KeyDown(k) =>
      if k == Up || k == W then Select(s, (s.current - 1 + n) % n)
      else if k == Down || k == S then Select(s, (s.current + 1) % n)
      else if k == Return || k == Space then s.(quit := true)
      else if k == Escape then s.(current := n - 1, quit := true)
      else s
    case MouseButtonDown => s
    case OtherEvent => s
  }

  /** handleEvents: every event of one poll, in order, even after one of
      them has set `quit`. */
  function Steps(s: MenuState, events: seq<Event>): (r: MenuState)
    requires Valid(s)
    ensures Valid(r) && |r.isSelected| == |s.isSelected|
  {
    if |events| == 0 then s
    else Step(Steps(s, events[..|events| - 1]), events[|events| - 1])
  }

  /** The loop of run: a frame's events are handled only while the menu
      has not been told to quit. */
  function Frames(s: MenuState, frames: seq<seq<Event>>): (r: MenuState)
    requires Valid(s)
    ensures Valid(r) && |r.isSelected| == |s.isSelected|
  {
    if |frames| == 0 then s
    else
      var before := Frames(s, frames[..|frames| - 1]);
      if before.quit then before else Steps(before, frames[|frames| - 1])
  }

  /** The value run returns for the final selection. */
  function Choice(current: int): (c: int)
    ensures 0 <= c <= 2
    ensures 0 <= current <= 2 ==> c == current
    ensures !(0 <= current <= 2) ==> c == 0
  {
    if current == 0 then 0 else if current == 1 then 1 else if current == 2 then 2 else 0
  }

  /** The state reset puts a menu of `n` items in. */
  function ResetState(n: nat): MenuState {
    MenuState(seq(n, i => i == 0), 0, false)
  }

  // ---------------------------------------------------------------------
  // Properties

  /** Up and Down move the highlight cyclically (Up from the first item
      wraps to the last) and keep exactly one item highlighted; they do not
      touch `quit`. */
  lemma UpDownKeepOneSelected(s: MenuState, k: Key)
    requires OneSelected(s) && (k == Up || k == W || k == Down || k == S)
    ensures var n, r := |s.isSelected|, Step(s, KeyDown(k));
      && OneSelected(r) && r.quit == s.quit
      && ((k == Up || k == W) ==> r.current == if s.current == 0 then n - 1 else s.current - 1)
      && ((k == Down || k == S) ==> r.current == if s.current == n - 1 then 0 else s.current + 1)
  {
    var n := |s.isSelected|;
    if k == Up || k == W {
      PreviousIndex(s.current, n);
      SelectKeepsOneSelected(s, (s.current - 1 + n) % n);
    } else {
      NextIndex(s.current, n);
      SelectKeepsOneSelected(s, (s.current + 1) % n);
    }
  }

  /** `(cur - 1 + n) % n` for an index below `n`. */
  lemma PreviousIndex(cur: int, n: int)
    requires 0 <= cur < n
    ensures (cur - 1 + n) % n == if cur == 0 then n - 1 else cur - 1
  {
    ModUnique(cur - 1 + n, n, if cur == 0 then 0 else 1, if cur == 0 then n - 1 else cur - 1);
  }

  /** `(cur + 1) % n` for an index below `n`. */
  lemma NextIndex(cur: int, n: int)
    requires 0 <= cur < n
    ensures (cur + 1) % n == if cur == n - 1 then 0 else cur + 1
  {
    ModUnique(cur + 1, n, if cur == n - 1 then 1 else 0, if cur == n - 1 then 0 else cur + 1);
  }

  /** Moving the highlight keeps exactly one item highlighted. */
  lemma SelectKeepsOneSelected(s: MenuState, next: int)
    requires OneSelected(s) && 0 <= next < |s.isSelected|
    ensures OneSelected(Select(s, next)) && Select(s, next).quit == s.quit
  {
  }

  /** The remainder is the unique value in [0, n) that differs from `x` by
      a multiple of `n`. */
  lemma ModUnique(x: int, n: int, q: int, r: int)
    requires 0 <= r < n && x == q * n + r
    ensures x % n == r
  {
    var q', r' := x / n, x % n;
    assert (q - q') * n == r' - r;
    if q > q' {
      MulAtLeast(q - q', n);
    } else if q < q' {
      MulAtLeast(q' - q, n);
    }
  }

  lemma MulAtLeast(a: int, n: int)
    requires a >= 1 && n > 0
    ensures a * n >= n
  {
  }

  /** Up undoes Down and Down undoes Up on a consistent menu. */
  lemma UpDownRoundTrip(s: MenuState)
    requires OneSelected(s)
    ensures Step(Step(s, KeyDown(Down)), KeyDown(Up)) == s
    ensures Step(Step(s, KeyDown(Up)), KeyDown(Down)) == s
  {
    var n := |s.isSelected|;
    var d, u := Step(s, KeyDown(Down)), Step(s, KeyDown(Up));
    UpDownKeepOneSelected(s, Down);
    UpDownKeepOneSelected(d, Up);
    UpDownKeepOneSelected(s, Up);
    UpDownKeepOneSelected(u, Down);
    assert Step(d, KeyDown(Up)).isSelected == s.isSelected;
    assert Step(u, KeyDown(Down)).isSelected == s.isSelected;
  }

  /** `k` presses of Down move the highlight `k` places round the menu. */
  lemma {:induction false} DownPresses(s: MenuState, k: nat)
    requires OneSelected(s)
    ensures var r := Steps(s, seq(k, _ => KeyDown(Down)));
      OneSelected(r) && r.current == (s.current + k) % |s.isSelected| && r.quit == s.quit
  {
    if k > 0 {
      var presses := seq(k, _ => KeyDown(Down));
      assert presses[..k - 1] == seq(k - 1, _ => KeyDown(Down));
      DownPresses(s, k - 1);
      var before := Steps(s, presses[..k - 1]);
      UpDownKeepOneSelected(before, Down);
      var n := |s.isSelected|;
      assert (before.current + 1) % n == (s.current + k) % n by {
        assert before.current == (s.current + k - 1) % n;
        ModSucc(s.current + k - 1, n);
      }
    }
  }

  lemma ModSucc(a: int, n: int)
    requires n > 0
    ensures (a % n + 1) % n == (a + 1) % n
  {
    var q, r := a / n, a % n;
    if r + 1 < n {
      ModUnique(r + 1, n, 0, r + 1);
      ModUnique(a + 1, n, q, r + 1);
    } else {
      ModUnique(r + 1, n, 1, 0);
      ModUnique(a + 1, n, q + 1, 0);
    }
  }

  /** Return and Space end the menu on the current item and change
      nothing else. */
  lemma ConfirmKeepsSelection(s: MenuState, k: Key)
    requires Valid(s) && (k == Return || k == Space)
    ensures Step(s, KeyDown(k)) == s.(quit := true)
  {
  }

  /** Escape ends the menu on the last item (exit) without updating the
      highlight flags: a menu that was consistent on any other item is no
      longer consistent afterwards. */
  lemma EscapeChoosesExit(s: MenuState)
    requires Valid(s)
    ensures var r := Step(s, KeyDown(Escape));
      && r.current == |s.isSelected| - 1 && r.quit && r.isSelected == s.isSelected
      && (OneSelected(s) && s.current != |s.isSelected| - 1 ==> !OneSelected(r))
  {
    if OneSelected(s) && s.current != |s.isSelected| - 1 {
      assert !s.isSelected[|s.isSelected| - 1];
    }
  }

  /** The window's close event ends the menu and changes nothing else;
      mouse clicks and unknown keys change nothing. */
  lemma OtherEventsKeepSelection(s: MenuState, e: Event)
    requires Valid(s)
    requires e == Quit || e == MouseButtonDown || e == OtherEvent || e == KeyDown(OtherKey)
    ensures Step(s, e) == (if e == Quit then s.(quit := true) else s)
  {
  }

  /** Once the menu has quit, further frames are not handled. */
  lemma {:induction false} QuitIsFinal(s: MenuState, frames: seq<seq<Event>>, more: seq<seq<Event>>)
    requires Valid(s) && Frames(s, frames).quit
    ensures Frames(s, frames + more) == Frames(s, frames)
  {
    if |more| > 0 {
      var n := |more| - 1;
      QuitIsFinal(s, frames, more[..n]);
      assert (frames + more)[..|frames + more| - 1] == frames + more[..n];
    } else {
      assert frames + more == frames;
    }
  }

  /** reset leaves a non-empty menu consistent on the first item. */
  lemma ResetIsConsistent(n: nat)
    requires n > 0
    ensures OneSelected(ResetState(n)) && ResetState(n).current == 0 && !ResetState(n).quit
  {
  }

  class StartMenu {
    var isSelected: seq<bool>
    var currentSelection: int
    var quitMenu: bool

    function State(): MenuState
      reads this
    {
      MenuState(isSelected, currentSelection, quitMenu)
    }

    /** A menu with no items yet. */
    constructor ()
      ensures State() == MenuState([], 0, false)
    {
      isSelected, currentSelection, quitMenu := [], 0, false;
    }

    /** init: with the font available, the three items (start, continue,
        exit) are appended and the first item is highlighted; without it
        init fails before creating any item. */
    method Init(fontLoaded: bool) returns (ok: bool)
      modifies this
      ensures ok == fontLoaded
      ensures ok ==> isSelected == (old(isSelected) + [false, false, false])[0 := true]
      ensures !ok ==> isSelected == old(isSelected)
      ensures currentSelection == old(currentSelection) && quitMenu == old(quitMenu)
    {
      if !fontLoaded {
        return false;
      }
      isSelected := isSelected + [false, false, false];
      if |isSelected| > 0 {
        isSelected := isSelected[0 := true];
      }
      return true;
    }

    /** One event of the handleEvents poll loop. */
    method HandleEvent(e: Event)
      requires Valid(State())
      modifies this
      ensures State() == Step(old(State()), e)
    {
      var n := |isSelected|;
      match e {
        case Quit =>
          quitMenu := true;
        case KeyDown(k) =>
          if k == Up || k == W {
            isSelected := isSelected[currentSelection := false];
            currentSelection := (currentSelection - 1 + n) % n;
            isSelected := isSelected[currentSelection := true];
          } else if k == Down || k == S {
            isSelected := isSelected[currentSelection := false];
            currentSelection := (currentSelection + 1) % n;
            isSelected := isSelected[currentSelection := true];
          } else if k == Return || k == Space {
            quitMenu := true;
          } else if k == Escape {
            currentSelection := n - 1;
            quitMenu := true;
          }
        case MouseButtonDown =>
        case OtherEvent =>
      }
    }

    /** handleEvents: drain one frame's events. */
    method HandleEvents(events: seq<Event>)
      requires Valid(State())
      modifies this
      ensures State() == Steps(old(State()), events)
    {
      var i := 0;
      while i < |events|
        invariant 0 <= i <= |events|
        invariant Valid(old(State()))
        invariant State() == Steps(old(State()), events[..i])
      {
        assert events[..i + 1][..i] == events[..i];
        HandleEvent(events[i]);
        i := i + 1;
      }
      assert events[..i] == events;
    }

    /** run: handle frames until the menu quits, then map the selection to
        the choice 0 (new game), 1 (continue) or 2 (exit). `finished` is
        false when the frames ran out first (the real menu keeps
        polling). */
    method Run(frames: seq<seq<Event>>) returns (finished: bool, choice: int)
      requires Valid(State())
      modifies this
      ensures State() == Frames(old(State()), frames)
      ensures finished == quitMenu
      ensures finished ==> choice == Choice(currentSelection)
    {
      var f := 0;
      while f < |frames| && !quitMenu
        invariant 0 <= f <= |frames|
        invariant Valid(old(State()))
        invariant State() == Frames(old(State()), frames[..f])
      {
        assert frames[..f + 1][..f] == frames[..f];
        HandleEvents(frames[f]);
        f := f + 1;
      }
      if f < |frames| {
        QuitIsFinal(old(State()), frames[..f], frames[f..]);
        assert frames[..f] + frames[f..] == frames;
      } else {
        assert frames[..f] == frames;
      }
      finished := quitMenu;
      choice := 0;
      if finished {
        if currentSelection == 0 {
          choice := 0;
        } else if currentSelection == 1 {
          choice := 1;
        } else if currentSelection == 2 {
          choice := 2;
        } else {
          choice := 0;
        }
      }
    }

    /** reset: quit cleared, selection on the first item, and the flags
        rewritten so that only the first item is highlighted. */
    method Reset()
      modifies this
      ensures State() == ResetState(|old(isSelected)|)
    {
      quitMenu := false;
      currentSelection := 0;
      var i := 0;
      while i < |isSelected|
        invariant 0 <= i <= |isSelected| == |old(isSelected)|
        invariant forall j :: 0 <= j < i ==> isSelected[j] == (j == 0)
        invariant !quitMenu && currentSelection == 0
      {
        isSelected := isSelected[i := i == 0];
        i := i + 1;
      }
      assert isSelected == seq(|old(isSelected)|, j => j == 0);
    }
  }
}
