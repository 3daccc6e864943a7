/** The timers list (TimersScreen.js): the panel has a fixed table of recipe timers;
    unused entries are marked empty, a new timer takes the first empty entry, and the
    list is refetched from the backend after every change. */
module Timers {
  import opened Js

  /** `from.hours` of an unused timer entry. */
  const UnusedHours: int := 655

  const UnnamedTimer: string := "Unnamed Timer"

  datatype Timer = Timer(name: string, description: string, from: map<string, Value>)

  /** `timerIsEmpty`. */
  predicate TimerIsEmpty(t: Timer)
  {
    t.name == "" || |t.from| == 0 || ("hours" in t.from && t.from["hours"] == Num(UnusedHours))
  }

  /** The index `createTimer` hands to the editor: the first empty entry, or -1. */
  function FirstEmptyTimer(list: seq<Timer>): (r: int)
    ensures -1 <= r < |list|
    ensures r >= 0 ==> TimerIsEmpty(list[r]) && forall j :: 0 <= j < r ==> !TimerIsEmpty(list[j])
    ensures r == -1 <==> forall j :: 0 <= j < |list| ==> !TimerIsEmpty(list[j])
  {
    FindIndex(list, TimerIsEmpty)
  }

  /** What one row of the list shows (`_renderRow`). */
  datatype RowView = BlankRow | TimerRow(title: string, subtitle: Option<string>)

  function RenderRow(t: Timer): RowView
  {
    if TimerIsEmpty(t) then BlankRow
    else TimerRow(if t.name != "" then t.name else UnnamedTimer,
                  if t.description != "" then Some(t.description) else None)
  }

  /** Empty entries render blank; every other row shows the timer's own name, so the
      "Unnamed Timer" placeholder branch is never reached. */
  lemma RowShowsOwnName(t: Timer)
    ensures RenderRow(t).BlankRow? <==> TimerIsEmpty(t)
    ensures RenderRow(t).TimerRow? ==> RenderRow(t).title == t.name && t.name != ""
    ensures RenderRow(t).TimerRow? ==> (RenderRow(t).subtitle.Some? <==> t.description != "")
  {
  }

  datatype CreateOutcome = Ignored | NoSpareTimers | OpenEditor(timerIndex: nat)

  /** A swipeable row component, by identity. */
  type RowRef = nat

  class TimersScreen {
    var timerList: seq<Timer>
    /** `currentlyOpenSwipeable`: at most one row is open. */
    var openRow: Option<RowRef>
    /** `swipeInProgress`: set while a row is being swiped. */
    var swipeInProgress: bool
    var activityAnimating: bool
    /** `add_disabled`: creation is refused while the list is being fetched. */
    var addDisabled: bool
    /** The rows whose `recenter()` was called, in call order. */
    var recentred: seq<RowRef>

    constructor ()
      ensures timerList == [] && openRow == None && !swipeInProgress && ScrollEnabled()
      ensures !activityAnimating && !addDisabled && recentred == []
    {
      timerList := [];
      openRow := None;
      swipeInProgress := false;
      activityAnimating := false;
      addDisabled := false;
      recentred := [];
    }

    /** The synchronous start of `fetchTimerList`, up to the backend request. */
    method BeginFetch()
      modifies this`addDisabled, this`activityAnimating
      ensures addDisabled && activityAnimating
    {
      addDisabled := true;
      activityAnimating := true;
    }

    /** The rest of `fetchTimerList` once the backend answered (`None` is `null`);
        `failed` is the error alert. */
    method CompleteFetch(result: Option<seq<Timer>>) returns (failed: bool)
      modifies this`timerList, this`addDisabled, this`activityAnimating
      ensures failed <==> result.None?
      ensures timerList == if result.Some? then result.value else old(timerList)
      ensures !addDisabled && !activityAnimating
    {
      if result.None? {
        activityAnimating := false;
        failed := true;
      } else {
        timerList := result.value;
        activityAnimating := false;
        failed := false;
      }
      addDisabled := false;
    }

    /** `fetchTimerList` as a whole: the add button is disabled during the request and
        enabled again afterwards whatever the answer. */
    method FetchTimerList(result: Option<seq<Timer>>) returns (failed: bool)
      modifies this`timerList, this`addDisabled, this`activityAnimating
      ensures failed <==> result.None?
      ensures timerList == if result.Some? then result.value else old(timerList)
      ensures !addDisabled && !activityAnimating
    {
      BeginFetch();
      failed := CompleteFetch(result);
    }

    /** `createTimer`: ignored while a fetch is running; otherwise the editor opens on the
        first empty entry, or "No spare timers" is reported. */
    method CreateTimer() returns (r: CreateOutcome)
      ensures r == Ignored <==> addDisabled
      ensures r == NoSpareTimers <==> !addDisabled && forall j :: 0 <= j < |timerList| ==> !TimerIsEmpty(timerList[j])
      ensures r.OpenEditor? ==>
        r.timerIndex < |timerList| && TimerIsEmpty(timerList[r.timerIndex]) &&
        forall j :: 0 <= j < r.timerIndex ==> !TimerIsEmpty(timerList[j])
    {
      if addDisabled {
        return Ignored;
      }
      var firstEmpty := FirstEmptyTimer(timerList);
      if firstEmpty == -1 {
        r := NoSpareTimers;
      } else {
        r := OpenEditor(firstEmpty);
      }
    }

    /** `deleteTimer` for the entry at `timerIndex`, with the backend's answers to the
        delete (`None` is `null`) and to the refetch that follows a success. The request
        names the entry by its 1-based number. */
    method DeleteTimer(timerIndex: nat, deleted: Option<Value>, refetched: Option<seq<Timer>>)
      returns (timerNumber: int, refetchRequested: bool)
      modifies this`timerList, this`addDisabled, this`activityAnimating
      ensures timerNumber == timerIndex + 1
      ensures refetchRequested <==> deleted.Some?
      ensures timerList == if deleted.Some? && refetched.Some? then refetched.value else old(timerList)
      ensures addDisabled == (old(addDisabled) && deleted.None?)
      ensures !activityAnimating
    {
      activityAnimating := true;
      timerNumber := timerIndex + 1;
      if deleted.None? {
        refetchRequested := false;
      } else {
        refetchRequested := true;
        var _ := FetchTimerList(refetched);
      }
      activityAnimating := false;
    }

    /** `recentreSwipeable`: recentre the open row, if any, and clear it. */
    method RecentreSwipeable()
      modifies this`openRow, this`recentred
      ensures openRow == None
      ensures recentred == old(recentred) + if old(openRow).Some? then [old(openRow).value] else []
    {
      if openRow.Some? {
        recentred := recentred + [openRow.value];
        openRow := None;
      }
    }

    /** `handleSwipeOpenRelease`: `row` becomes the one open row; a different row that
        was open is recentred first. */
    method HandleSwipeOpenRelease(row: RowRef)
      modifies this`openRow, this`recentred
      ensures openRow == Some(row)
      ensures recentred == old(recentred) +
        if old(openRow).Some? && old(openRow).value != row then [old(openRow).value] else []
    {
      if openRow.Some? && openRow.value != row {
        recentred := recentred + [openRow.value];
      }
      openRow := Some(row);
    }

    /** The list's `scrollEnabled` flag: the list scrolls iff no row is being swiped. */
    predicate ScrollEnabled()
      reads this
    {
      !swipeInProgress
    }

    /** A row's `onSwipeStart`: the list stops scrolling. */
    method OnSwipeStart()
      modifies this`swipeInProgress
      ensures swipeInProgress && !ScrollEnabled()
    {
      swipeInProgress := true;
    }

    /** A row's `onSwipeRelease`: the list scrolls again. */
    method OnSwipeRelease()
      modifies this`swipeInProgress
      ensures !swipeInProgress && ScrollEnabled()
    {
      swipeInProgress := false;
    }

    /** `handleSwipeCloseRelease`: no row is open any more. */
    method HandleSwipeCloseRelease()
      modifies this`openRow
      ensures openRow == None
    {
      openRow := None;
    }
  }

  /** Opening a second row closes the first: after rows `a` then `b` are opened, `b` is
      the only open row and `a` was recentred exactly when it differs from `b`. */
  method OpenTwoRows(screen: TimersScreen, a: RowRef, b: RowRef)
    requires screen.openRow == None
    modifies screen
    ensures screen.openRow == Some(b)
    ensures screen.recentred == old(screen.recentred) + if a != b then [a] else []
  {
    screen.HandleSwipeOpenRelease(a);
    screen.HandleSwipeOpenRelease(b);
  }

  /** A swipe locks the list's scrolling only while it lasts, whatever row it opens:
      scrolling is off between the start and the release, and on again after it. */
  method SwipeLocksScroll(screen: TimersScreen) returns (scrollDuring: bool)
    modifies screen
    ensures !scrollDuring && screen.ScrollEnabled()
    ensures screen.timerList == old(screen.timerList) && screen.openRow == old(screen.openRow)
  {
    screen.OnSwipeStart();
    scrollDuring := screen.ScrollEnabled();
    screen.OnSwipeRelease();
  }
}
