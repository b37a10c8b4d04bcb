/**
 * The panel itself: the state RemoteTabsPanel keeps in its own fields and in its table
 * view, and the view-controller callbacks that update that state step by step.
 */
module Panel {
  import opened Wrappers
  import opened RemoteTabs

  /** What the panel asks of its refresh control. */
  datatype IndicatorEvent = BeginRefreshing | EndRefreshing

  class RemoteTabsPanel {
    /** The stored hierarchy; None until the first successful fetch. */
    var clientAndTabs: Option<seq<ClientAndTabs>>
    /** Whether the sign-in overlay is on top of the table. */
    var overlayPresent: bool
    /** The table view's scrolling switch. */
    var scrollEnabled: bool
    /** Whether the table view draws single-line separators (otherwise none). */
    var separatorsShown: bool
    /** Whether the table view has a placeholder background view. */
    var backgroundShown: bool
    /** Whether the refresh control is spinning. */
    var refreshing: bool
    /** Every begin/end request made to the refresh control, in order. */
    ghost var indicatorEvents: seq<IndicatorEvent>
    /** The number of fetches started whose completion has not run yet. */
    ghost var pending: nat

    /**
     * The overlay is exactly the state in which scrolling is off, the two table visuals
     * always agree, the store only holds clients with tabs, the control is spinning
     * exactly when its last request was a begin, and every begin request is matched by
     * an end request or by a fetch still outstanding.
     */
    ghost predicate Valid()
      reads this
    {
      && (overlayPresent <==> !scrollEnabled)
      && (separatorsShown <==> !backgroundShown)
      && WellFormedStore(clientAndTabs)
      && (refreshing <==> indicatorEvents != [] && indicatorEvents[|indicatorEvents| - 1] == BeginRefreshing)
      && multiset(indicatorEvents)[BeginRefreshing] == multiset(indicatorEvents)[EndRefreshing] + pending
    }

    /** The panel after loading: a default table view (scrolling, separators, no background) and nothing fetched. */
    constructor ()
      ensures Valid()
      ensures clientAndTabs == None && !overlayPresent && scrollEnabled
      ensures separatorsShown && !backgroundShown && !refreshing && indicatorEvents == [] && pending == 0
    {
      clientAndTabs := None;
      overlayPresent := false;
      scrollEnabled := true;
      separatorsShown := true;
      backgroundShown := false;
      refreshing := false;
      indicatorEvents := [];
      pending := 0;
    }

    /** Without an account, show the overlay; with one, remove it and start a refresh. */
    method ViewWillAppear(hasAccount: bool)
      requires Valid()
      modifies this
      ensures Valid()
      ensures clientAndTabs == old(clientAndTabs)
      ensures separatorsShown == old(separatorsShown) && backgroundShown == old(backgroundShown)
      ensures !hasAccount ==> overlayPresent && !scrollEnabled
      ensures !hasAccount ==> refreshing == old(refreshing) && indicatorEvents == old(indicatorEvents)
      ensures !hasAccount ==> pending == old(pending)
      ensures hasAccount ==> !overlayPresent && scrollEnabled
      ensures hasAccount ==> refreshing && indicatorEvents == old(indicatorEvents) + [BeginRefreshing]
      ensures hasAccount ==> pending == old(pending) + 1
    {
      if !hasAccount {
        SetupNoAccountOverlay();
      } else {
        RemoveNoAccountOverlay();
        BeginRefresh();
      }
    }

    /** Put the overlay up and stop scrolling, unless an overlay is already up. */
    method SetupNoAccountOverlay()
      requires Valid()
      modifies this
      ensures Valid()
      ensures overlayPresent && !scrollEnabled
      ensures old(overlayPresent) ==> unchanged(this)
      ensures clientAndTabs == old(clientAndTabs) && refreshing == old(refreshing)
      ensures separatorsShown == old(separatorsShown) && backgroundShown == old(backgroundShown)
      ensures indicatorEvents == old(indicatorEvents) && pending == old(pending)
    {
      if !overlayPresent {
        scrollEnabled := false;
        overlayPresent := true;
      }
    }

    /** Take the overlay down and allow scrolling, if an overlay is up. */
    method RemoveNoAccountOverlay()
      requires Valid()
      modifies this
      ensures Valid()
      ensures !overlayPresent && scrollEnabled
      ensures !old(overlayPresent) ==> unchanged(this)
      ensures clientAndTabs == old(clientAndTabs) && refreshing == old(refreshing)
      ensures separatorsShown == old(separatorsShown) && backgroundShown == old(backgroundShown)
      ensures indicatorEvents == old(indicatorEvents) && pending == old(pending)
    {
      if overlayPresent {
        scrollEnabled := true;
        overlayPresent := false;
      }
    }

    /** The synchronous part of a refresh: spin the control; the fetch is then outstanding. */
    method BeginRefresh()
      requires Valid()
      modifies this
      ensures Valid()
      ensures refreshing && indicatorEvents == old(indicatorEvents) + [BeginRefreshing]
      ensures pending == old(pending) + 1
      ensures clientAndTabs == old(clientAndTabs)
      ensures overlayPresent == old(overlayPresent) && scrollEnabled == old(scrollEnabled)
      ensures separatorsShown == old(separatorsShown) && backgroundShown == old(backgroundShown)
    {
      refreshing := true;
      indicatorEvents := indicatorEvents + [BeginRefreshing];
      pending := pending + 1;
    }

    /**
     * The completion of a refresh. A success replaces the store with the clients that have
     * tabs and picks the visuals from it; a failure changes nothing. Either way the control
     * is told to stop, once.
     */
    method CompleteRefresh(outcome: Result<seq<ClientAndTabs>>)
      requires Valid()
      requires pending > 0
      modifies this
      ensures Valid()
      ensures outcome.Success? ==> clientAndTabs == Some(ClientsWithTabs(outcome.value))
      ensures outcome.Success? ==> (backgroundShown <==> ClientsWithTabs(outcome.value) == [])
      ensures outcome.Success? ==> (separatorsShown <==> ClientsWithTabs(outcome.value) != [])
      ensures outcome.Failure? ==> clientAndTabs == old(clientAndTabs)
      ensures outcome.Failure? ==>
                separatorsShown == old(separatorsShown) && backgroundShown == old(backgroundShown)
      ensures !refreshing && indicatorEvents == old(indicatorEvents) + [EndRefreshing]
      ensures pending == old(pending) - 1
      ensures overlayPresent == old(overlayPresent) && scrollEnabled == old(scrollEnabled)
    {
      match outcome {
        case Success(fetched) =>
          clientAndTabs := Some(ClientsWithTabs(fetched));
          var stored := clientAndTabs;
          if stored.Some? && |stored.value| > 0 {
            backgroundShown := false;
            separatorsShown := true;
          } else {
            backgroundShown := true;
            separatorsShown := false;
          }
        case Failure(_) =>
      }
      refreshing := false;
      indicatorEvents := indicatorEvents + [EndRefreshing];
      pending := pending - 1;
    }

    /** One refresh whose fetch completes before any other refresh starts. */
    method Refresh(outcome: Result<seq<ClientAndTabs>>)
      requires Valid()
      modifies this
      ensures Valid()
      ensures !refreshing && indicatorEvents == old(indicatorEvents) + [BeginRefreshing, EndRefreshing]
      ensures pending == old(pending)
      ensures outcome.Success? ==> clientAndTabs == Some(ClientsWithTabs(outcome.value))
      ensures outcome.Success? ==> (backgroundShown <==> ClientsWithTabs(outcome.value) == [])
      ensures outcome.Failure? ==> clientAndTabs == old(clientAndTabs)
      ensures outcome.Failure? ==>
                separatorsShown == old(separatorsShown) && backgroundShown == old(backgroundShown)
      ensures overlayPresent == old(overlayPresent) && scrollEnabled == old(scrollEnabled)
    {
      BeginRefresh();
      CompleteRefresh(outcome);
    }

    /** The URL of the selected tab, recorded as typed; nothing when nothing is stored. */
    method DidSelectRow(section: nat, item: nat) returns (selection: Option<URLSelection>)
      requires clientAndTabs.Some? ==>
                 section < |clientAndTabs.value| && item < |clientAndTabs.value[section].tabs|
      ensures selection.Some? <==> clientAndTabs.Some?
      ensures selection.Some? ==> selection.value.visitType == Typed
      ensures selection.Some? ==> selection.value.url == clientAndTabs.value[section].tabs[item].url
    {
      var tab := TabAt(clientAndTabs, section, item);
      if tab.Some? {
        selection := Some(URLSelection(tab.value.url, Typed));
      } else {
        selection := None;
      }
    }
  }
}
