/**
 * The value side of the remote-tabs panel: the records a sync fetch delivers, the
 * filter that turns them into the table's sections, the section/row/index lookups
 * the table view asks for, and the device-type classification of a section header.
 */
module RemoteTabs {
  import opened Wrappers

  /** A remote device known to the sync backend. */
  datatype RemoteClient = RemoteClient(guid: string, name: string, deviceType: string, modified: int)

  /** One tab open on a remote device. */
  datatype RemoteTab = RemoteTab(title: string, url: string, lastUsed: int)

  /** One remote device with the tabs it has open, in the order the backend gave them. */
  datatype ClientAndTabs = ClientAndTabs(client: RemoteClient, tabs: seq<RemoteTab>)

  predicate HasTabs(c: ClientAndTabs) {
    |c.tabs| > 0
  }

  // ---------------------------------------------------------------------------
  // Hierarchy filter
  // ---------------------------------------------------------------------------

  /** The stored hierarchy: the fetched entries that have at least one tab, in fetch order. */
  function ClientsWithTabs(fetched: seq<ClientAndTabs>): (shown: seq<ClientAndTabs>)
    ensures |shown| <= |fetched|
    ensures forall k :: 0 <= k < |shown| ==> HasTabs(shown[k])
    ensures forall c :: c in shown <==> c in fetched && HasTabs(c)
    ensures (forall k :: 0 <= k < |fetched| ==> HasTabs(fetched[k])) ==> shown == fetched
  {
    if fetched == [] then []
    else if HasTabs(fetched[0]) then [fetched[0]] + ClientsWithTabs(fetched[1..])
    else ClientsWithTabs(fetched[1..])
  }

  /** `r` can be obtained from `s` by deleting elements, without reordering. */
  predicate IsSubsequence<T(==)>(r: seq<T>, s: seq<T>)
    decreases |s|
  {
    if r == [] then true
    else if s == [] then false
    else if r[0] == s[0] then IsSubsequence(r[1..], s[1..])
    else IsSubsequence(r, s[1..])
  }

  /** The filter keeps the fetch order: its result is a subsequence of the fetched list. */
  lemma {:induction false} ClientsWithTabsKeepsOrder(fetched: seq<ClientAndTabs>)
    ensures IsSubsequence(ClientsWithTabs(fetched), fetched)
  {
    if fetched != [] {
      ClientsWithTabsKeepsOrder(fetched[1..]);
      var shown := ClientsWithTabs(fetched);
      if !HasTabs(fetched[0]) && shown != [] {
        assert HasTabs(shown[0]);
        assert shown[0] != fetched[0];
      }
    }
  }

  /** Each entry with tabs is kept as often as it was fetched; each entry without tabs is dropped. */
  lemma {:induction false} ClientsWithTabsKeepsMultiplicity(fetched: seq<ClientAndTabs>, c: ClientAndTabs)
    ensures multiset(ClientsWithTabs(fetched))[c] == if HasTabs(c) then multiset(fetched)[c] else 0
  {
    if fetched != [] {
      ClientsWithTabsKeepsMultiplicity(fetched[1..], c);
      assert fetched == [fetched[0]] + fetched[1..];
      assert multiset(fetched) == multiset{fetched[0]} + multiset(fetched[1..]);
    }
  }

  /** Filtering a concatenation filters each part and keeps them in order. */
  lemma {:induction false} ClientsWithTabsDistributes(a: seq<ClientAndTabs>, b: seq<ClientAndTabs>)
    ensures ClientsWithTabs(a + b) == ClientsWithTabs(a) + ClientsWithTabs(b)
  {
    if a == [] {
      assert a + b == b;
    } else {
      assert (a + b)[0] == a[0];
      assert (a + b)[1..] == a[1..] + b;
      ClientsWithTabsDistributes(a[1..], b);
    }
  }

  /** The number of tabs over all entries of a list. */
  function TotalTabs(entries: seq<ClientAndTabs>): nat
  {
    if entries == [] then 0 else |entries[0].tabs| + TotalTabs(entries[1..])
  }

  /** Dropping the clients without tabs drops no tab: the table shows every fetched tab. */
  lemma {:induction false} ClientsWithTabsKeepsEveryTab(fetched: seq<ClientAndTabs>)
    ensures TotalTabs(ClientsWithTabs(fetched)) == TotalTabs(fetched)
  {
    if fetched != [] {
      ClientsWithTabsKeepsEveryTab(fetched[1..]);
      var rest := ClientsWithTabs(fetched[1..]);
      if HasTabs(fetched[0]) {
        assert ([fetched[0]] + rest)[1..] == rest;
      }
    }
  }

  // ---------------------------------------------------------------------------
  // Lookups the table view makes on the stored hierarchy
  // ---------------------------------------------------------------------------

  /** What the panel may hold: nothing yet, or a list of clients that each have a tab. */
  predicate WellFormedStore(stored: Option<seq<ClientAndTabs>>) {
    stored.Some? ==> forall k :: 0 <= k < |stored.value| ==> HasTabs(stored.value[k])
  }

  /** The number of sections of the table. */
  function NumberOfSections(stored: Option<seq<ClientAndTabs>>): (n: nat)
    ensures n == 0 <==> stored.None? || stored.value == []
    ensures stored.Some? ==> n == |stored.value|
  {
    match stored
    case None => 0
    case Some(entries) => |entries|
  }

  /**
   * The number of rows of one section. Swift's array subscript traps on an index out
   * of range, so a stored list demands a section index inside it.
   */
  function NumberOfRows(stored: Option<seq<ClientAndTabs>>, section: nat): (n: nat)
    requires stored.Some? ==> section < |stored.value|
    ensures stored.None? ==> n == 0
    ensures stored.Some? ==> n == |stored.value[section].tabs|
  {
    match stored
    case None => 0
    case Some(entries) => |entries[section].tabs|
  }

  /** A (section, item) pair that the table's own counts allow. */
  predicate ValidIndexPath(stored: Option<seq<ClientAndTabs>>, section: nat, item: nat) {
    && section < NumberOfSections(stored)
    && item < NumberOfRows(stored, section)
  }

  /** The tab shown at (section, item); nothing when nothing is stored. */
  function TabAt(stored: Option<seq<ClientAndTabs>>, section: nat, item: nat): (tab: Option<RemoteTab>)
    requires stored.Some? ==> section < |stored.value| && item < |stored.value[section].tabs|
    ensures tab.Some? <==> stored.Some?
    ensures tab.Some? ==> tab.value == stored.value[section].tabs[item]
    ensures tab.Some? ==> ValidIndexPath(stored, section, item)
  {
    match stored
    case None => None
    case Some(entries) => Some(entries[section].tabs[item])
  }

  /** In a well-formed store every section has at least one row. */
  lemma StoredSectionsHaveRows(stored: Option<seq<ClientAndTabs>>, section: nat)
    requires WellFormedStore(stored)
    requires section < NumberOfSections(stored)
    ensures NumberOfRows(stored, section) >= 1
  {
  }

  /** Storing the filtered fetch yields a well-formed store with one section per client that has tabs. */
  lemma FetchedStoreIsWellFormed(fetched: seq<ClientAndTabs>)
    ensures WellFormedStore(Some(ClientsWithTabs(fetched)))
    ensures NumberOfSections(Some(ClientsWithTabs(fetched))) <= |fetched|
    ensures NumberOfSections(Some(ClientsWithTabs(fetched))) == 0 <==>
              forall k :: 0 <= k < |fetched| ==> !HasTabs(fetched[k])
  {
    var shown := ClientsWithTabs(fetched);
    if shown != [] {
      assert shown[0] in shown;
    } else {
      forall k | 0 <= k < |fetched|
        ensures !HasTabs(fetched[k])
      {
        assert fetched[k] in fetched;
      }
    }
  }

  /** Every tab of every fetched client is reachable through some valid (section, item). */
  lemma EveryFetchedTabHasARow(fetched: seq<ClientAndTabs>, i: nat, j: nat)
    requires i < |fetched| && j < |fetched[i].tabs|
    ensures exists section: nat, item: nat ::
              ValidIndexPath(Some(ClientsWithTabs(fetched)), section, item) &&
              TabAt(Some(ClientsWithTabs(fetched)), section, item) == Some(fetched[i].tabs[j])
  {
    var shown := ClientsWithTabs(fetched);
    assert fetched[i] in fetched;
    assert fetched[i] in shown;
    var section :| 0 <= section < |shown| && shown[section] == fetched[i];
    assert ValidIndexPath(Some(shown), section, j);
    assert TabAt(Some(shown), section, j) == Some(fetched[i].tabs[j]);
  }

  // ---------------------------------------------------------------------------
  // Section header: device classification
  // ---------------------------------------------------------------------------

  /** The image of a section header and its accessibility label. */
  datatype DeviceImage = DeviceImage(imageName: string, accessibilityLabel: string)

  const DesktopImage := DeviceImage("deviceTypeDesktop", "computer")
  const MobileImage := DeviceImage("deviceTypeMobile", "mobile device")

  /** A device type of exactly "desktop" is a computer; every other type is a mobile device. */
  function DeviceImageFor(deviceType: string): (image: DeviceImage)
    ensures image == DesktopImage <==> deviceType == "desktop"
    ensures image == MobileImage <==> deviceType != "desktop"
  {
    if deviceType == "desktop" then DesktopImage else MobileImage
  }

  /** There are exactly two buckets, and unknown or empty types fall into the mobile one. */
  lemma DeviceImageHasTwoBuckets(deviceType: string)
    ensures DeviceImageFor(deviceType) in {DesktopImage, MobileImage}
    ensures DesktopImage != MobileImage
    ensures DeviceImageFor("mobile") == DeviceImageFor("") == DeviceImageFor("tablet") == MobileImage
  {
  }

  /** What a section header shows: the client's name and its device image. */
  datatype Header = Header(title: string, image: DeviceImage)

  /** The header of a section; nothing when nothing is stored. */
  function HeaderForSection(stored: Option<seq<ClientAndTabs>>, section: nat): (header: Option<Header>)
    requires stored.Some? ==> section < |stored.value|
    ensures header.Some? <==> stored.Some?
    ensures header.Some? ==> header.value.title == stored.value[section].client.name
    ensures header.Some? ==>
              (header.value.image == DesktopImage <==> stored.value[section].client.deviceType == "desktop")
    ensures header.Some? ==> header.value.image == DeviceImageFor(stored.value[section].client.deviceType)
  {
    match stored
    case None => None
    case Some(entries) =>
      var client := entries[section].client;
      Some(Header(client.name, DeviceImageFor(client.deviceType)))
  }

  // ---------------------------------------------------------------------------
  // Row activation
  // ---------------------------------------------------------------------------

  /** How a URL opened from this panel is recorded in history. */
  datatype VisitType = Typed

  /** The URL handed to the home panel's delegate when a row is selected. */
  datatype URLSelection = URLSelection(url: string, visitType: VisitType)
}
