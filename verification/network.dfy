/**
 The network choice made by `connectWiFi`: reuse stored credentials when the
 radio has them, otherwise scan and join whichever of the two known networks
 was heard more strongly. The radio is not modelled: the stored-credentials
 test and the scan list are inputs.
 */
module Network {

  /** One line of a scan: a network name and its signal strength (dBm). */
  datatype Entry = Entry(ssid: string, rssi: int)

  /** The two networks the node knows. */
  datatype Candidate = Wario | HobbyHouse {
    function Ssid(): string {
      match this
      case Wario => "Wario"
      case HobbyHouse => "HobbyHouse"
    }
  }

  /** How the radio is asked to join: by its stored credentials, or by name and passphrase. */
  datatype Join = ReconnectStored | Begin(net: Candidate)

  /** The strength recorded for a network that the scan did not see. */
  const Unseen := -999

  /**
   The strength a scan reports for `ssid`: that of its LAST entry, or `Unseen`
   when no entry carries that name.
   */
  function LastStrength(scan: seq<Entry>, ssid: string): (r: int)
    ensures (forall i | 0 <= i < |scan| :: scan[i].ssid != ssid) ==> r == Unseen
    ensures (exists i | 0 <= i < |scan| :: scan[i].ssid == ssid) ==>
      exists i | 0 <= i < |scan| ::
        && scan[i].ssid == ssid && r == scan[i].rssi
        && forall j | i < j < |scan| :: scan[j].ssid != ssid
    decreases |scan|
  {
    if |scan| == 0 then Unseen
    else if scan[|scan| - 1].ssid == ssid then scan[|scan| - 1].rssi
    else
      var r := LastStrength(scan[..|scan| - 1], ssid);
      assert forall i | 0 <= i < |scan| - 1 :: scan[..|scan| - 1][i] == scan[i];
      r
  }

  /** The scan loop: one pass over the list, each matching entry overwriting the previous reading. */
  method ScanStrengths(scan: seq<Entry>) returns (wario: int, hobbyHouse: int)
    ensures wario == LastStrength(scan, "Wario")
    ensures hobbyHouse == LastStrength(scan, "HobbyHouse")
  {
    wario := Unseen;
    hobbyHouse := Unseen;
    var i := 0;
    while i < |scan|
      invariant 0 <= i <= |scan|
      invariant wario == LastStrength(scan[..i], "Wario")
      invariant hobbyHouse == LastStrength(scan[..i], "HobbyHouse")
    {
      assert scan[..i + 1][..i] == scan[..i];
      if scan[i].ssid == "Wario" {
        wario := scan[i].rssi;
      }
      if scan[i].ssid == "HobbyHouse" {
        hobbyHouse := scan[i].rssi;
      }
      i := i + 1;
    }
    assert scan[..i] == scan;
  }

  function Strength(c: Candidate, wario: int, hobbyHouse: int): int {
    match c
    case Wario => wario
    case HobbyHouse => hobbyHouse
  }

  /** Wario only when strictly stronger; a tie (both unseen included) goes to HobbyHouse. */
  function Select(wario: int, hobbyHouse: int): (c: Candidate)
    ensures c == Wario <==> wario > hobbyHouse
    ensures Strength(c, wario, hobbyHouse) >= wario && Strength(c, wario, hobbyHouse) >= hobbyHouse
  {
    if wario > hobbyHouse then Wario else HobbyHouse
  }

  /** connectWiFi's decision, before it waits for the link. */
  function ConnectWiFi(stored: bool, scan: seq<Entry>): (j: Join)
    ensures stored <==> j.ReconnectStored?
    ensures !stored ==>
      (j == Begin(Wario) <==> LastStrength(scan, "Wario") > LastStrength(scan, "HobbyHouse"))
    ensures !stored && j == Begin(HobbyHouse) ==>
      LastStrength(scan, "HobbyHouse") >= LastStrength(scan, "Wario")
  {
    if stored then ReconnectStored
    else Begin(Select(LastStrength(scan, "Wario"), LastStrength(scan, "HobbyHouse")))
  }

  /** With stored credentials the scan is never consulted. */
  lemma StoredCredentialsSkipScan(scan1: seq<Entry>, scan2: seq<Entry>)
    ensures ConnectWiFi(true, scan1) == ConnectWiFi(true, scan2) == ReconnectStored
  {
  }

  /** A later entry for a name overrides every earlier one; other names keep their reading. */
  lemma LaterEntryOverrides(scan: seq<Entry>, e: Entry, ssid: string)
    ensures LastStrength(scan + [e], e.ssid) == e.rssi
    ensures ssid != e.ssid ==> LastStrength(scan + [e], ssid) == LastStrength(scan, ssid)
  {
    assert (scan + [e])[..|scan|] == scan;
  }

  /** Entries for networks other than the two known ones never affect the choice. */
  lemma {:induction false} ForeignEntryIgnored(pre: seq<Entry>, e: Entry, post: seq<Entry>, ssid: string)
    requires e.ssid != ssid
    ensures LastStrength(pre + [e] + post, ssid) == LastStrength(pre + post, ssid)
    decreases |post|
  {
    if |post| == 0 {
      assert pre + [e] + post == pre + [e];
      assert pre + post == pre;
      LaterEntryOverrides(pre, e, ssid);
    } else {
      var last := post[|post| - 1];
      var init := post[..|post| - 1];
      assert pre + [e] + post == (pre + [e] + init) + [last];
      assert pre + post == (pre + init) + [last];
      ForeignEntryIgnored(pre, e, init, ssid);
      LaterEntryOverrides(pre + [e] + init, last, ssid);
      LaterEntryOverrides(pre + init, last, ssid);
    }
  }

  /** The choice depends only on the two known networks' entries. */
  lemma ChoiceIgnoresForeignEntry(pre: seq<Entry>, e: Entry, post: seq<Entry>)
    requires e.ssid != "Wario" && e.ssid != "HobbyHouse"
    ensures ConnectWiFi(false, pre + [e] + post) == ConnectWiFi(false, pre + post)
  {
    ForeignEntryIgnored(pre, e, post, "Wario");
    ForeignEntryIgnored(pre, e, post, "HobbyHouse");
  }

  /** A scan that saw neither known network joins HobbyHouse. */
  lemma NothingHeardJoinsHobbyHouse(scan: seq<Entry>)
    requires forall i | 0 <= i < |scan| :: scan[i].ssid != "Wario" && scan[i].ssid != "HobbyHouse"
    ensures ConnectWiFi(false, scan) == Begin(HobbyHouse)
  {
  }

  /** Wario at -40 beats HobbyHouse at -60, the reverse loses, and a tie goes to HobbyHouse. */
  lemma StrongerWins()
    ensures ConnectWiFi(false, [Entry("Wario", -40), Entry("HobbyHouse", -60)]) == Begin(Wario)
    ensures ConnectWiFi(false, [Entry("Wario", -60), Entry("HobbyHouse", -40)]) == Begin(HobbyHouse)
    ensures ConnectWiFi(false, [Entry("Wario", -50), Entry("HobbyHouse", -50)]) == Begin(HobbyHouse)
  {
    LaterEntryOverrides([Entry("Wario", -40)], Entry("HobbyHouse", -60), "Wario");
    LaterEntryOverrides([Entry("Wario", -60)], Entry("HobbyHouse", -40), "Wario");
    LaterEntryOverrides([Entry("Wario", -50)], Entry("HobbyHouse", -50), "Wario");
    LaterEntryOverrides([], Entry("Wario", -40), "Wario");
    LaterEntryOverrides([], Entry("Wario", -60), "Wario");
    LaterEntryOverrides([], Entry("Wario", -50), "Wario");
  }
}
