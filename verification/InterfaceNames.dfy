/** Which interface names are mobile data, Wi-Fi, hotspot and USB tethering, and which of these exclude each other. */
module InterfaceNames {
  import opened Wrappers
  import opened PlanBuilder
  import Decimal

  /** The letters a name starts with. */
  predicate Starts(name: string, a: char, b: char) {
    |name| >= 2 && name[0] == a && name[1] == b
  }

  lemma PrefixStarts(prefix: string, name: string)
    requires |prefix| >= 2
    ensures prefix <= name ==> Starts(name, prefix[0], prefix[1])
  {
  }

  lemma MobileStarts(name: string)
    ensures IsMobileInterface(name) ==>
      || Starts(name, 'r', 'm') || Starts(name, 'c', 'c') || Starts(name, 'p', 'd') || Starts(name, 'w', 'w')
      || Starts(name, 'v', '4') || Starts(name, 'r', '_') || Starts(name, 'c', 'l')
  {
    PrefixStarts("rmnet", name);
    PrefixStarts("ccmni", name);
    PrefixStarts("pdp", name);
    PrefixStarts("wwan", name);
    PrefixStarts("v4-rmnet", name);
    PrefixStarts("r_rmnet", name);
    PrefixStarts("clat", name);
  }

  lemma WifiStarts(name: string)
    ensures IsWifiInterface(name) ==> Starts(name, 'w', 'l') || Starts(name, 'w', 'i') || Starts(name, 's', 'w')
  {
    PrefixStarts("wlan", name);
    PrefixStarts("wifi", name);
    PrefixStarts("swlan", name);
  }

  lemma HotspotStarts(name: string)
    ensures IsHotspotInterface(name) ==>
      Starts(name, 'a', 'p') || Starts(name, 's', 'o') || Starts(name, 's', 'w') || Starts(name, 'w', 'l')
  {
    PrefixStarts("ap", name);
    PrefixStarts("softap", name);
    PrefixStarts("swlan", name);
    PrefixStarts("wlan", name);
  }

  lemma UsbStarts(name: string)
    ensures IsUsbTetherInterface(name) ==> Starts(name, 'r', 'n') || Starts(name, 'u', 's')
  {
    PrefixStarts("rndis", name);
    PrefixStarts("usb", name);
  }

  /** A name belongs to one of the four kinds of interface, except that some Wi-Fi names are hotspots as well. */
  lemma KindsApart(name: string)
    ensures !(IsMobileInterface(name) && IsWifiInterface(name))
    ensures !(IsMobileInterface(name) && IsHotspotInterface(name))
    ensures !(IsUsbTetherInterface(name) && (IsMobileInterface(name) || IsWifiInterface(name) || IsHotspotInterface(name)))
  {
    hide IsMobileInterface, IsWifiInterface, IsHotspotInterface, IsUsbTetherInterface;
    MobileStarts(name);
    WifiStarts(name);
    HotspotStarts(name);
    UsbStarts(name);
  }

  /** The Wi-Fi names that are hotspots: `swlan`, and `wlan` with a positive number of at most 255. */
  lemma WifiHotspots(name: string)
    ensures IsWifiInterface(name) && IsHotspotInterface(name) <==>
      || "swlan" <= name
      || ("wlan" <= name && Decimal.Parse(name[4..], 255).Some? && Decimal.Parse(name[4..], 255).value != 0)
  {
    WifiStarts(name);
    PrefixStarts("ap", name);
    PrefixStarts("softap", name);
  }

  /** The numbered Wi-Fi interfaces: the first is a client, the others are hotspots. */
  lemma NumberedWifi(n: nat)
    ensures IsWifiInterface("wlan" + Decimal.Text(n))
    ensures IsHotspotInterface("wlan" + Decimal.Text(n)) <==> 0 < n <= 255
  {
    var name := "wlan" + Decimal.Text(n);
    Decimal.ParseText(n, 255);
    assert name[..4] == "wlan" && name[4..] == Decimal.Text(n);
    assert name[0] == 'w';
  }

  /** The names that the system gives: each kind by its prefixes. */
  lemma KnownNames(suffix: string)
    ensures IsMobileInterface("rmnet" + suffix) && IsMobileInterface("ccmni" + suffix) && IsMobileInterface("pdp" + suffix)
    ensures IsMobileInterface("wwan" + suffix) && IsMobileInterface("v4-rmnet" + suffix)
    ensures IsMobileInterface("r_rmnet" + suffix) && IsMobileInterface("clat" + suffix)
    ensures IsWifiInterface("wlan" + suffix) && IsWifiInterface("wifi" + suffix) && IsWifiInterface("swlan" + suffix)
    ensures IsHotspotInterface("ap" + suffix) && IsHotspotInterface("softap" + suffix) && IsHotspotInterface("swlan" + suffix)
    ensures IsUsbTetherInterface("rndis" + suffix) && IsUsbTetherInterface("usb" + suffix)
  {
  }

  /** Loopback and the tunnel device belong to none of them. */
  lemma OwnDevices()
    ensures forall name :: name == "lo" || name == "nethop0" ==>
      !IsMobileInterface(name) && !IsWifiInterface(name) && !IsHotspotInterface(name) && !IsUsbTetherInterface(name)
  {
    forall name | name == "lo" || name == "nethop0"
      ensures !IsMobileInterface(name) && !IsWifiInterface(name) && !IsHotspotInterface(name) && !IsUsbTetherInterface(name)
    {
      hide IsMobileInterface, IsWifiInterface, IsHotspotInterface, IsUsbTetherInterface;
      MobileStarts(name);
      WifiStarts(name);
      HotspotStarts(name);
      UsbStarts(name);
    }
  }
}
