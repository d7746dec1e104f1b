/** The devices page: the type filter buttons, the status colour and the
    icon of each card. */
module DevicesCams {
  import opened Text
  import opened Seqs

  datatype Device = Device(id: int, name: string, deviceType: string, status: string, location: string, lastActive: string)

  const SeededDevices: seq<Device> := [
    Device(1, "Front Door Camera", "Camera", "online", "Main Entrance", "2 mins ago"),
    Device(2, "Backyard Camera", "Camera", "offline", "Backyard", "1 hour ago"),
    Device(3, "Office Router", "Network", "online", "Main Office", "Now"),
    Device(4, "Server Rack", "Server", "maintenance", "Data Center", "5 mins ago")
  ]

  /** The filter buttons, in order. */
  const DeviceTypes: seq<string> := ["All", "Camera", "Network", "Server", "Sensor"]

  /** `filteredDevices`: "All" is the list itself, any other type keeps the
      devices of that type. */
  function FilteredDevices(devices: seq<Device>, selectedType: string): (r: seq<Device>)
    ensures selectedType == "All" ==> r == devices
    ensures selectedType != "All" ==> forall d :: d in r <==> d in devices && d.deviceType == selectedType
    ensures selectedType != "All" ==> forall d ::
      multiset(r)[d] == if d.deviceType == selectedType then multiset(devices)[d] else 0
    ensures IsSubsequence(r, devices)
  {
    if selectedType == "All" then
      SubsequenceOfSelf(devices);
      devices
    else
      FilterSpec(devices, (d: Device) => d.deviceType == selectedType);
      Filter(devices, (d: Device) => d.deviceType == selectedType)
  }

  /** "Sensor" is offered as a filter but no seeded device has that type, so
      it shows an empty grid. */
  lemma SensorMatchesNoSeededDevice()
    ensures "Sensor" in DeviceTypes
    ensures FilteredDevices(SeededDevices, "Sensor") == []
  {
    FilterKeepsNone(SeededDevices, (d: Device) => d.deviceType == "Sensor");
  }

  /** Each offered type other than "Sensor" shows at least one seeded device. */
  lemma OtherTypesMatchSomeSeededDevice(t: string)
    requires t in DeviceTypes && t != "Sensor"
    ensures FilteredDevices(SeededDevices, t) != []
  {
    if t != "All" {
      var d := if t == "Camera" then SeededDevices[0] else if t == "Network" then SeededDevices[2] else SeededDevices[3];
      assert d in SeededDevices && d.deviceType == t;
    }
  }

  const Green := "#22c55e"
  const Red := "#ef4444"
  const Amber := "#f59e0b"

  /** `getStatusColor`: online is green, offline red, anything else amber. */
  function StatusColor(status: string): (color: string)
    ensures color == Green <==> status == "online"
    ensures color == Red <==> status == "offline"
    ensures color == Amber <==> status != "online" && status != "offline"
  {
    if status == "online" then Green
    else if status == "offline" then Red
    else Amber
  }

  const CameraGlyph := "\U{1F4F7}"
  const NetworkGlyph := "\U{1F4E1}"
  const ServerGlyph := "\U{1F5A5}\U{FE0F}"
  const PlugGlyph := "\U{1F50C}"

  /** `getIcon`: a glyph per known type, the plug for any other. */
  function Icon(deviceType: string): (glyph: string)
    ensures glyph == CameraGlyph <==> deviceType == "Camera"
    ensures glyph == NetworkGlyph <==> deviceType == "Network"
    ensures glyph == ServerGlyph <==> deviceType == "Server"
    ensures glyph == PlugGlyph <==> deviceType !in {"Camera", "Network", "Server"}
  {
    if deviceType == "Camera" then CameraGlyph
    else if deviceType == "Network" then NetworkGlyph
    else if deviceType == "Server" then ServerGlyph
    else PlugGlyph
  }

  const IpPrefix := "192.168.1."

  /** The IP address line: the fixed prefix followed by the device id. */
  function IpAddress(d: Device): (ip: string)
    ensures |ip| > |IpPrefix| && ip[..|IpPrefix|] == IpPrefix
  {
    IpPrefix + IntToString(d.id)
  }

  /** The last part of the shown address is the device id. */
  lemma IpAddressEndsWithId(d: Device)
    requires d.id >= 0
    ensures var ip := IpAddress(d);
      (forall i :: |IpPrefix| <= i < |ip| ==> IsDigit(ip[i])) && DigitsValue(ip[|IpPrefix|..]) == d.id
  {
    assert IpAddress(d)[|IpPrefix|..] == NatToString(d.id);
    NatToStringRoundTrip(d.id);
  }

  class DevicesPage {
    const devices: seq<Device>
    var selectedType: string

    constructor ()
      ensures devices == SeededDevices && selectedType == "All"
    {
      devices := SeededDevices;
      selectedType := "All";
    }

    /** The cards shown. */
    function Shown(): (r: seq<Device>)
      reads this
      ensures IsSubsequence(r, devices)
    {
      FilteredDevices(devices, selectedType)
    }

    /** A filter button click. */
    method SelectType(t: string)
      modifies this
      ensures selectedType == t
    {
      selectedType := t;
    }
  }
}
