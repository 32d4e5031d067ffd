/**
 * Values shared by the camera variants and the dispatcher: the vendor family
 * selected by name, device descriptors produced by discovery, parameter values
 * carried in requests and replies, the BalanceWhiteAuto enumeration of the
 * Hikrobot variant, and the dotted-quad rendering of a GigE camera's IPv4 address.
 */
module Devices {
  import opened Wrappers
  import opened Strings

  /** One camera implementation per vendor family. */
  datatype Family = Ids | Mshot | Hikrobot

  /** The `camera_type` string that selects each family. */
  function FamilyName(f: Family): string {
    match f
    case Ids => "ids"
    case Mshot => "mshot"
    case Hikrobot => "hikrobot"
  }

  /**
   * `get_camera_class`: the family for a camera-type string, or None for any
   * other string (and for an unset camera type).
   */
  function CameraClassFor(cameraType: Option<string>): (r: Option<Family>)
    ensures r.Some? <==> cameraType.Some? && cameraType.value in {"ids", "mshot", "hikrobot"}
    ensures r.Some? ==> cameraType == Some(FamilyName(r.value))
  {
    match cameraType
    case Some("ids") => Some(Ids)
    case Some("mshot") => Some(Mshot)
    case Some("hikrobot") => Some(Hikrobot)
    case _ => None
  }

  /** Selecting a family by its own name gives that family back. */
  lemma CameraClassForName(f: Family)
    ensures CameraClassFor(Some(FamilyName(f))) == Some(f)
  {
  }

  /** A JSON scalar as carried in `value` fields and parameter replies. */
  datatype ParamValue = NullV | BoolV(b: bool) | IntV(i: int) | RealV(r: real) | TextV(s: string)

  /** Python's `int(x)` on a float: truncation toward zero. */
  function TruncateReal(x: real): (n: int)
    ensures 0.0 <= x ==> n as real <= x < n as real + 1.0
    ensures x < 0.0 ==> n as real - 1.0 < x <= n as real
  {
    if x >= 0.0 then x.Floor else -((-x).Floor)
  }

  /**
   * Python's `int(value)` on a JSON scalar; None where Python raises.
   * Booleans convert to 0 or 1; strings are not parsed (see README).
   */
  function ToInt(v: ParamValue): Option<int> {
    match v
    case IntV(i) => Some(i)
    case RealV(r) => Some(TruncateReal(r))
    case BoolV(b) => Some(if b then 1 else 0)
    case _ => None
  }

  /** The Hikrobot BalanceWhiteAuto modes, indexed by their enumeration code. */
  const BalanceWhiteModes: seq<string> := ["Off", "Once", "Continuous"]

  /** Reading BalanceWhiteAuto: the name for a code; codes past the list read as "Off". */
  function BalanceWhiteName(code: nat): (name: string)
    ensures name in BalanceWhiteModes
  {
    if code < |BalanceWhiteModes| then BalanceWhiteModes[code] else "Off"
  }

  /** Writing BalanceWhiteAuto: `mode_map.get(value, 0)`. */
  function BalanceWhiteCode(value: ParamValue): (code: nat)
    ensures code < |BalanceWhiteModes|
  {
    match value
    case TextV("Off") => 0
    case TextV("Once") => 1
    case TextV("Continuous") => 2
    case _ => 0
  }

  /** Name -> code -> name is the identity on the three modes; code -> name -> code on codes 0..2. */
  lemma BalanceWhiteRoundTrip(name: string, code: nat)
    ensures name in BalanceWhiteModes ==> BalanceWhiteName(BalanceWhiteCode(TextV(name))) == name
    ensures code < |BalanceWhiteModes| ==> BalanceWhiteCode(TextV(BalanceWhiteName(code))) == code
    ensures name !in BalanceWhiteModes ==> BalanceWhiteCode(TextV(name)) == 0
    ensures code >= |BalanceWhiteModes| ==> BalanceWhiteName(code) == "Off"
  {
  }

  /** The four octets of an IPv4 address, most significant first: `(ip >> 24) & 0xFF` ... `ip & 0xFF`. */
  function Octets(ip: bv32): (o: seq<bv8>)
    ensures |o| == 4
  {
    [((ip >> 24) & 0xFF) as bv8, ((ip >> 16) & 0xFF) as bv8, ((ip >> 8) & 0xFF) as bv8, (ip & 0xFF) as bv8]
  }

  function Recombine(o: seq<bv8>): bv32
    requires |o| == 4
  {
    ((o[0] as bv32) << 24) | ((o[1] as bv32) << 16) | ((o[2] as bv32) << 8) | (o[3] as bv32)
  }

  /** Splitting an address into octets loses nothing, and every four octets form one address. */
  lemma OctetsBijective(ip: bv32, o: seq<bv8>)
    requires |o| == 4
    ensures Recombine(Octets(ip)) == ip
    ensures Octets(Recombine(o)) == o
  {
  }

  /** Four fields joined by dots. */
  function DottedQuad(a: string, b: string, c: string, d: string): string {
    a + "." + b + "." + c + "." + d
  }

  /** The `ip` field of a Hikrobot GigE descriptor: four decimal octets joined by dots. */
  function FormatIp(ip: bv32): string {
    var o := Octets(ip);
    DottedQuad(NatToString(o[0] as int), NatToString(o[1] as int),
               NatToString(o[2] as int), NatToString(o[3] as int))
  }

  /** Python's `s.split(c)`. */
  function Split(s: string, c: char): (parts: seq<string>)
    ensures |parts| > 0
  {
    if s == [] then [[]]
    else
      var rest := Split(s[1..], c);
      if s[0] == c then [[]] + rest else [[s[0]] + rest[0]] + rest[1..]
  }

  lemma {:induction false} SplitNoSeparator(x: string, c: char)
    requires c !in x
    ensures Split(x, c) == [x]
  {
    if x != [] {
      SplitNoSeparator(x[1..], c);
      assert [x[0]] + x[1..] == x;
    }
  }

  lemma {:induction false} SplitFirst(x: string, c: char, rest: string)
    requires c !in x
    ensures Split(x + [c] + rest, c) == [x] + Split(rest, c)
  {
    if x == [] {
      assert (x + [c] + rest)[1..] == rest;
    } else {
      assert (x + [c] + rest)[1..] == x[1..] + [c] + rest;
      SplitFirst(x[1..], c, rest);
      assert [x[0]] + x[1..] == x;
    }
  }

  /** The decimal octet a dotted-quad field stands for, if it is one. */
  function OctetField(s: string): Option<bv8> {
    if s != [] && AllDigits(s) && DigitsValue(s) < 256 then Some(DigitsValue(s) as bv8) else None
  }

  /** Reads a dotted-quad address back; the inverse of `FormatIp`. */
  function ParseIp(s: string): Option<bv32> {
    var parts := Split(s, '.');
    if |parts| != 4 then None
    else
      match (OctetField(parts[0]), OctetField(parts[1]), OctetField(parts[2]), OctetField(parts[3]))
      case (Some(a), Some(b), Some(c), Some(d)) => Some(Recombine([a, b, c, d]))
      case _ => None
  }

  lemma OctetFieldRoundTrip(o: bv8)
    ensures OctetField(NatToString(o as int)) == Some(o)
  {
    NatToStringRoundTrip(o as int);
  }

  /** Splitting four dot-free fields joined by dots gives the four fields back. */
  lemma SplitDottedQuad(a: string, b: string, c: string, d: string)
    requires '.' !in a && '.' !in b && '.' !in c && '.' !in d
    ensures Split(DottedQuad(a, b, c, d), '.') == [a, b, c, d]
  {
    assert DottedQuad(a, b, c, d) == a + ['.'] + (b + ['.'] + (c + ['.'] + d));
    SplitFirst(a, '.', b + ['.'] + (c + ['.'] + d));
    SplitFirst(b, '.', c + ['.'] + d);
    SplitFirst(c, '.', d);
    SplitNoSeparator(d, '.');
  }

  /** Four rendered octets parse back to the address they form. */
  lemma ParseRenderedOctets(a: bv8, b: bv8, c: bv8, d: bv8)
    ensures ParseIp(DottedQuad(NatToString(a as int), NatToString(b as int),
                               NatToString(c as int), NatToString(d as int)))
            == Some(Recombine([a, b, c, d]))
  {
    var sa, sb, sc, sd := NatToString(a as int), NatToString(b as int),
                          NatToString(c as int), NatToString(d as int);
    DigitsHaveNoDot(sa); DigitsHaveNoDot(sb); DigitsHaveNoDot(sc); DigitsHaveNoDot(sd);
    SplitDottedQuad(sa, sb, sc, sd);
    OctetFieldRoundTrip(a); OctetFieldRoundTrip(b);
    OctetFieldRoundTrip(c); OctetFieldRoundTrip(d);
  }

  /** The rendered address determines the address: parsing it gives `ip` back. */
  lemma FormatIpRoundTrip(ip: bv32)
    ensures ParseIp(FormatIp(ip)) == Some(ip)
  {
    var o := Octets(ip);
    ParseRenderedOctets(o[0], o[1], o[2], o[3]);
    assert [o[0], o[1], o[2], o[3]] == o;
    OctetsBijective(ip, o);
  }

  /** How a camera is attached. */
  datatype Interface = Usb | GigE

  /**
   * One discovered device: its position in the vendor's enumeration, family,
   * model and serial strings, interface, and (Hikrobot GigE only) IPv4 address.
   */
  datatype Descriptor = Descriptor(index: nat, family: Family, model: string, serial: string,
                                   iface: Interface, ip: Option<string>)

  /** What the Hikrobot SDK reports about one enumerated device. */
  datatype HikDeviceInfo =
    | GigEInfo(model: string, serial: string, currentIp: bv32)
    | UsbInfo(model: string, serial: string)

  /** The descriptor the Hikrobot variant builds for the `i`-th enumerated device. */
  function DescribeHikrobot(i: nat, info: HikDeviceInfo): (d: Descriptor)
    ensures d.index == i && d.family == Hikrobot && d.model == info.model && d.serial == info.serial
    ensures d.iface == GigE <==> info.GigEInfo?
    ensures info.GigEInfo? ==> d.ip.Some? && ParseIp(d.ip.value) == Some(info.currentIp)
    ensures info.UsbInfo? ==> d.ip.None?
  {
    match info
    case GigEInfo(m, s, ip) =>
      FormatIpRoundTrip(ip);
      Descriptor(i, Hikrobot, m, s, GigE, Some(FormatIp(ip)))
    case UsbInfo(m, s) => Descriptor(i, Hikrobot, m, s, Usb, None)
  }

  /** Descriptors for a whole Hikrobot enumeration, numbered from 0. */
  function DescribeAllHikrobot(infos: seq<HikDeviceInfo>): (ds: seq<Descriptor>)
    ensures |ds| == |infos|
    ensures forall i :: 0 <= i < |ds| ==> ds[i] == DescribeHikrobot(i, infos[i])
  {
    seq(|infos|, i requires 0 <= i < |infos| => DescribeHikrobot(i, infos[i]))
  }
}
