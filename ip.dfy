/**
 * `FindIp` of gateway/internal/ip.go: the first interface address that is an IP network whose
 * address is IPv4 and not loopback, in dotted-quad form. Addresses are byte sequences as in
 * Go's `net.IP`: 4 bytes, or 16 bytes where IPv4 appears in the IPv4-mapped form of section
 * 2.5.5.2 of RFC 4291. Loopback is 127.0.0.0/8 (section 3.2.1.3 of RFC 1122) or `::1`.
 */
module GatewayIp {
  import opened Common

  const ErrNoIp := "no ip found"

  /** An interface address: a `*net.IPNet` (address and mask) or any other `net.Addr`. */
  datatype Addr = IPNet(ip: seq<byte>, mask: seq<byte>) | OtherAddr(network: string, text: string)

  /** The first twelve bytes of an IPv4-mapped IPv6 address: ten zeros and two 0xFF. */
  const V4InV6Prefix: seq<byte> := [0, 0, 0, 0, 0, 0, 0, 0, 0, 0, 0xFF, 0xFF]

  /** `net.IPv4(a, b, c, d)`: the 16-byte IPv4-mapped form. */
  function IPv4(a: byte, b: byte, c: byte, d: byte): (ip: seq<byte>)
    ensures |ip| == 16
  {
    V4InV6Prefix + [a, b, c, d]
  }

  /** `net.IPv6loopback`, `::1`. */
  function IPv6Loopback(): (ip: seq<byte>)
    ensures |ip| == 16
  {
    seq(15, _ => 0) + [1]
  }

  /**
   * `ip.To4()`: the 4-byte form of an IPv4 address, `None` for anything else. Go compares the
   * first ten bytes with zero and bytes 10 and 11 with 0xFF, which is the prefix comparison here.
   */
  function To4(ip: seq<byte>): (v4: Option<seq<byte>>)
    ensures v4.Some? ==> |v4.value| == 4
  {
    if |ip| == 4 then Some(ip)
    else if |ip| == 16 && ip[..12] == V4InV6Prefix then Some(ip[12..])
    else None
  }

  /** `To4` recovers the four bytes `IPv4` was built from. */
  lemma To4OfIPv4(a: byte, b: byte, c: byte, d: byte)
    ensures To4(IPv4(a, b, c, d)) == Some([a, b, c, d])
  {
    var ip := IPv4(a, b, c, d);
    assert ip[..12] == V4InV6Prefix;
    assert ip[12..] == [a, b, c, d];
  }

  /** `ip.IsLoopback()`. */
  predicate IsLoopback(ip: seq<byte>)
  {
    var v4 := To4(ip);
    if v4.Some? then v4.value[0] == 127 else ip == IPv6Loopback()
  }

  /** The address `FindIp` accepts. */
  predicate Qualifies(a: Addr)
  {
    a.IPNet? && !IsLoopback(a.ip) && To4(a.ip).Some?
  }

  /** `ip.String()` of an IPv4 address: the four bytes in decimal, separated by dots. */
  function DottedQuad(v4: seq<byte>): string
    requires |v4| == 4
  {
    Decimal(v4[0] as nat) + "." + Decimal(v4[1] as nat) + "." + Decimal(v4[2] as nat) + "." + Decimal(v4[3] as nat)
  }

  /** The specification of the scan: the first qualifying address, or `ErrNoIp`. */
  function FirstIp(addrs: seq<Addr>): Result<string>
  {
    if addrs == [] then Err(ErrNoIp)
    else if Qualifies(addrs[0]) then Ok(DottedQuad(To4(addrs[0].ip).value))
    else FirstIp(addrs[1..])
  }

  /** `FindIp(addrs)`. */
  method FindIp(addrs: seq<Addr>) returns (r: Result<string>)
    ensures r == FirstIp(addrs)
  {
    if |addrs| == 0 {
      return Err(ErrNoIp);
    }
    var i := 0;
    while i < |addrs|
      invariant 0 <= i <= |addrs|
      invariant FirstIp(addrs) == FirstIp(addrs[i..])
    {
      var addr := addrs[i];
      if addr.IPNet? && !IsLoopback(addr.ip) && To4(addr.ip).Some? {
        return Ok(DottedQuad(To4(addr.ip).value));
      }
      assert addrs[i..][1..] == addrs[i + 1..];
      i := i + 1;
    }
    return Err(ErrNoIp);
  }

  /**
   * The scan fails with `ErrNoIp` exactly when no address qualifies, and otherwise answers the
   * first qualifying address in dotted-quad form.
   */
  lemma {:induction false} FirstIpIsFirstQualifier(addrs: seq<Addr>)
    ensures FirstIp(addrs).Err? <==> forall i :: 0 <= i < |addrs| ==> !Qualifies(addrs[i])
    ensures FirstIp(addrs).Err? ==> FirstIp(addrs).msg == ErrNoIp
    ensures FirstIp(addrs).Ok? ==>
              exists k :: 0 <= k < |addrs| && Qualifies(addrs[k]) && (forall j :: 0 <= j < k ==> !Qualifies(addrs[j]))
                          && FirstIp(addrs).value == DottedQuad(To4(addrs[k].ip).value)
  {
    if addrs != [] && !Qualifies(addrs[0]) {
      var rest := addrs[1..];
      FirstIpIsFirstQualifier(rest);
      assert forall i :: 1 <= i < |addrs| ==> addrs[i] == rest[i - 1];
      if FirstIp(rest).Ok? {
        var k :| 0 <= k < |rest| && Qualifies(rest[k]) && (forall j :: 0 <= j < k ==> !Qualifies(rest[j]))
                 && FirstIp(rest).value == DottedQuad(To4(rest[k].ip).value);
        assert Qualifies(addrs[k + 1]);
      }
    } else if addrs != [] {
      assert Qualifies(addrs[0]);
    }
  }

  /** An empty list gives `ErrNoIp`. */
  lemma NoAddresses()
    ensures FirstIp([]) == Err(ErrNoIp)
  {
  }

  /** `192.168.0.1/24` gives "192.168.0.1". */
  lemma PrivateV4Found()
    ensures FirstIp([IPNet(IPv4(192, 168, 0, 1), [0xFF, 0xFF, 0xFF, 0])]) == Ok("192.168.0.1")
  {
    To4OfIPv4(192, 168, 0, 1);
    var a := IPNet(IPv4(192, 168, 0, 1), [0xFF, 0xFF, 0xFF, 0]);
    assert Qualifies(a);
    assert FirstIp([a]) == Ok(DottedQuad([192, 168, 0, 1]));
    assert DigitChar(1) == '1' && DigitChar(9) == '9' && DigitChar(2) == '2' && DigitChar(6) == '6' && DigitChar(8) == '8';
    assert Decimal(192) == Decimal(19) + "2" && Decimal(19) == "19";
    assert Decimal(168) == Decimal(16) + "8" && Decimal(16) == "16";
    assert Decimal(0) == "0" && Decimal(1) == "1";
    var q: seq<byte> := [192, 168, 0, 1];
    assert q[0] as nat == 192 && q[1] as nat == 168 && q[2] as nat == 0 && q[3] as nat == 1;
    assert DottedQuad(q) == "192" + "." + "168" + "." + "0" + "." + "1";
    assert "192" + "." + "168" + "." + "0" + "." + "1" == "192.168.0.1";
  }

  /** An IPv6-only list (`2001:db8::1/64`) gives `ErrNoIp`. */
  lemma V6OnlyNotFound()
    ensures FirstIp([IPNet([0x20, 0x01, 0x0D, 0xB8, 0, 0, 0, 0, 0, 0, 0, 0, 0, 0, 0, 1], seq(8, _ => 0xFF) + seq(8, _ => 0))]) == Err(ErrNoIp)
  {
    var ip: seq<byte> := [0x20, 0x01, 0x0D, 0xB8, 0, 0, 0, 0, 0, 0, 0, 0, 0, 0, 0, 1];
    assert ip[..12][0] != V4InV6Prefix[0];
    assert To4(ip) == None;
    var addrs := [IPNet(ip, seq(8, _ => 0xFF) + seq(8, _ => 0))];
    assert addrs[1..] == [];
  }

  /** A loopback-only list (`127.0.0.1/8`) gives `ErrNoIp`. */
  lemma LoopbackNotFound()
    ensures FirstIp([IPNet(IPv4(127, 0, 0, 1), [0xFF, 0, 0, 0])]) == Err(ErrNoIp)
  {
    To4OfIPv4(127, 0, 0, 1);
  }
}
