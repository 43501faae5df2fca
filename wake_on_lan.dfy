/**
 * The Wake-on-LAN "magic packet" both programs build in
 * `send_wake_on_lan`: the hexadecimal text `FFFFFFFFFFFF` followed by the
 * configured MAC address written sixteen times, decoded with
 * `bytes.fromhex`. Sending it is left to the network layer.
 */
module WakeOnLan {
  import opened Wrappers
  import opened PyBytes

  /** The UDP port the packet is sent to. */
  const WakePort := 9

  /** The six-byte synchronisation stream, as text. */
  const SyncText := "FFFFFFFFFFFF"

  /**
   * The payload for the configured MAC address text. `None` is the
   * `ValueError` `bytes.fromhex` raises when the text is not hexadecimal.
   */
  function WakePayload(mac: string): (r: Option<seq<byte>>)
    ensures FromHex(Repeat(mac, 16)).Some? ==> r == Some(Repeat([255 as byte], 6) + FromHex(Repeat(mac, 16)).value)
  {
    if FromHex(Repeat(mac, 16)).Some? then
      SyncBytes();
      FromHexAppend(SyncText, Repeat(mac, 16));
      FromHex(SyncText + Repeat(mac, 16))
    else
      FromHex(SyncText + Repeat(mac, 16))
  }

  /** The synchronisation text decodes to six `0xFF` bytes. */
  lemma SyncBytes()
    ensures FromHex(SyncText) == Some(Repeat([255 as byte], 6))
  {
    var ff := "FF";
    assert HexDigit(ff[0]) == Some(15) && HexDigit(ff[1]) == Some(15);
    assert ff[2..] == [] && FromHex(ff[2..]) == Some([]);
    assert !IsAsciiSpace(ff[0]) && |ff| == 2;
    assert [(15 * 16 + 15) as byte] + [] == [255 as byte];
    assert FromHex(ff) == Some([255 as byte]);
    assert SyncText == Repeat(ff, 6);
    FromHexRepeat(ff, 6);
  }

  /**
   * For a MAC address that decodes on its own, the payload is six `0xFF`
   * bytes followed by the address's bytes sixteen times, and so has
   * 6 + 16 times as many bytes as the address.
   */
  lemma WakePayloadLayout(mac: string)
    requires FromHex(mac).Some?
    ensures WakePayload(mac) == Some(Repeat([255 as byte], 6) + Repeat(FromHex(mac).value, 16))
    ensures |WakePayload(mac).value| == 6 + 16 * |FromHex(mac).value|
  {
    FromHexRepeat(mac, 16);
  }

  /** The usual configuration, twelve hexadecimal digits without separators, gives the 102-byte packet. */
  lemma WakePayloadStandard(mac: string)
    requires |mac| == 12 && forall k | 0 <= k < |mac| :: HexDigit(mac[k]).Some?
    ensures WakePayload(mac).Some? && |WakePayload(mac).value| == 102
  {
    FromHexDigits(mac);
    WakePayloadLayout(mac);
  }

  /** A string of an even number of hexadecimal digits always decodes, to half as many bytes. */
  lemma {:induction false} FromHexDigits(s: string)
    requires |s| % 2 == 0 && forall k | 0 <= k < |s| :: HexDigit(s[k]).Some?
    ensures FromHex(s).Some? && 2 * |FromHex(s).value| == |s|
    decreases |s|
  {
    if s != [] {
      assert !IsAsciiSpace(s[0]) && HexDigit(s[0]).Some? && HexDigit(s[1]).Some?;
      FromHexDigits(s[2..]);
    }
  }

  /** Every element of a repetition is an element of what is repeated. */
  lemma {:induction false} RepeatMembers<T>(s: seq<T>, n: nat)
    ensures forall x | x in Repeat(s, n) :: x in s
  {
    if n > 0 {
      RepeatMembers(s, n - 1);
    }
  }

  /**
   * A MAC address made only of hexadecimal digits always gives a packet,
   * whatever its length: the whole text, not the address, is what must
   * split into pairs, and sixteen copies always have an even length.
   */
  lemma WakePayloadDigits(mac: string)
    requires forall k | 0 <= k < |mac| :: HexDigit(mac[k]).Some?
    ensures WakePayload(mac).Some? && |WakePayload(mac).value| == 6 + 8 * |mac|
  {
    var s := SyncText + Repeat(mac, 16);
    RepeatMembers(mac, 16);
    forall k | 0 <= k < |s| ensures HexDigit(s[k]).Some? {
      if k < |SyncText| {
        assert s[k] == SyncText[k];
      } else {
        assert s[k] == Repeat(mac, 16)[k - |SyncText|];
        assert s[k] in mac;
      }
    }
    FromHexDigits(s);
  }

  /**
   * A MAC address with an odd number of digits, one of them missing, does
   * not decode on its own, yet the packet is built without complaint: its
   * text pairs the last digit of each copy with the first of the next.
   */
  lemma WakePayloadOddMac(mac: string)
    requires |mac| % 2 == 1 && forall k | 0 <= k < |mac| :: HexDigit(mac[k]).Some?
    ensures FromHex(mac) == None
    ensures WakePayload(mac).Some? && |WakePayload(mac).value| == 6 + 8 * |mac|
  {
    if FromHex(mac).Some? {
      FromHexLength(mac);
    }
    WakePayloadDigits(mac);
  }

  /** `AABBCCDDEEF`, an address with its last digit missing, gives a 94-byte packet instead of an error. */
  lemma WakePayloadMissingDigit()
    ensures WakePayload("AABBCCDDEEF").Some? && |WakePayload("AABBCCDDEEF").value| == 94
  {
    var mac := "AABBCCDDEEF";
    assert forall k | 0 <= k < |mac| :: HexDigit(mac[k]).Some?;
    WakePayloadOddMac(mac);
  }

  /**
   * A MAC address written with separators, such as `AA:BB:CC:DD:EE:FF`,
   * cannot be decoded, so no packet is built: any character that is
   * neither a hexadecimal digit nor whitespace makes `bytes.fromhex` fail.
   */
  lemma WakePayloadRejects(mac: string, k: nat)
    requires k < |mac| && HexDigit(mac[k]).None? && !IsAsciiSpace(mac[k])
    ensures WakePayload(mac) == None
  {
    var s := SyncText + Repeat(mac, 16);
    assert Repeat(mac, 16) == mac + Repeat(mac, 15);
    assert s[|SyncText| + k] == mac[k];
    FromHexRejects(s, |SyncText| + k);
  }
}
