/**
  The Novation Automap SysEx messages: the online and offline messages and
  the builder of a "write screen" message, which frames a host id, a screen
  position and a text inside System Exclusive bytes (0xF0 ... 0xF7, System
  Exclusive Messages section of the MIDI 1.0 Detailed Specification).
 */
module Automap {
  import opened MachineInts

  const AUTOMAP_ONLINE: seq<Byte> := [0xF0, 0x00, 0x20, 0x29, 0x03, 0x03, 0x11, 0x04, 0x03, 0x00, 0x01, 0x01, 0xF7]
  const AUTOMAP_OFFLINE: seq<Byte> := [0xF0, 0x00, 0x20, 0x29, 0x03, 0x03, 0x11, 0x04, 0x03, 0x00, 0x01, 0x00, 0xF7]
  /** The header of a screen write; byte 8 is replaced by the host id. */
  const AUTOMAP_WRITE: seq<Byte> := [0xF0, 0x00, 0x20, 0x29, 0x03, 0x03, 0x11, 0x04, 0x7F, 0x00, 0x02, 0x01]

  /** A SysEx message: starts with 0xF0, ends with 0xF7, and carries only 7-bit data bytes in between. */
  predicate IsSysEx(b: seq<Byte>)
  {
    |b| >= 2 && b[0] == 0xF0 && b[|b| - 1] == 0xF7 && forall i :: 0 < i < |b| - 1 ==> b[i] < 0x80
  }

  /** The layout of a screen write, field by field. */
  function ScreenLayout(row: Byte, pos: Byte, msg: seq<Byte>, hostID: Byte): seq<Byte>
  {
    AUTOMAP_WRITE[..8] + [hostID] + AUTOMAP_WRITE[9..] + [pos, row, 0x04] + msg + [0xF7]
  }

  /**
    writeScreen: the write header with the host id at byte 8, then the
    position, the row (in that order) and 4, the text bytes, and 0xF7.
   */
  method WriteScreen(row: Byte, pos: Byte, msg: seq<Byte>, hostID: Byte) returns (b: seq<Byte>)
    ensures b == ScreenLayout(row, pos, msg, hostID)
    ensures |b| == 16 + |msg|
    ensures b[..8] == AUTOMAP_WRITE[..8] && b[8] == hostID && b[9..12] == AUTOMAP_WRITE[9..]
    ensures b[12] == pos && b[13] == row && b[14] == 0x04
    ensures b[15..15 + |msg|] == msg && b[15 + |msg|] == 0xF7
  {
    b := AUTOMAP_WRITE + [pos, row, 0x04];
    b := b[8 := hostID];
    b := b + msg;
    b := b + [0xF7];
    assert b == ScreenLayout(row, pos, msg, hostID);
  }

  /**
    A screen write is a well-formed SysEx message exactly when the host id,
    the row, the position and every text byte are 7-bit data bytes.
   */
  lemma ScreenIsSysEx(row: Byte, pos: Byte, msg: seq<Byte>, hostID: Byte)
    ensures IsSysEx(ScreenLayout(row, pos, msg, hostID)) <==>
      hostID < 0x80 && row < 0x80 && pos < 0x80 && forall i :: 0 <= i < |msg| ==> msg[i] < 0x80
  {
    var b := ScreenLayout(row, pos, msg, hostID);
    assert |b| == 16 + |msg| && b[8] == hostID && b[12] == pos && b[13] == row;
    assert forall i :: 0 <= i < |msg| ==> b[15 + i] == msg[i];
    if hostID < 0x80 && row < 0x80 && pos < 0x80 && forall i :: 0 <= i < |msg| ==> msg[i] < 0x80 {
      forall i | 0 < i < |b| - 1
        ensures b[i] < 0x80
      {
        if 15 <= i {
          assert b[i] == msg[i - 15];
        }
      }
    }
  }

  /** The online and offline messages are 13-byte SysEx messages that differ only at byte 11. */
  lemma OnlineOffline()
    ensures |AUTOMAP_ONLINE| == |AUTOMAP_OFFLINE| == 13
    ensures IsSysEx(AUTOMAP_ONLINE) && IsSysEx(AUTOMAP_OFFLINE)
    ensures forall i :: 0 <= i < 13 && i != 11 ==> AUTOMAP_ONLINE[i] == AUTOMAP_OFFLINE[i]
    ensures AUTOMAP_ONLINE[11] == 1 && AUTOMAP_OFFLINE[11] == 0
  {
  }
}
