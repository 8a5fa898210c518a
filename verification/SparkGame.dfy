/**
  The SparkGame gathering blob (state/gatherings.py): a host's CreateGathering
  bytes, kept verbatim, of which the server reads a 64-byte settings block that
  follows a length-prefixed display name.
*/
module SparkGame {
  import opened Options
  import opened Bytes

  const GATHERING_ID_OFFSET: nat := 0x14
  const OWNER_PID_OFFSET: nat := 0x18
  const DISPLAY_OFFSET: nat := 0x34
  const SETTINGS_SIZE: nat := 0x40
  const PARTICIPANT_COUNT_OFFSET: nat := 0x11
  const PUBLIC_SLOTS_OFFSET: nat := 0x0d
  const RANKED_OFFSET: nat := 0x00
  const MAX_PARTICIPANTS: nat := 4

  // Where the settings block starts; meaningful when the display length can be read.
  function SettingsStart(raw: seq<Byte>): (start: nat)
    requires DISPLAY_OFFSET + 2 <= |raw|
    ensures DISPLAY_OFFSET + 2 <= start
  {
    DISPLAY_OFFSET + 2 + U16(raw, DISPLAY_OFFSET)
  }

  predicate Readable(raw: seq<Byte>) {
    DISPLAY_OFFSET + 2 <= |raw| && SettingsStart(raw) + SETTINGS_SIZE <= |raw|
  }

  function Settings(raw: seq<Byte>): (s: Option<seq<Byte>>)
    ensures s.Some? ==> |s.value| == SETTINGS_SIZE
  {
    if Readable(raw) then Some(raw[SettingsStart(raw)..SettingsStart(raw) + SETTINGS_SIZE]) else None
  }

  // Slots open to uninvited players; unreadable settings count as all seats but the host's.
  function PublicSlots(raw: seq<Byte>): nat {
    match Settings(raw)
    case None => MAX_PARTICIPANTS - 1
    case Some(s) => U32(s, PUBLIC_SLOTS_OFFSET)
  }
}
