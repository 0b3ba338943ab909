/** Codes that the lobby and the protocols share: common/constants.h. */
module Constants {
  const ROOM_CREATE := 0x02
  const ROOM_JOIN := 0x03
  const ROOM_LEAVE := 0x04
}
