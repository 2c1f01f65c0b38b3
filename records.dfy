/**
 The two record shapes the screen reads from the feed API: a recorded radio call
 and an entry of the talkgroup directory.
 */
module Records {

  /** One recorded radio transmission. `len` is the duration in whole seconds and
      `freq` the frequency in Hz. */
  datatype Call = Call(
    id: string,
    time: string,
    talkgroupNum: int,
    len: nat,
    freq: int,
    url: string,
    emergency: bool,
    filename: string)

  /** One talkgroup of the directory; a missing `alpha` or `description` is the empty string. */
  datatype Talkgroup = Talkgroup(id: string, num: int, alpha: string, description: string)
}
