/** The rule record a session stores and the engine reads. */
module Rpc {

  /** Which patterns count as a win in a session: seven switches and the
      operator's free-text list of custom winning numbers. */
  datatype WinningRules = WinningRules(
    singleLine: bool,
    twoLines: bool,
    fullHouse: bool,
    fourCorners: bool,
    diagonal: bool,
    xPattern: bool,
    plusPattern: bool,
    customNumbers: string)
}
