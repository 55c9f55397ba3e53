/** Integer helpers shared by the message-list and forecast modules. */
module Numbers {
  function Min(a: int, b: int): int {
    if a <= b then a else b
  }
}
