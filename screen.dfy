/** The sketch's window: size(600, 600) in QuickTest.setup. */
module Screen {
  const Width: int := 600
  const Height: int := 600
}
