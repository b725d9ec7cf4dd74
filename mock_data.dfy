/**
 * src/mocks/bunkerData.ts: the canned snapshot served when the chat platform refuses the
 * credential. Its instants are offsets from the moment the module was loaded.
 */
module MockData {
  import opened BunkerTypes

  const Minute: int := 60000
  const Hour: int := 60 * Minute
  const Day: int := 24 * Hour

  function MockBunkerData(loadTime: int): (s: BunkerStatus)
    ensures |s.bunkers| == 17
    ensures s.lastUpdate == loadTime
    ensures forall i :: 0 <= i < |s.bunkers| ==> s.bunkers[i].timestamp > loadTime
  {
    BunkerStatus(
      [ Bunker("A1 Bunker", false, loadTime + 2 * Day),
        Bunker("A3 Bunker", false, loadTime + 12 * Hour),
        Bunker("A4 Bunker", true, loadTime + 30 * Minute),
        Bunker("B0 Bunker", true, loadTime + 15 * Minute),
        Bunker("B1 Bunker", true, loadTime + 5 * Minute),
        Bunker("B2 Bunker", false, loadTime + 18 * Hour),
        Bunker("B3 Bunker", true, loadTime + 45 * Minute),
        Bunker("C0 Bunker", false, loadTime + 10 * Hour),
        Bunker("C1 Bunker", false, loadTime + 3 * Hour),
        Bunker("C3 Bunker", false, loadTime + 6 * Hour),
        Bunker("C4 Bunker", false, loadTime + 9 * Hour),
        Bunker("D1 Bunker", false, loadTime + 6 * Hour),
        Bunker("D2 Bunker", false, loadTime + 8 * Hour),
        Bunker("D4 Bunker", false, loadTime + 18 * Hour),
        Bunker("Z1 Bunker", false, loadTime + 2 * Hour),
        Bunker("Z2 Bunker", false, loadTime + 2 * Hour),
        // 1.5 days, which is a whole number of milliseconds
        Bunker("Z3 Bunker", false, loadTime + 36 * Hour) ],
      loadTime,
      Some("Mock Data (Discord API Simulada)"),
      Some(3))
  }
}
