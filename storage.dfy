/** The browser's key-value storage, holding saved game states under fixed keys. */
module Storage {
  import opened Engine

  const GAME_STATE_KEY: string := "cmsGameState"
  const FINAL_STATE_KEY: string := "cmsFinalState"
  const CURRENT_SCENARIO_KEY: string := "cmsCurrentScenario"

  /** Each stored entry is the game state it serialises. */
  type Store = map<string, GameState>

  /**
   * Storage after the simulation ends: the final snapshot is written, the
   * session entries are removed, every other key is untouched.
   */
  function EndStore(store: Store, s: GameState): (r: Store)
    ensures FINAL_STATE_KEY in r && r[FINAL_STATE_KEY] == s
    ensures GAME_STATE_KEY !in r && CURRENT_SCENARIO_KEY !in r
    ensures forall k :: k != FINAL_STATE_KEY && k != GAME_STATE_KEY && k != CURRENT_SCENARIO_KEY ==>
      (k in r <==> k in store) && (k in r ==> r[k] == store[k])
  {
    store[FINAL_STATE_KEY := s] - {GAME_STATE_KEY, CURRENT_SCENARIO_KEY}
  }
}
