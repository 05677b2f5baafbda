/** Input state: the `keyState` object, a map from the two control keys to
    a "held" flag, and the rule the keydown and keyup listeners apply. */
module Controls {

  const ARROW_LEFT: string := "ArrowLeft"
  const ARROW_RIGHT: string := "ArrowRight"

  /** The keys the listeners recognise: exactly the entries `keyState` is
      created with. */
  const CONTROL_KEYS: set<string> := {ARROW_LEFT, ARROW_RIGHT}

  type KeyState = map<string, bool>

  /** `keyState` as created: both keys released. */
  const INITIAL_KEYS: KeyState := map[ARROW_LEFT := false, ARROW_RIGHT := false]

  /** The listener body `if (event.key in keyState) keyState[event.key] = down`:
      a recognised key gets the new flag, anything else leaves the map as
      it was and adds no entry. */
  function KeyEvent(keys: KeyState, key: string, down: bool): (r: KeyState)
    ensures r.Keys == keys.Keys
    ensures key in keys ==> r[key] == down
    ensures forall k :: k in keys && k != key ==> r[k] == keys[k]
    ensures key !in keys ==> r == keys
  {
    if key in keys then keys[key := down] else keys
  }

  /** Only the last event for a key matters: a keydown followed by a keyup
      (or the other way round) leaves the flag of the later one. */
  lemma LastEventWins(keys: KeyState, key: string, first: bool, second: bool)
    ensures KeyEvent(KeyEvent(keys, key, first), key, second) == KeyEvent(keys, key, second)
  {
    if key in keys {
      assert KeyEvent(keys, key, first)[key := second] == keys[key := second];
    }
  }

  /** Events for different keys do not interfere: applying them in either
      order gives the same map. */
  lemma DistinctKeysCommute(keys: KeyState, k1: string, d1: bool, k2: string, d2: bool)
    requires k1 != k2
    ensures KeyEvent(KeyEvent(keys, k1, d1), k2, d2) == KeyEvent(KeyEvent(keys, k2, d2), k1, d1)
  {
  }
}
