/** Keyboard state: the keys system owns one dictionary from key names to
    pressed/released, updated in place by the browser's key events, and
    hands that same dictionary object to every keys component, which reads
    it with `false` for a key never seen. */
module Keys {
  import opened MathModel

  /** The `{ [key: string]: boolean }` object, shared by reference. */
  class KeyStateMap {
    var states: map<string, bool>

    constructor ()
      ensures states == map[]
    {
      states := map[];
    }
  }

  /** `states[key] || false`: an absent key reads as `undefined`, which the
      `||` turns into `false`. */
  function KeyState(states: map<string, bool>, key: string): bool {
    key in states && states[key]
  }

  /** A browser key event. */
  datatype KeyEvent = KeyDown(key: string) | KeyUp(key: string)

  /** The dictionary after a series of events handled in order. */
  function Apply(states: map<string, bool>, events: seq<KeyEvent>): map<string, bool>
    decreases |events|
  {
    if |events| == 0 then states
    else
      var e := events[|events| - 1];
      Apply(states, events[..|events| - 1])[e.key := e.KeyDown?]
  }

  /** The last event about `key` in the series: `Some(true)` for a keydown,
      `Some(false)` for a keyup, `None` when there is none. */
  function LastEvent(events: seq<KeyEvent>, key: string): Option<bool>
    decreases |events|
  {
    if |events| == 0 then None
    else if events[|events| - 1].key == key then Some(events[|events| - 1].KeyDown?)
    else LastEvent(events[..|events| - 1], key)
  }

  /** A key reads as pressed exactly when its last event was a keydown, and
      keeps its earlier reading when no event was about it. */
  lemma {:induction false} LastEventWins(states: map<string, bool>, events: seq<KeyEvent>, key: string)
    ensures KeyState(Apply(states, events), key)
         == match LastEvent(events, key)
            case None => KeyState(states, key)
            case Some(down) => down
    decreases |events|
  {
    if |events| > 0 {
      LastEventWins(states, events[..|events| - 1], key);
    }
  }

  /** From the empty dictionary every key reads as released until its first
      keydown. */
  lemma FromEmpty(events: seq<KeyEvent>, key: string)
    ensures KeyState(Apply(map[], events), key) <==> LastEvent(events, key) == Some(true)
  {
    LastEventWins(map[], events, key);
  }

  /** A repeated event changes nothing: holding a key down, with the
      browser repeating its keydown, reads the same as one keydown. */
  lemma {:induction false} RepeatIdempotent(states: map<string, bool>, events: seq<KeyEvent>, e: KeyEvent)
    ensures Apply(states, events + [e, e]) == Apply(states, events + [e])
  {
    assert (events + [e, e])[..|events| + 1] == events + [e];
    assert (events + [e])[..|events|] == events;
  }

  /** The keys component: its own dictionary until the system hands it the
      shared one. */
  class KeysComponent {
    var keyStates: KeyStateMap

    constructor ()
      ensures fresh(keyStates) && keyStates.states == map[]
    {
      keyStates := new KeyStateMap();
    }

    /** `getKeyState`, read through whichever dictionary the component
        holds; what it reads after a series of events is `LastEventWins`. */
    function GetKeyState(key: string): bool
      reads this, keyStates
    {
      KeyState(keyStates.states, key)
    }

    /** The `keyStates` setter replaces the whole dictionary object. */
    method SetKeyStates(keyStates: KeyStateMap)
      modifies this
      ensures this.keyStates == keyStates
    {
      this.keyStates := keyStates;
    }
  }

  /** The keys system with its dictionary. */
  class KeysSystem {
    var keyStates: KeyStateMap

    constructor ()
      ensures fresh(keyStates) && keyStates.states == map[]
    {
      keyStates := new KeyStateMap();
    }

    /** `handleKeyDown`. */
    method HandleKeyDown(key: string)
      modifies keyStates
      ensures keyStates.states == Apply(old(keyStates.states), [KeyDown(key)])
    {
      keyStates.states := keyStates.states[key := true];
    }

    /** `handleKeyUp`. */
    method HandleKeyUp(key: string)
      modifies keyStates
      ensures keyStates.states == Apply(old(keyStates.states), [KeyUp(key)])
    {
      keyStates.states := keyStates.states[key := false];
    }

    /** `updateEntity`: the component gets the system's own dictionary
      object, not a copy. */
    method UpdateEntity(component: KeysComponent)
      modifies component
      ensures component.keyStates == keyStates
    {
      component.SetKeyStates(keyStates);
    }
  }

  /** Once a component has been updated, a later keydown is visible through
      it without another update, and the keys read before the update through
      its own dictionary no longer count. */
  method KeyDownAfterUpdate(system: KeysSystem, component: KeysComponent, key: string, other: string)
    requires other != key
    modifies component, system.keyStates
    ensures component.keyStates == system.keyStates
    ensures component.GetKeyState(key)
    ensures component.GetKeyState(other) == KeyState(old(system.keyStates.states), other)
  {
    system.UpdateEntity(component);
    system.HandleKeyDown(key);
  }
}
