/** The locomotive's driving direction, read from the keyboard on every
    update: `w` drives forward, otherwise `s` backward, otherwise the space
    bar stops, and with none of them the locomotive is in neutral. */
module LocomotiveInput {
  import opened MathModel
  import Keys

  datatype Direction = Forward | Backward | Stop | Neutral

  /** The locomotive-input component; a new one says `Stop`. */
  class LocomotiveInputComponent {
    var direction: Direction

    constructor ()
      ensures direction == Stop
    {
      direction := Stop;
    }
  }

  /** The direction the three keys ask for, by priority: each direction is
      chosen exactly when its key is down and no key before it in the order
      w, s, space is. */
  function Requested(forward: bool, backward: bool, stop: bool): (d: Direction)
    ensures d == Forward <==> forward
    ensures d == Backward <==> !forward && backward
    ensures d == Stop <==> !forward && !backward && stop
    ensures d == Neutral <==> !forward && !backward && !stop
  {
    if forward then Forward
    else if backward then Backward
    else if stop then Stop
    else Neutral
  }

  /** `updateDirection`: one direction is written on every update, the one
      the component's keys request. */
  method UpdateDirection(input: LocomotiveInputComponent, keys: Keys.KeysComponent)
    modifies input
    ensures input.direction == Requested(keys.GetKeyState("w"), keys.GetKeyState("s"), keys.GetKeyState(" "))
  {
    var forward := keys.GetKeyState("w");
    var backward := keys.GetKeyState("s");
    var stop := keys.GetKeyState(" ");
    if forward {
      input.direction := Forward;
    } else if backward {
      input.direction := Backward;
    } else if stop {
      input.direction := Stop;
    } else {
      input.direction := Neutral;
    }
  }

  /** Through the shared dictionary: after the events, the locomotive's
      direction follows the last event of each of the three keys, so with no
      event at all it is in neutral, not at the component's initial `Stop`. */
  lemma DirectionFromEvents(events: seq<Keys.KeyEvent>)
    ensures var states := Keys.Apply(map[], events);
      Requested(Keys.KeyState(states, "w"), Keys.KeyState(states, "s"), Keys.KeyState(states, " "))
      == Requested(Keys.LastEvent(events, "w") == Some(true), Keys.LastEvent(events, "s") == Some(true),
                   Keys.LastEvent(events, " ") == Some(true))
  {
    Keys.FromEmpty(events, "w");
    Keys.FromEmpty(events, "s");
    Keys.FromEmpty(events, " ");
  }
}
