/**
 * The possession link between a `PlayerController` and the `Character` it
 * drives. Each side keeps its own reference (`controlledCharacter`,
 * `controlledBy`); the callbacks `OnPossessed` and `OnUnpossessed` are
 * recorded, in call order, in a shared log.
 *
 * `Character.OnUnpossessed` checks with `Debug.Assert` that the caller is its
 * current controller. A failed `Debug.Assert` only reports; execution goes on.
 * Nothing stops two controllers from possessing the same character, so that
 * assertion can fail.
 */
module Possession {
  import opened Types

  datatype Callback =
    | Possessed(character: Character, controller: PlayerController)
    | Unpossessed(character: Character, controller: PlayerController)
    | UnpossessAssertFailed(character: Character, caller: PlayerController, controlledBy: PlayerController?)

  /** The observable order of possession callbacks. */
  class CallbackLog {
    var entries: seq<Callback>

    constructor ()
      ensures entries == []
    {
      entries := [];
    }
  }

  /**
   * What one `OnUnpossessed(caller)` call on `c` logs, given the controller `c`
   * had recorded; nothing when there is no character.
   */
  function UnpossessCallbacks(c: Character?, caller: PlayerController, controlledBy: PlayerController?): seq<Callback> {
    if c == null then []
    else [Unpossessed(c, caller)] + (if controlledBy == caller then [] else [UnpossessAssertFailed(c, caller, controlledBy)])
  }

  class Character {
    const ty: TypeId
    var controlledBy: PlayerController?

    constructor (ty: TypeId)
      ensures this.ty == ty && controlledBy == null
    {
      this.ty := ty;
      controlledBy := null;
    }

    /** Overwrites the recorded controller, whatever it was. */
    method OnPossessed(controller: PlayerController, log: CallbackLog)
      modifies this, log
      ensures controlledBy == controller
      ensures log.entries == old(log.entries) + [Possessed(this, controller)]
    {
      log.entries := log.entries + [Possessed(this, controller)];
      controlledBy := controller;
    }

    /** Reports a caller that is not the recorded controller, then clears the link anyway. */
    method OnUnpossessed(controller: PlayerController, log: CallbackLog)
      modifies this, log
      ensures controlledBy == null
      ensures log.entries == old(log.entries) + UnpossessCallbacks(this, controller, old(controlledBy))
    {
      log.entries := log.entries + [Unpossessed(this, controller)];
      if controller != controlledBy {
        log.entries := log.entries + [UnpossessAssertFailed(this, controller, controlledBy)];
      }
      controlledBy := null;
    }
  }

  /** `p` and `c` point at each other. */
  predicate Linked(p: PlayerController, c: Character)
    reads p, c
  {
    p.controlledCharacter == c && c.controlledBy == p
  }

  class PlayerController {
    const ty: TypeId
    const startControlledCharacter: Character?
    var controlledCharacter: Character?

    constructor (ty: TypeId, startControlledCharacter: Character?)
      ensures this.ty == ty && this.startControlledCharacter == startControlledCharacter
      ensures controlledCharacter == null
    {
      this.ty := ty;
      this.startControlledCharacter := startControlledCharacter;
      controlledCharacter := null;
    }

    /**
     * Unpossesses the current character, if any, then binds `character` and
     * calls its `OnPossessed`. A null character is a fault: the code
     * dereferences it.
     */
    method Possess(character: Character?, log: CallbackLog)
      requires character != null
      modifies this, character, controlledCharacter, log
      ensures Linked(this, character)
      ensures log.entries == old(log.entries)
                             + UnpossessCallbacks(old(controlledCharacter), this,
                                                  old(if controlledCharacter != null then controlledCharacter.controlledBy else null))
                             + [Possessed(character, this)]
      ensures old(controlledCharacter) != null && old(controlledCharacter) != character ==>
                old(controlledCharacter).controlledBy == null
    {
      if controlledCharacter != null {
        Unpossess(log);
      }
      controlledCharacter := character;
      character.OnPossessed(this, log);
    }

    /** Calls `OnUnpossessed` on the current character, if any, and clears the binding. */
    method Unpossess(log: CallbackLog)
      modifies this, controlledCharacter, log
      ensures controlledCharacter == null
      ensures old(controlledCharacter) != null ==> old(controlledCharacter).controlledBy == null
      ensures log.entries == old(log.entries)
                             + UnpossessCallbacks(old(controlledCharacter), this,
                                                  old(if controlledCharacter != null then controlledCharacter.controlledBy else null))
    {
      if controlledCharacter != null {
        controlledCharacter.OnUnpossessed(this, log);
      }
      controlledCharacter := null;
    }

    /** `Start`: possess the configured start character when there is one. */
    method Start(log: CallbackLog)
      modifies this, startControlledCharacter, controlledCharacter, log
      ensures startControlledCharacter != null ==> Linked(this, startControlledCharacter)
      ensures startControlledCharacter != null ==>
                log.entries == old(log.entries)
                               + UnpossessCallbacks(old(controlledCharacter), this,
                                                    old(if controlledCharacter != null then controlledCharacter.controlledBy else null))
                               + [Possessed(startControlledCharacter, this)]
      ensures (startControlledCharacter != null && old(controlledCharacter) != null
               && old(controlledCharacter) != startControlledCharacter) ==>
                old(controlledCharacter).controlledBy == null
      ensures startControlledCharacter == null ==>
                controlledCharacter == old(controlledCharacter) && log.entries == old(log.entries)
      ensures startControlledCharacter == null && old(controlledCharacter) != null ==>
                old(controlledCharacter).controlledBy == old(controlledCharacter.controlledBy)
    {
      if startControlledCharacter != null {
        Possess(startControlledCharacter, log);
      }
    }

    /** The `ControlledCharacter` setter is `Possess(value)`, so a null value is the same fault as there. */
    method SetControlledCharacter(value: Character?, log: CallbackLog)
      requires value != null
      modifies this, value, controlledCharacter, log
      ensures Linked(this, value)
      ensures log.entries == old(log.entries)
                             + UnpossessCallbacks(old(controlledCharacter), this,
                                                  old(if controlledCharacter != null then controlledCharacter.controlledBy else null))
                             + [Possessed(value, this)]
      ensures old(controlledCharacter) != null && old(controlledCharacter) != value ==>
                old(controlledCharacter).controlledBy == null
    {
      Possess(value, log);
    }

    /** `GetControlledCharacter<T>`: `controlledCharacter as T`. */
    function GetControlledCharacter(t: TypeId): (r: Character?)
      reads this
      ensures r != null ==> r == controlledCharacter && IsA(r.ty, t)
      ensures controlledCharacter != null && IsA(controlledCharacter.ty, t) ==> r == controlledCharacter
    {
      if controlledCharacter != null && IsA(controlledCharacter.ty, t) then controlledCharacter else null
    }
  }

  /**
   * Handing over: possessing a second character unpossesses the first one
   * exactly once, without an assertion failure when the link was symmetric.
   */
  method HandOver(p: PlayerController, a: Character, b: Character, log: CallbackLog)
    requires a != b && p.controlledCharacter == null
    modifies p, a, b, log
    ensures Linked(p, b) && a.controlledBy == null
    ensures log.entries == old(log.entries) + [Possessed(a, p), Unpossessed(a, p), Possessed(b, p)]
  {
    p.Possess(a, log);
    p.Possess(b, log);
  }

  /**
   * Two controllers possessing one character: the second takes it over without
   * the first noticing, and the first one's `Unpossess` then fails the
   * assertion and also clears the second one's link.
   */
  method SharedCharacterFailsAssertion(p1: PlayerController, p2: PlayerController, c: Character, log: CallbackLog)
    requires p1 != p2 && p1.controlledCharacter == null && p2.controlledCharacter == null
    modifies p1, p2, c, log
    ensures p2.controlledCharacter == c && c.controlledBy == null
    ensures log.entries == old(log.entries)
                           + [Possessed(c, p1), Possessed(c, p2), Unpossessed(c, p1), UnpossessAssertFailed(c, p1, p2)]
  {
    p1.Possess(c, log);
    p2.Possess(c, log);
    p1.Unpossess(log);
  }
}
