/**
 * The `Engine` `Input` module: the keys currently held, stored lower-cased. Key presses and
 * releases arrive as `addKey` and `deleteKey` calls (from window and button listeners, which are
 * not part of this model); `isKeyHeld` asks about one key, ignoring case, and `reset` lets go of
 * every key. A ghost history of the calls made shows that a key is held exactly when it was
 * pressed after its last release and after the last reset.
 */
module EngineInput {
  import opened JsString

  /** One call that changes the held keys: a press, a release, or a reset. */
  datatype KeyEvent = Down(key: string) | Up(key: string) | Clear

  /** Whether an event lets go of a key: its release in any case, or a reset. */
  predicate Releases(e: KeyEvent, key: string)
  {
    e.Clear? || (e.Up? && ToLower(e.key) == ToLower(key))
  }

  /** Some press of the key, in any case, is later than every release of it and every reset. */
  ghost predicate PressedSince(history: seq<KeyEvent>, key: string)
  {
    exists i | 0 <= i < |history| ::
      && history[i].Down? && ToLower(history[i].key) == ToLower(key)
      && forall j | i < j < |history| :: !Releases(history[j], key)
  }

  /** The held keys after a history of calls, replayed from the first. */
  function HeldAfter(history: seq<KeyEvent>): (held: set<string>)
    ensures forall k | k in held :: ToLower(k) == k
  {
    if |history| == 0 then {}
    else
      var held := HeldAfter(history[..|history| - 1]);
      match history[|history| - 1]
      case Down(key) => ToLowerIdempotent(key); held + {ToLower(key)}
      case Up(key) => held - {ToLower(key)}
      case Clear => {}
  }

  /** A key is held, in any case, exactly when it was pressed after its last release and the last reset. */
  lemma {:induction false} HeldIffPressedSince(history: seq<KeyEvent>, key: string)
    ensures ToLower(key) in HeldAfter(history) <==> PressedSince(history, key)
  {
    if |history| > 0 {
      var n := |history| - 1;
      var front, e := history[..n], history[n];
      HeldIffPressedSince(front, key);
      assert history == front + [e];
      if e.Down? && ToLower(e.key) == ToLower(key) {
        PressedByLast(front, e, key);
      } else if Releases(e, key) {
        ReleasedByLast(front, e, key);
      } else {
        PressedSinceKept(front, e, key);
      }
    }
  }

  /** A press of the key as the last event leaves it pressed. */
  lemma PressedByLast(front: seq<KeyEvent>, e: KeyEvent, key: string)
    requires e.Down? && ToLower(e.key) == ToLower(key)
    ensures PressedSince(front + [e], key)
  {
    var history := front + [e];
    assert history[|front|] == e;
  }

  /** A release of the key or a reset as the last event leaves it not pressed. */
  lemma ReleasedByLast(front: seq<KeyEvent>, e: KeyEvent, key: string)
    requires Releases(e, key)
    ensures !PressedSince(front + [e], key)
  {
    var history := front + [e];
    assert history[|front|] == e;
  }

  /** Any other last event leaves whether the key was pressed as it was. */
  lemma PressedSinceKept(front: seq<KeyEvent>, e: KeyEvent, key: string)
    requires !Releases(e, key) && !(e.Down? && ToLower(e.key) == ToLower(key))
    ensures PressedSince(front + [e], key) <==> PressedSince(front, key)
  {
    var history := front + [e];
    assert history[|front|] == e;
    if PressedSince(history, key) {
      var i :| 0 <= i < |history| && history[i].Down? && ToLower(history[i].key) == ToLower(key)
               && forall j | i < j < |history| :: !Releases(history[j], key);
      assert i < |front| && front[i] == history[i];
      assert forall j | i < j < |front| :: front[j] == history[j];
    }
    if PressedSince(front, key) {
      var i :| 0 <= i < |front| && front[i].Down? && ToLower(front[i].key) == ToLower(key)
               && forall j | i < j < |front| :: !Releases(front[j], key);
      assert history[i] == front[i];
      assert forall j | i < j < |front| :: history[j] == front[j];
    }
  }

  /** The held-key registry of the engine. */
  class Input {
    /** The keys held now, lower-cased (the keys of the `heldKeys` map, whose values are all `true`). */
    var heldKeys: set<string>
    /** The `addKey`, `deleteKey` and `reset` calls made so far, in order. */
    ghost var history: seq<KeyEvent>

    /** The held keys are those the history of calls leaves held. */
    ghost predicate Valid()
      reads this
    {
      heldKeys == HeldAfter(history)
    }

    /** A new registry holds no key. */
    constructor()
      ensures Valid() && history == [] && heldKeys == {}
    {
      heldKeys := {};
      history := [];
    }

    /** `addKey`: holds the lower-cased key; a key already held stays held once. */
    method AddKey(key: string)
      requires Valid()
      modifies this
      ensures Valid() && history == old(history) + [Down(key)]
      ensures heldKeys == old(heldKeys) + {ToLower(key)}
    {
      var lowered := ToLower(key);
      history := history + [Down(key)];
      assert history[..|history| - 1] == old(history);
      if lowered in heldKeys {
        return;
      }
      heldKeys := heldKeys + {lowered};
    }

    /** `deleteKey`: lets go of the lower-cased key; deleting a key not held changes nothing. */
    method DeleteKey(key: string)
      requires Valid()
      modifies this
      ensures Valid() && history == old(history) + [Up(key)]
      ensures heldKeys == old(heldKeys) - {ToLower(key)}
    {
      var lowered := ToLower(key);
      history := history + [Up(key)];
      assert history[..|history| - 1] == old(history);
      if lowered !in heldKeys {
        return;
      }
      heldKeys := heldKeys - {lowered};
    }

    /** `isKeyHeld`: whether the key, in any case, was pressed after its last release and the last reset. */
    function IsKeyHeld(key: string): (held: bool)
      reads this
      ensures Valid() ==> (held <==> PressedSince(history, key))
    {
      HeldIffPressedSince(history, key);
      ToLower(key) in heldKeys
    }

    /** `reset`: lets go of every key. */
    method Reset()
      requires Valid()
      modifies this
      ensures Valid() && history == old(history) + [Clear]
      ensures heldKeys == {}
    {
      heldKeys := {};
      history := history + [Clear];
    }
  }

  /** Pressing a key that is already held changes nothing: `addKey` is idempotent. */
  lemma AddKeyIdempotent(history: seq<KeyEvent>, key: string)
    ensures HeldAfter(history + [Down(key), Down(key)]) == HeldAfter(history + [Down(key)])
  {
    assert (history + [Down(key), Down(key)])[..|history| + 1] == history + [Down(key)];
    assert (history + [Down(key)])[..|history|] == history;
  }

  /** Pressing a key leaves every other key, in every case, as it was. */
  lemma AddKeyKeepsOthers(history: seq<KeyEvent>, key: string, other: string)
    requires ToLower(other) != ToLower(key)
    ensures ToLower(other) in HeldAfter(history + [Down(key)]) <==> ToLower(other) in HeldAfter(history)
  {
    assert (history + [Down(key)])[..|history|] == history;
  }

  /** After a release no case variant of the key is held, whether or not it was held before. */
  lemma DeleteKeyReleasesAllCases(history: seq<KeyEvent>, key: string, other: string)
    requires ToLower(other) == ToLower(key)
    ensures !PressedSince(history + [Up(key)], other)
  {
    assert (history + [Up(key)])[..|history|] == history;
    HeldIffPressedSince(history + [Up(key)], other);
  }
}
