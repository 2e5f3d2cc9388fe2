/**
 * The game's mutable state and the handlers that change it: key presses and
 * releases, the popup's close control and the per-frame update. Two modes
 * sit on top of continuous movement: exploring (popup closed) and inspecting
 * an artifact (popup open, movement frozen).
 */
module TimeTrek {
  import opened Wrappers
  import opened Movement
  import opened Artifacts
  import opened Proximity

  /** The status line shown under the world. */
  datatype Message =
    | Explore          // the generic exploration prompt
    | See(index: nat)  // "you see artifact `index`, press E to inspect it"
    | GreatDiscovery   // an artifact was found and others remain
    | AllFound         // the last artifact was just found
    | MissionComplete  // the popup closed with every artifact found

  /** Whether `key` is held: a key never pressed counts as released. */
  function Held(keys: map<string, bool>, key: string): bool {
    key in keys && keys[key]
  }

  /** Keys that close an open popup (space, enter, escape). */
  predicate IsCloseKey(key: string)
    ensures IsCloseKey(key) ==> key !in {"e", "a", "d", "arrowleft", "arrowright"}
  {
    key == " " || key == "enter" || key == "escape"
  }

  class Game {
    var playerX: int
    /** The offset the world is drawn at, as last written by the movement step. */
    var cameraX: int
    /** Held state of every key pressed or released so far, by lower-case name. */
    var keys: map<string, bool>
    var popupOpen: bool
    /** Index of the artifact the player is standing at, if any. */
    var activeArtifact: Option<nat>
    var foundCount: nat
    var message: Message
    const artifacts: array<Artifact>
    const totalArtifacts: nat

    /**
     * The invariant every handler keeps: the player is inside the world, the
     * camera matches the player, and the found counter equals the number of
     * collected artifacts.
     */
    ghost predicate Valid()
      reads this, artifacts
    {
      && InBounds(playerX)
      && cameraX == CameraX(playerX)
      && totalArtifacts == artifacts.Length
      && foundCount == CollectedCount(artifacts[..])
      && (activeArtifact.Some? ==> activeArtifact.value < artifacts.Length)
      && (message.See? ==> message.index < artifacts.Length)
    }

    /** A left key is held; a key never pressed counts as released. */
    predicate MovingLeft()
      reads this
    {
      Held(keys, "arrowleft") || Held(keys, "a")
    }

    /** A right key is held; a key never pressed counts as released. */
    predicate MovingRight()
      reads this
    {
      Held(keys, "arrowright") || Held(keys, "d")
    }

    /** Pressing "e" now would open the popup on the active artifact. */
    ghost predicate CanOpen()
      reads this, artifacts
      ensures CanOpen() ==> CollectedCount(artifacts[..]) < artifacts.Length
    {
      activeArtifact.Some? && activeArtifact.value < artifacts.Length
      && !artifacts[activeArtifact.value].collected
    }

    /** Startup: one uncollected artifact per marker, the player at 100, nothing held. */
    constructor (markers: seq<Marker>, registry: map<string, Info>)
      requires forall m | m in markers :: m.kind in registry
      ensures Valid()
      ensures fresh(artifacts) && artifacts[..] == BuildArtifacts(markers, registry)
      ensures totalArtifacts == |markers|
      ensures playerX == StartX && keys == map[] && !popupOpen
      ensures activeArtifact == None && foundCount == 0 && message == Explore
      ensures !MovingLeft() && !MovingRight()
    {
      var s := BuildArtifacts(markers, registry);
      artifacts := new Artifact[|s|](i requires 0 <= i < |s| => s[i]);
      totalArtifacts := |s|;
      playerX := StartX;
      cameraX := 0;
      keys := map[];
      popupOpen := false;
      activeArtifact := None;
      foundCount := 0;
      message := Explore;
      new;
      assert artifacts[..] == s;
    }

    /**
     * One movement step: subtract the speed if a left key is held, then add
     * it if a right key is held, clamp to the world, and move the camera.
     */
    method HandleMovement()
      requires Valid()
      modifies this`playerX, this`cameraX
      ensures Valid()
      ensures playerX == NextX(old(playerX), MovingLeft(), MovingRight())
      ensures cameraX == CameraX(playerX)
    {
      var movingLeft := MovingLeft();
      var movingRight := MovingRight();
      if movingLeft {
        playerX := playerX - PlayerSpeed;
      }
      if movingRight {
        playerX := playerX + PlayerSpeed;
      }
      if playerX < 0 {
        playerX := 0;
      }
      if playerX > MaxPlayerX {
        playerX := MaxPlayerX;
      }
      var camera := playerX - GameWidth / 2;
      if camera < 0 {
        camera := 0;
      }
      if camera > MaxCameraX {
        camera := MaxCameraX;
      }
      cameraX := camera;
    }

    /**
     * Proximity detection: activate the nearest uncollected artifact in range
     * and announce it; with none in range, show the exploration prompt, but
     * only while the popup is closed.
     */
    method CheckArtifacts()
      requires Valid()
      modifies this`activeArtifact, this`message
      ensures Valid()
      ensures activeArtifact == NearestInRange(artifacts[..], playerX)
      ensures activeArtifact.Some? ==> message == See(activeArtifact.value)
      ensures activeArtifact.None? && !popupOpen ==> message == Explore
      ensures activeArtifact.None? && popupOpen ==> message == old(message)
    {
      var closest := ScanNearest(artifacts, playerX);
      NearestInRangeCorrect(artifacts[..], playerX);
      if closest.Some? {
        activeArtifact := closest;
        message := See(closest.value);
      } else {
        activeArtifact := None;
        if !popupOpen {
          message := Explore;
        }
      }
    }

    /**
     * Show the popup for artifact `i`; the first time, mark it collected,
     * count it and announce either a discovery or that all are found.
     */
    method OpenPopup(i: nat)
      requires Valid() && i < artifacts.Length
      modifies this`popupOpen, this`foundCount, this`message, artifacts
      ensures Valid() && popupOpen
      ensures old(artifacts[i].collected) ==>
        artifacts[..] == old(artifacts[..]) && foundCount == old(foundCount) && message == old(message)
      ensures !old(artifacts[i].collected) ==>
        && artifacts[..] == old(artifacts[..])[i := old(artifacts[i]).(collected := true)]
        && foundCount == old(foundCount) + 1
        && (message == AllFound || message == GreatDiscovery)
        && (message == AllFound <==> foundCount == totalArtifacts)
        && (message == AllFound <==> forall j | 0 <= j < artifacts.Length :: artifacts[j].collected)
    {
      popupOpen := true;
      if !artifacts[i].collected {
        CollectOne(artifacts[..], i);
        artifacts[i] := artifacts[i].(collected := true);
        foundCount := foundCount + 1;
        if foundCount == totalArtifacts {
          message := AllFound;
        } else {
          message := GreatDiscovery;
        }
      }
    }

    /**
     * Hide the popup, whatever its state, and reset the status line: mission
     * complete when every artifact is found, the exploration prompt otherwise.
     */
    method ClosePopup()
      requires Valid()
      modifies this`popupOpen, this`message
      ensures Valid() && !popupOpen
      ensures message == Explore || message == MissionComplete
      ensures message == MissionComplete <==> foundCount == totalArtifacts
      ensures message == MissionComplete <==> forall j | 0 <= j < artifacts.Length :: artifacts[j].collected
    {
      popupOpen := false;
      if foundCount == totalArtifacts {
        message := MissionComplete;
      } else {
        message := Explore;
      }
    }

    /**
     * A key goes down. With the popup open only a close key does anything,
     * and it closes the popup. Otherwise the key is recorded as held, and
     * "e" opens the popup on the active artifact if it is not yet collected.
     */
    method KeyDown(key: string)
      requires Valid()
      modifies this`keys, this`popupOpen, this`foundCount, this`message, artifacts
      ensures Valid()
      ensures old(popupOpen) ==>
        && keys == old(keys)
        && artifacts[..] == old(artifacts[..]) && foundCount == old(foundCount)
        && popupOpen == !IsCloseKey(key)
        && (IsCloseKey(key) ==> message == (if foundCount == totalArtifacts then MissionComplete else Explore))
        && (!IsCloseKey(key) ==> message == old(message))
      ensures !old(popupOpen) ==> keys == old(keys)[key := true]
      ensures !old(popupOpen) && key in {"arrowleft", "a"} ==> MovingLeft()
      ensures !old(popupOpen) && key in {"arrowright", "d"} ==> MovingRight()
      ensures key !in {"arrowleft", "a"} ==> MovingLeft() == old(MovingLeft())
      ensures key !in {"arrowright", "d"} ==> MovingRight() == old(MovingRight())
      ensures !old(popupOpen) && key == "e" && old(CanOpen()) ==>
        && popupOpen
        && artifacts[..] == old(artifacts[..])[activeArtifact.value := old(artifacts[activeArtifact.value]).(collected := true)]
        && foundCount == old(foundCount) + 1
        && message == (if foundCount == totalArtifacts then AllFound else GreatDiscovery)
      ensures !old(popupOpen) && !(key == "e" && old(CanOpen())) ==>
        && !popupOpen
        && artifacts[..] == old(artifacts[..]) && foundCount == old(foundCount) && message == old(message)
    {
      if popupOpen {
        if IsCloseKey(key) {
          ClosePopup();
        }
        return;
      }
      keys := keys[key := true];
      if key == "e" {
        if activeArtifact.Some? && !artifacts[activeArtifact.value].collected {
          OpenPopup(activeArtifact.value);
        }
      }
    }

    /** A key comes up: it is recorded as released, whether or not the popup is open. */
    method KeyUp(key: string)
      requires Valid()
      modifies this`keys
      ensures Valid()
      ensures keys == old(keys)[key := false]
      ensures key == "arrowleft" ==> MovingLeft() == Held(keys, "a")
      ensures key == "a" ==> MovingLeft() == Held(keys, "arrowleft")
      ensures key == "arrowright" ==> MovingRight() == Held(keys, "d")
      ensures key == "d" ==> MovingRight() == Held(keys, "arrowright")
      ensures key !in {"arrowleft", "a"} ==> MovingLeft() == old(MovingLeft())
      ensures key !in {"arrowright", "d"} ==> MovingRight() == old(MovingRight())
    {
      keys := keys[key := false];
    }

    /** The popup's close control was clicked: close it, even if it is already closed. */
    method ClickClose()
      requires Valid()
      modifies this`popupOpen, this`message
      ensures Valid() && !popupOpen
      ensures message == (if foundCount == totalArtifacts then MissionComplete else Explore)
    {
      ClosePopup();
    }

    /**
     * One frame: move only while the popup is closed, then run proximity
     * detection, which runs every frame.
     */
    method Tick()
      requires Valid()
      modifies this`playerX, this`cameraX, this`activeArtifact, this`message
      ensures Valid()
      ensures popupOpen ==> playerX == old(playerX)
      ensures !popupOpen ==> playerX == NextX(old(playerX), MovingLeft(), MovingRight())
      ensures cameraX == CameraX(playerX)
      ensures activeArtifact == NearestInRange(artifacts[..], playerX)
      ensures activeArtifact.Some? ==> message == See(activeArtifact.value)
      ensures activeArtifact.None? && !popupOpen ==> message == Explore
      ensures activeArtifact.None? && popupOpen ==> message == old(message)
    {
      if !popupOpen {
        HandleMovement();
      }
      CheckArtifacts();
    }
  }
}
