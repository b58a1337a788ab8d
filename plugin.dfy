/**
 * The plugin object: its fields, updated in place by the host's callbacks.
 * Every callback is proved to leave the fields, read as a Session.State,
 * exactly where the Session functions put them, and to keep Session.Inv.
 */
module Plugin {
  import opened Options
  import opened Geofence
  import opened VeinScan
  import opened EvictingQueues
  import opened Presenter
  import opened Session

  class ImprovedTearsInterfacePlugin {
    /** The decorative-object ids of the three vein kinds. */
    const veinIds: VeinIds

    var maxTicks: int
    var minigameStarting: int
    var minigameEnding: bool
    var ticksLeft: int
    var displayedTicksLeft: int
    var tearsCollected: int
    var collectingState: TearCollectingState
    const deltaInstantQueue: EvictingQueue<DeltaInstant>
    var turnedOnDuringMinigame: bool
    var inTearsMinigame: bool

    /** The fields as one value. */
    function Snapshot(): State
      reads this, deltaInstantQueue
    {
      State(maxTicks, minigameStarting, minigameEnding, ticksLeft, displayedTicksLeft, tearsCollected,
            collectingState, deltaInstantQueue.items, turnedOnDuringMinigame, inTearsMinigame)
    }

    ghost predicate Valid()
      reads this, deltaInstantQueue
    {
      deltaInstantQueue.maxSize == DeltaQueueSize && deltaInstantQueue.Valid() && Inv(Snapshot())
    }

    constructor (veinIds: VeinIds)
      ensures Valid() && Snapshot() == Initial && this.veinIds == veinIds
      ensures fresh(deltaInstantQueue)
    {
      this.veinIds := veinIds;
      maxTicks, minigameStarting, minigameEnding := 0, 0, false;
      ticksLeft, displayedTicksLeft, tearsCollected := 0, 0, 0;
      collectingState := NotCollecting;
      deltaInstantQueue := new EvictingQueue.Create(DeltaQueueSize);
      turnedOnDuringMinigame, inTearsMinigame := false, false;
    }

    /** Zeroes every field, clears both flags and empties the queue. */
    method Reset()
      requires deltaInstantQueue.maxSize == DeltaQueueSize
      modifies this, deltaInstantQueue
      ensures Valid() && Snapshot() == Initial
    {
      maxTicks := 0;
      minigameStarting := 0;
      minigameEnding := false;
      ticksLeft := 0;
      displayedTicksLeft := 0;
      tearsCollected := 0;
      inTearsMinigame := false;
      turnedOnDuringMinigame := false;
      collectingState := NotCollecting;
      deltaInstantQueue.Clear();
    }

    /** Resets, then remembers whether a game was already under way around the player. */
    method StartUp(ticksLeftVarbit: nat, location: Option<WorldPoint>)
      requires Valid()
      modifies this, deltaInstantQueue
      ensures Valid() && Snapshot() == StartedUp(ticksLeftVarbit, location)
    {
      Reset();
      if InExterior(location) && ticksLeftVarbit > 0 {
        turnedOnDuringMinigame := true;
      }
    }

    /** Puts the interface's own texts back when a game was shown, then resets. */
    method ShutDown(timeLeftWidget: bool, waterTextWidget: bool, tearsCountWidget: bool) returns (writes: Widgets)
      requires Valid()
      modifies this, deltaInstantQueue
      ensures Valid() && Snapshot() == Initial
      ensures writes == ShutDownWidgets(old(Snapshot()), timeLeftWidget, waterTextWidget, tearsCountWidget)
    {
      writes := NoWrites;
      if inTearsMinigame {
        if timeLeftWidget {
          writes := writes.(timeLeft := Some(TextWrite(TimeLeftLabel, Yellow)));
        }
        if waterTextWidget {
          writes := writes.(waterText := Some(TextWrite(WaterCollectedLabel, Yellow)));
        }
        if tearsCountWidget {
          writes := writes.(tearsCount := Some(Yellow));
        }
      }
      Reset();
    }

    method OnGameStateChanged(gameState: GameState)
      requires Valid()
      modifies this, deltaInstantQueue
      ensures Valid() && Snapshot() == GameStateChanged(old(Snapshot()), gameState)
    {
      if gameState == LoginScreen {
        Reset();
      }
    }

    /** One game tick. */
    method OnGameTick(input: TickInput) returns (writes: Widgets)
      requires Valid()
      modifies this, deltaInstantQueue
      ensures Valid()
      ensures (Snapshot(), writes) == Tick(veinIds, old(Snapshot()), input)
    {
      TickPreservesInv(veinIds, Snapshot(), input);
      writes := NoWrites;
      if input.gameState != LoggedIn {
        return;
      }

      if turnedOnDuringMinigame {
        if !InInterior(input.location) {
          Reset();
        } else {
          return;
        }
      }

      UpdatePhase(input.ticksLeftVarbit, input.location);
      writes := UpdateInterface(input);
    }

    /** React to the ticks-left varbit and the player's position: fresh start, countdown, smoothing or end of game. */
    method UpdatePhase(newTicksLeft: nat, location: Option<WorldPoint>)
      modifies this
      ensures Snapshot() == Advance(old(Snapshot()), newTicksLeft, InExterior(location), InInterior(location))
    {
      if newTicksLeft > 0 && InExterior(location) {
        inTearsMinigame := true;
        if ticksLeft == 0 {
          maxTicks := newTicksLeft;
          displayedTicksLeft := newTicksLeft;
          minigameStarting := TicksFromJunasTail;
        } else if minigameStarting > 0 {
          if InInterior(location) {
            minigameStarting := minigameStarting - 1;
          }
        } else if newTicksLeft == ticksLeft {
          if displayedTicksLeft > 0 {
            displayedTicksLeft := displayedTicksLeft - 1;
          }
        } else {
          displayedTicksLeft := newTicksLeft;
        }
      } else if ticksLeft > 0 {
        minigameEnding := true;
        ticksLeft := 0;
        displayedTicksLeft := 0;
      }
    }

    /** Classify the collecting state, write the widgets, push the count change, then reset or store the readings. */
    method UpdateInterface(input: TickInput) returns (writes: Widgets)
      requires deltaInstantQueue.maxSize == DeltaQueueSize && deltaInstantQueue.Valid()
      modifies this, deltaInstantQueue
      ensures (Snapshot(), writes) == Finish(veinIds, old(Snapshot()), input)
    {
      writes := NoWrites;
      if inTearsMinigame {
        var newTearsCollected := input.tearsCollectedVarbit;
        collectingState := CurrentCollectingState(veinIds, input.collectingVarbit, input.location, input.scene);
        ghost var s2 := Snapshot();

        if input.timeLeftWidget {
          var flash := Flashing(input.flashingText, input.tickCount);
          var timeLeft := TextWrite(TicksLeft(displayedTicksLeft, maxTicks),
                                    TimeLeftColor(displayedTicksLeft, maxTicks, flash));
          var waterText := None;
          if input.waterTextWidget {
            waterText := Some(StatusSlot(minigameStarting, minigameEnding, collectingState, flash));
          }
          var tearsDiff := newTearsCollected - tearsCollected;
          deltaInstantQueue.Add(DeltaInstant(tearsDiff, input.now));
          var tearsCount := None;
          if input.tearsCountWidget {
            tearsCount := Some(CountColor(tearsDiff));
          }
          writes := Widgets(Some(timeLeft), waterText, tearsCount);
          assert writes == Slots(s2, input);
        }

        if minigameEnding && !InInterior(input.location) {
          Reset();
        } else {
          ticksLeft := input.ticksLeftVarbit;
          tearsCollected := newTearsCollected;
        }
      }
    }
  }
}
