/**
 * The plugin's per-tick state machine as pure functions over a snapshot of
 * its fields, and what it promises across ticks. The class in module Plugin
 * is proved to update its fields exactly as these functions say.
 *
 * There is no explicit phase field: the countdown runs while
 * minigameStarting > 0, the game is over while minigameEnding holds, and the
 * game is live when inTearsMinigame holds with neither of those.
 */
module Session {
  import opened Options
  import opened Geofence
  import opened VeinScan
  import opened EvictingQueues
  import opened Presenter

  /** Ticks between Juna's tail (the ticks-left varbit turning positive) and the start of collecting. */
  const TicksFromJunasTail := 9
  /** Capacity of the queue of recent count changes. */
  const DeltaQueueSize := 10

  /** The host's game states; only LoggedIn and LoginScreen are acted on. */
  datatype GameState =
    | Unknown | StartingUp | LoginScreen | LoginScreenAuthenticator | LoggingIn
    | Loading | LoggedIn | ConnectionLost | Hopping

  /** One change of the tears count and when it was seen (an abstract clock reading). */
  datatype DeltaInstant = DeltaInstant(delta: int, time: int)

  /** The plugin's fields; deltaQueue lists the evicting queue from oldest to newest. */
  datatype State = State(
    maxTicks: int,
    minigameStarting: int,
    minigameEnding: bool,
    ticksLeft: int,
    displayedTicksLeft: int,
    tearsCollected: int,
    collectingState: TearCollectingState,
    deltaQueue: seq<DeltaInstant>,
    turnedOnDuringMinigame: bool,
    inTearsMinigame: bool)

  /** What reset() leaves behind, which is also the state of a new plugin. */
  const Initial := State(0, 0, false, 0, 0, 0, NotCollecting, [], false, false)

  /**
   * Everything one tick reads from the client: the game state, the
   * ticks-left, tears-collected and collecting varbits, the player's world
   * location (None for no player or no location), the decorative-object id
   * on each tile, which of the three interface widgets exist, the client's
   * tick count, the flashing-text option and the current time.
   */
  datatype TickInput = TickInput(
    gameState: GameState,
    ticksLeftVarbit: nat,
    tearsCollectedVarbit: nat,
    collectingVarbit: nat,
    location: Option<WorldPoint>,
    scene: WorldPoint -> Option<int>,
    timeLeftWidget: bool,
    waterTextWidget: bool,
    tearsCountWidget: bool,
    tickCount: int,
    flashingText: bool,
    now: int)

  /** What a tick writes to the time-left, water-text and tears-count widgets; None leaves a widget untouched. */
  datatype Widgets = Widgets(timeLeft: Option<TextWrite>, waterText: Option<TextWrite>, tearsCount: Option<Color>)

  const NoWrites := Widgets(None, None, None)

  /** The fields a consistent plugin keeps. */
  ghost predicate Inv(s: State)
  {
    && s.maxTicks >= 0 && s.ticksLeft >= 0 && s.tearsCollected >= 0
    && s.displayedTicksLeft >= 0
    && 0 <= s.minigameStarting <= TicksFromJunasTail
    && |s.deltaQueue| <= DeltaQueueSize
    && (s.turnedOnDuringMinigame ==> s == Initial.(turnedOnDuringMinigame := true))
    && (!s.inTearsMinigame ==> s == Initial.(turnedOnDuringMinigame := s.turnedOnDuringMinigame))
  }

  /** The fields after startUp: reset, then flag a game already under way. */
  function StartedUp(ticksLeftVarbit: nat, location: Option<WorldPoint>): (r: State)
    ensures r.turnedOnDuringMinigame <==> InExterior(location) && ticksLeftVarbit > 0
    ensures r.(turnedOnDuringMinigame := false) == Initial
  {
    Initial.(turnedOnDuringMinigame := InExterior(location) && ticksLeftVarbit > 0)
  }

  /** The fields after a game-state change: the login screen resets. */
  function GameStateChanged(s: State, gameState: GameState): (r: State)
    ensures gameState == LoginScreen ==> r == Initial
    ensures gameState != LoginScreen ==> r == s
  {
    if gameState == LoginScreen then Initial else s
  }

  /** What shutDown writes back: the interface's own texts, in yellow, when a game was being shown. */
  function ShutDownWidgets(s: State, timeLeftWidget: bool, waterTextWidget: bool, tearsCountWidget: bool): (w: Widgets)
    ensures w.timeLeft.Some? <==> s.inTearsMinigame && timeLeftWidget
    ensures w.waterText.Some? <==> s.inTearsMinigame && waterTextWidget
    ensures w.tearsCount.Some? <==> s.inTearsMinigame && tearsCountWidget
    ensures w.timeLeft.Some? ==> w.timeLeft.value == TextWrite(TimeLeftLabel, Yellow)
    ensures w.waterText.Some? ==> w.waterText.value == TextWrite(WaterCollectedLabel, Yellow)
    ensures w.tearsCount.Some? ==> w.tearsCount.value == Yellow
  {
    if !s.inTearsMinigame then NoWrites
    else Widgets(
      if timeLeftWidget then Some(TextWrite(TimeLeftLabel, Yellow)) else None,
      if waterTextWidget then Some(TextWrite(WaterCollectedLabel, Yellow)) else None,
      if tearsCountWidget then Some(Yellow) else None)
  }

  /**
   * The first half of a tick: react to the ticks-left varbit and the
   * player's position. The end-of-game flag is only ever raised here, and
   * the plugin counts as in the game from the first positive signal in the area.
   */
  function Advance(s: State, newTicksLeft: int, exterior: bool, interior: bool): (r: State)
    ensures r.minigameEnding == (s.minigameEnding || (s.ticksLeft > 0 && !(newTicksLeft > 0 && exterior)))
    ensures r.inTearsMinigame == (s.inTearsMinigame || (newTicksLeft > 0 && exterior))
    ensures s.displayedTicksLeft >= 0 ==> r.displayedTicksLeft >= 0
    ensures r.deltaQueue == s.deltaQueue && r.tearsCollected == s.tearsCollected
  {
    if newTicksLeft > 0 && exterior then
      var s := s.(inTearsMinigame := true);
      if s.ticksLeft == 0 then
        s.(maxTicks := newTicksLeft, displayedTicksLeft := newTicksLeft, minigameStarting := TicksFromJunasTail)
      else if s.minigameStarting > 0 then
        if interior then s.(minigameStarting := s.minigameStarting - 1) else s
      else if newTicksLeft == s.ticksLeft then
        if s.displayedTicksLeft > 0 then s.(displayedTicksLeft := s.displayedTicksLeft - 1) else s
      else
        s.(displayedTicksLeft := newTicksLeft)
    else if s.ticksLeft > 0 then
      s.(minigameEnding := true, ticksLeft := 0, displayedTicksLeft := 0)
    else
      s
  }

  /** The three widget writes of a tick on which the time-left widget exists. */
  function Slots(s: State, input: TickInput): (w: Widgets)
    ensures w.timeLeft.Some? && w.timeLeft.value.text == TicksLeft(s.displayedTicksLeft, s.maxTicks)
    ensures w.waterText.Some? <==> input.waterTextWidget
    ensures w.tearsCount.Some? <==> input.tearsCountWidget
    ensures w.tearsCount.Some? ==>
      (w.tearsCount.value == Green <==> input.tearsCollectedVarbit > s.tearsCollected)
  {
    var flash := Flashing(input.flashingText, input.tickCount);
    var tearsDiff := input.tearsCollectedVarbit - s.tearsCollected;
    Widgets(
      Some(TextWrite(TicksLeft(s.displayedTicksLeft, s.maxTicks),
                     TimeLeftColor(s.displayedTicksLeft, s.maxTicks, flash))),
      if input.waterTextWidget
      then Some(StatusSlot(s.minigameStarting, s.minigameEnding, s.collectingState, flash))
      else None,
      if input.tearsCountWidget then Some(CountColor(tearsDiff)) else None)
  }

  /** The event a tick pushes: the change of the tears count since the stored count. */
  function DeltaOf(s: State, input: TickInput): DeltaInstant
  {
    DeltaInstant(input.tearsCollectedVarbit - s.tearsCollected, input.now)
  }

  /**
   * The second half of a tick, once the phase is updated: classify the
   * collecting state, write the widgets and push the count change when the
   * time-left widget exists, then reset at the end of a game or store the
   * new readings.
   */
  function Finish(ids: VeinIds, s1: State, input: TickInput): (r: (State, Widgets))
    ensures !s1.inTearsMinigame ==> r == (s1, NoWrites)
    ensures r.1.timeLeft.Some? <==> s1.inTearsMinigame && input.timeLeftWidget
    ensures r.1.timeLeft.None? ==> r.1 == NoWrites
    ensures s1.inTearsMinigame ==>
      r.0 == Initial || (r.0.ticksLeft == input.ticksLeftVarbit && r.0.tearsCollected == input.tearsCollectedVarbit)
  {
    if !s1.inTearsMinigame then (s1, NoWrites)
    else
      var s2 := s1.(collectingState :=
        CurrentCollectingState(ids, input.collectingVarbit, input.location, input.scene));
      var widgets := if input.timeLeftWidget then Slots(s2, input) else NoWrites;
      var s3 := if input.timeLeftWidget
        then s2.(deltaQueue := Added(s2.deltaQueue, DeltaOf(s2, input), DeltaQueueSize))
        else s2;
      if s3.minigameEnding && !InInterior(input.location) then (Initial, widgets)
      else (s3.(ticksLeft := input.ticksLeftVarbit, tearsCollected := input.tearsCollectedVarbit), widgets)
  }

  /** One game tick: the new fields and the widget writes. */
  function Tick(ids: VeinIds, s: State, input: TickInput): (r: (State, Widgets))
    ensures input.gameState != LoggedIn ==> r == (s, NoWrites)
    ensures r.1 != NoWrites ==> input.gameState == LoggedIn && input.timeLeftWidget && r.1.timeLeft.Some?
    ensures r.1.waterText.Some? ==> input.waterTextWidget
    ensures r.1.tearsCount.Some? ==> input.tearsCountWidget
    ensures !r.0.turnedOnDuringMinigame ==> r.0 == s || !s.turnedOnDuringMinigame || !InInterior(input.location)
  {
    if input.gameState != LoggedIn then (s, NoWrites)
    else if s.turnedOnDuringMinigame && InInterior(input.location) then (s, NoWrites)
    else
      var s0 := if s.turnedOnDuringMinigame then Initial else s;
      Finish(ids, Advance(s0, input.ticksLeftVarbit, InExterior(input.location), InInterior(input.location)), input)
  }

  /** The fields after a run of ticks. */
  function Run(ids: VeinIds, s: State, inputs: seq<TickInput>): State
    decreases |inputs|
  {
    if inputs == [] then s else Run(ids, Tick(ids, s, inputs[0]).0, inputs[1..])
  }

  // ---------------------------------------------------------------------------
  // The invariant

  lemma InitialIsConsistent()
    ensures Inv(Initial)
    ensures forall signal: nat, location :: Inv(StartedUp(signal, location))
  {
  }

  lemma TickPreservesInv(ids: VeinIds, s: State, input: TickInput)
    requires Inv(s)
    ensures Inv(Tick(ids, s, input).0)
  {
    if input.gameState == LoggedIn && !(s.turnedOnDuringMinigame && InInterior(input.location)) {
      var s0 := if s.turnedOnDuringMinigame then Initial else s;
      assert Inv(s0);
      var s1 := Advance(s0, input.ticksLeftVarbit, InExterior(input.location), InInterior(input.location));
      assert !s1.inTearsMinigame ==> s1 == s0;
    }
  }

  lemma {:induction false} RunPreservesInv(ids: VeinIds, s: State, inputs: seq<TickInput>)
    requires Inv(s)
    ensures Inv(Run(ids, s, inputs))
    decreases |inputs|
  {
    if inputs != [] {
      TickPreservesInv(ids, s, inputs[0]);
      RunPreservesInv(ids, Tick(ids, s, inputs[0]).0, inputs[1..]);
    }
  }

  // ---------------------------------------------------------------------------
  // Guards

  /** Not logged in, or still inside a game that was under way at start-up: nothing changes, nothing is written. */
  lemma TickGuards(ids: VeinIds, s: State, input: TickInput)
    requires input.gameState != LoggedIn || (s.turnedOnDuringMinigame && InInterior(input.location))
    ensures Tick(ids, s, input) == (s, NoWrites)
  {
  }

  /** Leaving the interior of a game under way at start-up resets and then ticks as a fresh plugin would. */
  lemma RejoinReleaseActsFresh(ids: VeinIds, s: State, input: TickInput)
    requires input.gameState == LoggedIn && s.turnedOnDuringMinigame && !InInterior(input.location)
    ensures Tick(ids, s, input) == Tick(ids, Initial, input)
    ensures !Tick(ids, s, input).0.turnedOnDuringMinigame
  {
  }

  /** A game under way at start-up stays frozen, with nothing written, for as long as the player stays in the interior. */
  lemma {:induction false} RunWhileRejoined(ids: VeinIds, s: State, inputs: seq<TickInput>)
    requires s.turnedOnDuringMinigame
    requires forall i :: 0 <= i < |inputs| ==> InInterior(inputs[i].location)
    ensures Run(ids, s, inputs) == s
    ensures forall i :: 0 <= i < |inputs| ==> Tick(ids, s, inputs[i]) == (s, NoWrites)
    decreases |inputs|
  {
    if inputs != [] {
      assert InInterior(inputs[0].location);
      assert forall i :: 0 <= i < |inputs[1..]| ==> inputs[1..][i] == inputs[i + 1];
      RunWhileRejoined(ids, s, inputs[1..]);
    }
  }

  /** A player on the threshold column is in the area but not the interior, so a rejoined plugin is released there. */
  lemma ThresholdReleases(ids: VeinIds, input: TickInput)
    requires input.gameState == LoggedIn && input.location == Some(WorldPoint(2, 3251, 9517))
    ensures InExterior(input.location) && !InInterior(input.location)
    ensures !Tick(ids, Initial.(turnedOnDuringMinigame := true), input).0.turnedOnDuringMinigame
  {
  }

  /** A live tick is one that passes both guards. */
  predicate Live(s: State, input: TickInput)
  {
    input.gameState == LoggedIn && !s.turnedOnDuringMinigame
  }

  /** A tick resets at its end when the game is over and the player is outside the interior. */
  predicate EndsWithReset(s: State, input: TickInput)
  {
    Advance(s, input.ticksLeftVarbit, InExterior(input.location), InInterior(input.location)).minigameEnding
    && !InInterior(input.location)
  }

  // ---------------------------------------------------------------------------
  // Start, countdown, smoothing and end

  /** A positive signal in the area with no stored ticks starts a game: max and displayed take the signal, the countdown 9. */
  lemma FreshStart(ids: VeinIds, s: State, input: TickInput)
    requires Live(s, input) && !EndsWithReset(s, input)
    requires input.ticksLeftVarbit > 0 && InExterior(input.location) && s.ticksLeft == 0
    ensures var s' := Tick(ids, s, input).0;
      && s'.maxTicks == input.ticksLeftVarbit
      && s'.displayedTicksLeft == input.ticksLeftVarbit
      && s'.minigameStarting == TicksFromJunasTail
      && s'.ticksLeft == input.ticksLeftVarbit
      && s'.inTearsMinigame
  {
  }

  /** During the countdown it drops by one exactly on ticks in the interior; the displayed ticks and the max stay. */
  lemma CountdownStep(ids: VeinIds, s: State, input: TickInput)
    requires Live(s, input) && !EndsWithReset(s, input)
    requires input.ticksLeftVarbit > 0 && InExterior(input.location)
    requires s.ticksLeft != 0 && s.minigameStarting > 0
    ensures var s' := Tick(ids, s, input).0;
      && s'.minigameStarting == s.minigameStarting - (if InInterior(input.location) then 1 else 0)
      && s'.displayedTicksLeft == s.displayedTicksLeft
      && s'.maxTicks == s.maxTicks
  {
  }

  /** After the countdown an unchanged signal counts the display down (never below 0), a changed one resyncs it. */
  lemma Smoothing(ids: VeinIds, s: State, input: TickInput)
    requires Live(s, input) && !EndsWithReset(s, input)
    requires input.ticksLeftVarbit > 0 && InExterior(input.location)
    requires s.ticksLeft != 0 && s.minigameStarting <= 0
    ensures var s' := Tick(ids, s, input).0;
      && s'.displayedTicksLeft ==
           (if input.ticksLeftVarbit != s.ticksLeft then input.ticksLeftVarbit
            else if s.displayedTicksLeft > 0 then s.displayedTicksLeft - 1
            else s.displayedTicksLeft)
      && s'.maxTicks == s.maxTicks
      && s'.minigameStarting == s.minigameStarting
  {
  }

  /**
   * A game with stored ticks ends when the signal drops to 0 or the player
   * leaves the area: outside the interior this resets at once, inside it the
   * game shows as over with no ticks left.
   */
  lemma GameEnds(ids: VeinIds, s: State, input: TickInput)
    requires Inv(s) && Live(s, input)
    requires s.ticksLeft > 0 && (input.ticksLeftVarbit == 0 || !InExterior(input.location))
    ensures var s' := Tick(ids, s, input).0;
      if InInterior(input.location)
      then s'.minigameEnding && s'.ticksLeft == 0 && s'.displayedTicksLeft == 0
      else s' == Initial
  {
    InteriorBounds(input.location);
  }

  /** Only a reset clears the end-of-game flag. */
  lemma EndingClearedOnlyByReset(ids: VeinIds, s: State, input: TickInput)
    requires Inv(s) && s.minigameEnding
    ensures var s' := Tick(ids, s, input).0;
      !s'.minigameEnding ==> s' == Initial
  {
  }

  /** A tick on which the game is over and the player stands outside the interior resets everything. */
  lemma EndOfGameResets(ids: VeinIds, s: State, input: TickInput)
    requires Inv(s) && Live(s, input) && EndsWithReset(s, input)
    ensures Tick(ids, s, input).0 == Initial
  {
  }

  /** The bound displayed <= max holds as long as the signal never rises above the stored max. */
  lemma DisplayedWithinMax(ids: VeinIds, s: State, input: TickInput)
    requires Inv(s) && s.displayedTicksLeft <= s.maxTicks
    requires s.ticksLeft == 0 || input.ticksLeftVarbit <= s.maxTicks
    ensures var s' := Tick(ids, s, input).0;
      0 <= s'.displayedTicksLeft <= s'.maxTicks
  {
  }

  /** The code does not clamp: a signal that rises mid-game lifts the display above the max. */
  lemma DisplayedCanExceedMax(ids: VeinIds)
    ensures var s := Initial.(maxTicks := 10, ticksLeft := 5, displayedTicksLeft := 5, inTearsMinigame := true);
      var input := TickInput(LoggedIn, 20, 0, 0, Some(WorldPoint(2, 3255, 9517)), _ => None,
                             false, false, false, 0, false, 0);
      Inv(s) && Tick(ids, s, input).0.displayedTicksLeft > Tick(ids, s, input).0.maxTicks
  {
  }

  // ---------------------------------------------------------------------------
  // Count changes and stored counters

  /**
   * In a live game each tick on which the time-left widget exists pushes one
   * event with the change of the tears count; either way the stored ticks
   * and count move to the new readings unless the tick resets.
   */
  lemma DeltaEventAndCounters(ids: VeinIds, s: State, input: TickInput)
    requires Live(s, input) && !EndsWithReset(s, input)
    requires Advance(s, input.ticksLeftVarbit, InExterior(input.location), InInterior(input.location)).inTearsMinigame
    ensures var s' := Tick(ids, s, input).0;
      && s'.deltaQueue ==
           (if input.timeLeftWidget
            then Added(s.deltaQueue, DeltaInstant(input.tearsCollectedVarbit - s.tearsCollected, input.now),
                       DeltaQueueSize)
            else s.deltaQueue)
      && s'.ticksLeft == input.ticksLeftVarbit
      && s'.tearsCollected == input.tearsCollectedVarbit
      && s'.collectingState ==
           CurrentCollectingState(ids, input.collectingVarbit, input.location, input.scene)
  {
  }

  /** A logged-in tick in the interior with a positive signal: it engages and does not reset. */
  predicate InteriorTick(input: TickInput)
  {
    input.gameState == LoggedIn && input.ticksLeftVarbit > 0 && InInterior(input.location)
  }

  /** An interior tick on which the time-left widget exists, so the count change is pushed. */
  predicate InteriorWidgetTick(input: TickInput)
  {
    InteriorTick(input) && input.timeLeftWidget
  }

  /** The change events of a run: each reading minus the one before, the first minus `prev`. */
  function Deltas(prev: int, inputs: seq<TickInput>): seq<DeltaInstant>
    decreases |inputs|
  {
    if inputs == [] then []
    else [DeltaInstant(inputs[0].tearsCollectedVarbit - prev, inputs[0].now)]
         + Deltas(inputs[0].tearsCollectedVarbit, inputs[1..])
  }

  lemma {:induction false} RunPushesDeltas(ids: VeinIds, s: State, inputs: seq<TickInput>)
    requires |s.deltaQueue| <= DeltaQueueSize && !s.turnedOnDuringMinigame
    requires forall i :: 0 <= i < |inputs| ==> InteriorWidgetTick(inputs[i])
    ensures Run(ids, s, inputs).deltaQueue
         == AddedAll(s.deltaQueue, Deltas(s.tearsCollected, inputs), DeltaQueueSize)
    ensures inputs != [] ==> Run(ids, s, inputs).tearsCollected == inputs[|inputs| - 1].tearsCollectedVarbit
    ensures !Run(ids, s, inputs).turnedOnDuringMinigame
    decreases |inputs|
  {
    if inputs != [] {
      var input := inputs[0];
      assert InteriorWidgetTick(input);
      InteriorBounds(input.location);
      var s' := Tick(ids, s, input).0;
      assert s'.deltaQueue == Added(s.deltaQueue, DeltaOf(s, input), DeltaQueueSize);
      assert s'.tearsCollected == input.tearsCollectedVarbit;
      assert forall i :: 0 <= i < |inputs[1..]| ==> inputs[1..][i] == inputs[i + 1];
      RunPushesDeltas(ids, s', inputs[1..]);
    }
  }

  /**
   * Over any run of interior ticks with the time-left widget present, the
   * queue holds exactly the last ten
   * count changes, oldest first.
   */
  lemma RunKeepsLastTenDeltas(ids: VeinIds, s: State, inputs: seq<TickInput>)
    requires |s.deltaQueue| <= DeltaQueueSize && !s.turnedOnDuringMinigame
    requires forall i :: 0 <= i < |inputs| ==> InteriorWidgetTick(inputs[i])
    ensures Run(ids, s, inputs).deltaQueue
         == LastN(s.deltaQueue + Deltas(s.tearsCollected, inputs), DeltaQueueSize)
  {
    RunPushesDeltas(ids, s, inputs);
    AddedAllKeepsMostRecent(s.deltaQueue, Deltas(s.tearsCollected, inputs), DeltaQueueSize);
  }

  /** A countdown of k ticks reaches 0 after exactly k ticks in the interior with a positive signal. */
  lemma {:induction false} CountdownRuns(ids: VeinIds, s: State, inputs: seq<TickInput>)
    requires !s.turnedOnDuringMinigame && s.ticksLeft > 0
    requires |inputs| <= s.minigameStarting
    requires forall i :: 0 <= i < |inputs| ==> InteriorTick(inputs[i])
    ensures Run(ids, s, inputs).minigameStarting == s.minigameStarting - |inputs|
    ensures Run(ids, s, inputs).ticksLeft > 0 && !Run(ids, s, inputs).turnedOnDuringMinigame
    decreases |inputs|
  {
    if inputs != [] {
      var input := inputs[0];
      assert InteriorTick(input);
      InteriorBounds(input.location);
      var s' := Tick(ids, s, input).0;
      assert s'.minigameStarting == s.minigameStarting - 1;
      assert forall i :: 0 <= i < |inputs[1..]| ==> inputs[1..][i] == inputs[i + 1];
      CountdownRuns(ids, s', inputs[1..]);
    }
  }
}
