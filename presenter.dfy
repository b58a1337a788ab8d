/**
 * What the plugin writes into the three slots of the minigame interface:
 * the time-left text and its colour band, the status text with its
 * (possibly flashing) colour, and the colour of the tears count.
 * Texts are tags; the colour markup and number formatting are not modelled.
 */
module Presenter {
  import opened VeinScan

  /** The plugin's colours (0xFFFF00, 0xFF9900, 0xFF6600, 0xFF0000, 0x00BBFF, 0x0066FF, 0x00FF00, 0x00CC00). */
  datatype Color = Yellow | LightOrange | Orange | Red | LightBlue | Blue | Green | DarkGreen

  datatype Text =
    | TicksLeft(displayed: int, max: int)     // "Ticks Left: <displayed> / <max>"
    | GetReady                                // "Get Ready!"
    | StartingInTick(ticks: int)              // "Starting in: <ticks> tick"
    | StartingInTicks(ticks: int)             // "Starting in: <ticks> ticks"
    | TimeUp                                  // "Time Up!"
    | CollectingBlueTears                     // "Collecting Blue Tears"
    | CollectingGreenTears                    // "Collecting Green Tears"
    | EmptyTearVein                           // "Empty Tear Vein!"
    | NotCollectingTears                      // "Not Collecting"
    | TimeLeftLabel                           // the interface's own "Time Left"
    | WaterCollectedLabel                     // the interface's own "Water Collected"

  datatype TextWrite = TextWrite(text: Text, color: Color)

  /** From this many countdown ticks up, the status reads "Get Ready!". */
  const TicksForStartTimer := 6

  /** Flashing colours show their alternate on odd ticks when the option is on. */
  function Flashing(flashingText: bool, tickCount: int): (r: bool)
    ensures r ==> flashingText
    ensures flashingText && tickCount % 2 == 1 ==> r
  {
    flashingText && tickCount % 2 != 0
  }

  lemma FlashingAlternates(flashingText: bool, tickCount: int)
    ensures flashingText ==> Flashing(flashingText, tickCount) != Flashing(flashingText, tickCount + 1)
    ensures !flashingText ==> !Flashing(flashingText, tickCount)
  {
  }

  /**
   * The time-left colour band. The ratio displayed/max is compared with
   * 0.15, 0.3 and 0.6 by cross-multiplication; no ratio (max 0) or nothing
   * left (displayed 0) is red.
   */
  function TimeLeftColor(displayed: int, max: int, flash: bool): (c: Color)
    ensures displayed <= 0 || max <= 0 ==> c == Red
  {
    if displayed > 0 && max > 0 then
      if 100 * displayed < 15 * max then (if flash then Orange else Red)
      else if 10 * displayed < 3 * max then LightOrange
      else if 10 * displayed < 6 * max then Yellow
      else Green
    else Red
  }

  /** The band of an exact ratio, thresholds as written in the plugin. */
  function RatioBand(part: real, flash: bool): Color
  {
    if part < 0.15 then (if flash then Orange else Red)
    else if part < 0.3 then LightOrange
    else if part < 0.6 then Yellow
    else Green
  }

  lemma RatioBelow(d: int, m: int, num: int, den: int)
    requires m > 0 && den > 0
    ensures (d as real / m as real < num as real / den as real) <==> d * den < num * m
  {
    var part := d as real / m as real;
    var bound := num as real / den as real;
    assert part * m as real == d as real;
    assert bound * den as real == num as real;
    calc <==> {
      part < bound;
      part * m as real < bound * m as real;
      part * m as real * den as real < bound * den as real * m as real;
      (d * den) as real < (num * m) as real;
    }
  }

  /** The integer bands agree with the exact ratio bands. */
  lemma TimeLeftColorFollowsRatio(displayed: int, max: int, flash: bool)
    requires displayed > 0 && max > 0
    ensures TimeLeftColor(displayed, max, flash) == RatioBand(displayed as real / max as real, flash)
  {
    RatioBelow(displayed, max, 15, 100);
    RatioBelow(displayed, max, 3, 10);
    RatioBelow(displayed, max, 6, 10);
  }

  /** How urgent a time-left colour looks: green, yellow, light orange, red/orange. */
  function Urgency(c: Color): nat
  {
    match c
    case Green => 0
    case Yellow => 1
    case LightOrange => 2
    case _ => 3
  }

  /** More time left never shows a more urgent colour. */
  lemma TimeLeftColorMonotone(d1: int, d2: int, max: int, flash: bool)
    requires d1 <= d2
    ensures Urgency(TimeLeftColor(d2, max, flash)) <= Urgency(TimeLeftColor(d1, max, flash))
  {
  }

  /** The status text: starting countdown first, then the end of the game, then the collecting state. */
  function StatusSlot(minigameStarting: int, minigameEnding: bool, state: TearCollectingState,
                      flash: bool): (w: TextWrite)
    ensures minigameStarting > 0 ==>
      w.color == (if flash then DarkGreen else Green) &&
      w.text == (if minigameStarting >= TicksForStartTimer then GetReady
                 else if minigameStarting == 1 then StartingInTick(1)
                 else StartingInTicks(minigameStarting))
    ensures minigameStarting <= 0 && minigameEnding ==> w.text == TimeUp && w.color == (if flash then Orange else Red)
    ensures minigameStarting <= 0 && !minigameEnding ==>
      && (w.text == NotCollectingTears <==> state == NotCollecting)
      && (w.text == CollectingBlueTears <==> state == BlueVein)
      && (w.text == CollectingGreenTears <==> state == GreenVein)
      && (w.text == EmptyTearVein <==> state == EmptyVein)
      && w.color == match state
           case BlueVein => (if flash then Blue else LightBlue)
           case GreenVein => (if flash then DarkGreen else Green)
           case EmptyVein => (if flash then LightOrange else Orange)
           case NotCollecting => Yellow
  {
    if minigameStarting > 0 then
      var text :=
        if minigameStarting >= TicksForStartTimer then GetReady
        else if minigameStarting == 1 then StartingInTick(minigameStarting)
        else StartingInTicks(minigameStarting);
      TextWrite(text, if flash then DarkGreen else Green)
    else if minigameEnding then
      TextWrite(TimeUp, if flash then Orange else Red)
    else
      match state
      case BlueVein => TextWrite(CollectingBlueTears, if flash then Blue else LightBlue)
      case GreenVein => TextWrite(CollectingGreenTears, if flash then DarkGreen else Green)
      case EmptyVein => TextWrite(EmptyTearVein, if flash then LightOrange else Orange)
      case NotCollecting => TextWrite(NotCollectingTears, Yellow)
  }

  /**
   * With flashing text on, every status except "Not Collecting" changes
   * colour from one tick to the next; the text itself does not change.
   */
  lemma StatusColorFlashes(minigameStarting: int, minigameEnding: bool, state: TearCollectingState,
                           tickCount: int)
    requires minigameStarting > 0 || minigameEnding || state != NotCollecting
    ensures StatusSlot(minigameStarting, minigameEnding, state, Flashing(true, tickCount)).color
         != StatusSlot(minigameStarting, minigameEnding, state, Flashing(true, tickCount + 1)).color
    ensures StatusSlot(minigameStarting, minigameEnding, state, Flashing(true, tickCount)).text
         == StatusSlot(minigameStarting, minigameEnding, state, Flashing(true, tickCount + 1)).text
  {
    FlashingAlternates(true, tickCount);
  }

  /** The tears count is green when it rose this tick, red when it fell, yellow otherwise. */
  function CountColor(delta: int): (c: Color)
    ensures c == Green <==> delta > 0
    ensures c == Red <==> delta < 0
    ensures c == Yellow <==> delta == 0
  {
    if delta > 0 then Green
    else if delta < 0 then Red
    else Yellow
  }
}
