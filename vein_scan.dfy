/**
 * Which tear vein, if any, the player is collecting from: the collecting
 * varbit decides whether the player collects at all, and the decorative
 * object on the first of three neighbouring tiles whose id is a known vein
 * id decides which kind of vein it is.
 */
module VeinScan {
  import opened Options
  import opened Geofence

  datatype TearCollectingState = NotCollecting | EmptyVein | BlueVein | GreenVein

  /** The decorative-object ids of absent, blue and green tears. */
  datatype VeinIds = VeinIds(noTears: set<int>, blueTears: set<int>, greenTears: set<int>)

  /** An object id checked against the empty, blue and green id sets, in that order. */
  function ClassifyId(ids: VeinIds, id: int): (r: Option<TearCollectingState>)
    ensures r.Some? <==> id in ids.noTears || id in ids.blueTears || id in ids.greenTears
    ensures r != Some(NotCollecting)
    ensures id in ids.noTears ==> r == Some(EmptyVein)
    ensures id !in ids.noTears && id in ids.blueTears ==> r == Some(BlueVein)
    ensures id !in ids.noTears && id !in ids.blueTears && id in ids.greenTears ==> r == Some(GreenVein)
  {
    if id in ids.noTears then Some(EmptyVein)
    else if id in ids.blueTears then Some(BlueVein)
    else if id in ids.greenTears then Some(GreenVein)
    else None
  }

  /** A scanned tile holds an object whose id is one of the vein ids. */
  predicate Recognised(ids: VeinIds, obj: Option<int>)
  {
    obj.Some? && ClassifyId(ids, obj.value).Some?
  }

  /** The tiles east, north and south of the player, in scan order (no vein lies to the west). */
  function ScanOffsets(wp: WorldPoint): (r: seq<WorldPoint>)
    ensures |r| == 3
    ensures forall o :: o in r ==>
      && o.plane == wp.plane
      && ((o.x == wp.x + 1 && o.y == wp.y) || (o.x == wp.x && (o.y == wp.y + 1 || o.y == wp.y - 1)))
    ensures r[0].x == wp.x + 1 && r[1].y == wp.y + 1 && r[2].y == wp.y - 1
  {
    [wp.(x := wp.x + 1), wp.(y := wp.y + 1), wp.(y := wp.y - 1)]
  }

  /**
   * The decorative-object id found on each scanned tile; `scene` yields None
   * where a tile has no decorative object or lies outside the loaded scene.
   */
  function Observed(scene: WorldPoint -> Option<int>, wp: WorldPoint): seq<Option<int>>
  {
    var offsets := ScanOffsets(wp);
    [scene(offsets[0]), scene(offsets[1]), scene(offsets[2])]
  }

  /** The first recognised object decides; tiles without one are skipped. */
  function FirstVein(ids: VeinIds, objs: seq<Option<int>>): (r: TearCollectingState)
    ensures r != NotCollecting
    decreases |objs|
  {
    if objs == [] then EmptyVein
    else if Recognised(ids, objs[0]) then ClassifyId(ids, objs[0].value).value
    else FirstVein(ids, objs[1..])
  }

  lemma {:induction false} FirstVeinPicksFirstMatch(ids: VeinIds, objs: seq<Option<int>>, k: nat)
    requires k < |objs| && Recognised(ids, objs[k])
    requires forall j :: 0 <= j < k ==> !Recognised(ids, objs[j])
    ensures FirstVein(ids, objs) == ClassifyId(ids, objs[k].value).value
    decreases k
  {
    if k > 0 {
      assert !Recognised(ids, objs[0]);
      assert forall j :: 0 <= j < k - 1 ==> objs[1..][j] == objs[j + 1];
      FirstVeinPicksFirstMatch(ids, objs[1..], k - 1);
    }
  }

  lemma {:induction false} FirstVeinWithoutMatch(ids: VeinIds, objs: seq<Option<int>>)
    requires forall j :: 0 <= j < |objs| ==> !Recognised(ids, objs[j])
    ensures FirstVein(ids, objs) == EmptyVein
    decreases |objs|
  {
    if objs != [] {
      assert !Recognised(ids, objs[0]);
      assert forall j :: 0 <= j < |objs| - 1 ==> objs[1..][j] == objs[j + 1];
      FirstVeinWithoutMatch(ids, objs[1..]);
    }
  }

  /**
   * The player's collecting state. A collecting varbit of 0 means not
   * collecting; a missing player, or no recognised object next to it, means
   * an empty vein.
   */
  function CurrentCollectingState(ids: VeinIds, collectingVarbit: nat, location: Option<WorldPoint>,
                                  scene: WorldPoint -> Option<int>): (r: TearCollectingState)
    ensures r == NotCollecting <==> collectingVarbit == 0
  {
    if collectingVarbit == 0 then NotCollecting
    else match location
      case None => EmptyVein
      case Some(wp) => FirstVein(ids, Observed(scene, wp))
  }

  lemma CollectingFromFirstRecognised(ids: VeinIds, collectingVarbit: nat, wp: WorldPoint,
                                      scene: WorldPoint -> Option<int>, k: nat)
    requires collectingVarbit != 0
    requires k < 3 && Recognised(ids, Observed(scene, wp)[k])
    requires forall j :: 0 <= j < k ==> !Recognised(ids, Observed(scene, wp)[j])
    ensures CurrentCollectingState(ids, collectingVarbit, Some(wp), scene)
            == ClassifyId(ids, Observed(scene, wp)[k].value).value
  {
    FirstVeinPicksFirstMatch(ids, Observed(scene, wp), k);
  }

  lemma CollectingWithoutVein(ids: VeinIds, collectingVarbit: nat, location: Option<WorldPoint>,
                              scene: WorldPoint -> Option<int>)
    requires collectingVarbit != 0
    requires location.Some? ==>
      forall j :: 0 <= j < 3 ==> !Recognised(ids, Observed(scene, location.value)[j])
    ensures CurrentCollectingState(ids, collectingVarbit, location, scene) == EmptyVein
  {
    if location.Some? {
      FirstVeinWithoutMatch(ids, Observed(scene, location.value));
    }
  }

  /** Objects on tiles other than the three scanned ones never matter. */
  lemma OnlyScannedTilesMatter(ids: VeinIds, collectingVarbit: nat, wp: WorldPoint,
                               scene1: WorldPoint -> Option<int>, scene2: WorldPoint -> Option<int>)
    requires forall o :: o in ScanOffsets(wp) ==> scene1(o) == scene2(o)
    ensures CurrentCollectingState(ids, collectingVarbit, Some(wp), scene1)
            == CurrentCollectingState(ids, collectingVarbit, Some(wp), scene2)
  {
    var offsets := ScanOffsets(wp);
    assert offsets[0] in offsets && offsets[1] in offsets && offsets[2] in offsets;
    assert Observed(scene1, wp) == Observed(scene2, wp);
  }
}
