/**
 * The dial itself (src/widgets/TimeFrameSlider/ui/CircleTimeline/CircleTimeline.tsx): one dot per
 * period, placed by the point calculator, the active one marked, a click reporting the dot's
 * index, and an effect that turns the circle while turning every dot back so its label stays level.
 */
module Timeline {
  import opened Results
  import opened TimePeriod
  import opened Coordinates
  import opened Text

  /** What is rendered for one period's dot. */
  datatype PointView = PointView(
    key: string,               // the period's id
    position: DotCoordinates,  // offset of the dot from the dial's centre
    active: bool,              // whether the dot has the `active` class
    ariaCurrent: string,       // "true" on the active dot, "false" elsewhere
    ariaLabel: string,         // "Period <number>: <label>"
    labelNumber: int,          // the number written in the dot
    clickIndex: int)           // what a click on the dot passes to onPeriodChange

  /**
   * `pointPositions` for the first k of count periods: `periods.map` calls the calculator on
   * index 0, 1, ... in order and the first error it throws ends the map.
   */
  function PointPositions(t: Trig, count: nat, k: nat): (r: Result<seq<DotCoordinates>, CoordinateError>)
    requires k <= count
    ensures r.Success? <==> k == 0 || ValidCount(count)
    ensures r.Failure? ==> r.error == CountOutOfRange
    ensures r.Success? ==> |r.value| == k
    ensures r.Success? ==> forall i :: 0 <= i < k ==> CalculateCoordinates(t, count, i) == Success(r.value[i])
    decreases k
  {
    if k == 0 then
      Success([])
    else
      match PointPositions(t, count, k - 1)
      case Failure(e) => Failure(e)
      case Success(ps) =>
        match CalculateCoordinates(t, count, k - 1)
        case Failure(e) => Failure(e)
        case Success(p) => Success(ps + [p])
  }

  /** The accessible name of dot `index`. */
  function AriaLabel(index: nat, period: Period): (r: string)
    // "Period ", then the dot's number, then ": " and the period's label
    ensures |r| > 9 + |period.categoryLabel|
    ensures r[..7] == "Period "
    ensures r[|r| - |period.categoryLabel| - 2..] == ": " + period.categoryLabel
    ensures IsDigits(r[7..|r| - |period.categoryLabel| - 2])
    ensures DecimalValue(r[7..|r| - |period.categoryLabel| - 2]) == index + 1
  {
    var number := DecimalString(index + 1);
    DecimalRoundTrip(index + 1);
    var r := "Period " + number + ": " + period.categoryLabel;
    assert r[7..|r| - |period.categoryLabel| - 2] == number;
    assert r[|r| - |period.categoryLabel| - 2..] == ": " + period.categoryLabel;
    r
  }

  /** The rendered dots for `periods` with `activeIndex` active, or the error rendering throws. */
  function Layout(t: Trig, periods: seq<Period>, activeIndex: int): (r: Result<seq<PointView>, CoordinateError>)
    // rendering throws exactly when a non-empty period list has a count outside 2..6
    ensures r.Success? <==> |periods| == 0 || ValidCount(|periods|)
    ensures r.Failure? ==> r.error == CountOutOfRange
    // one dot per period, each where the calculator puts that index
    ensures r.Success? ==> |r.value| == |periods|
    ensures r.Success? ==> forall i :: 0 <= i < |periods| ==>
      CalculateCoordinates(t, |periods|, i) == Success(r.value[i].position)
  {
    match PointPositions(t, |periods|, |periods|)
    case Failure(e) => Failure(e)
    case Success(ps) =>
      Success(seq(|periods|, i requires 0 <= i < |periods| =>
        PointView(
          periods[i].id,
          ps[i],
          i == activeIndex,
          if i == activeIndex then "true" else "false",
          AriaLabel(i, periods[i]),
          i + 1,
          i)))
  }

  /** The indices of the dots marked active. */
  function ActiveDots(views: seq<PointView>): set<int> {
    set i | 0 <= i < |views| && views[i].active
  }

  /**
   * Exactly the dot at activeIndex is active, with aria-current "true", when activeIndex names a
   * period; otherwise no dot is. Every inactive dot has aria-current "false".
   */
  lemma ExactlyOneActive(t: Trig, periods: seq<Period>, activeIndex: int)
    requires Layout(t, periods, activeIndex).Success?
    ensures var views := Layout(t, periods, activeIndex).value;
      && (0 <= activeIndex < |periods| ==> ActiveDots(views) == {activeIndex} && |ActiveDots(views)| == 1)
      && (!(0 <= activeIndex < |periods|) ==> ActiveDots(views) == {})
      && forall i :: 0 <= i < |views| ==>
           views[i].ariaCurrent == (if views[i].active then "true" else "false")
  {
  }

  /**
   * Dot i shows the number i + 1, is keyed and labelled by period i, and a click on it reports
   * exactly i, an index the period list has.
   */
  lemma DotsMatchPeriods(t: Trig, periods: seq<Period>, activeIndex: int, i: int)
    requires Layout(t, periods, activeIndex).Success?
    requires 0 <= i < |periods|
    ensures var v := Layout(t, periods, activeIndex).value[i];
      && v.labelNumber == i + 1
      && v.key == periods[i].id
      && v.ariaLabel == AriaLabel(i, periods[i])
      && v.clickIndex == i
      && 0 <= v.clickIndex < |periods|
  {
  }

  /** A DOM element as the effect drives it: the rotation last handed to `gsap.to` for it. */
  class Element {
    var rotation: int

    constructor ()
      ensures rotation == 0
    {
      rotation := 0;
    }
  }

  /**
   * `pointsRef.current[index] = el` on a JavaScript array: an index past the end grows the array,
   * leaving holes that, like null entries, hold no element.
   */
  function StoreAt(s: seq<Element?>, index: nat, el: Element?): (r: seq<Element?>)
    ensures |r| == if index < |s| then |s| else index + 1
    ensures r[index] == el
    ensures forall i :: 0 <= i < |s| && i != index ==> r[i] == s[i]
    ensures forall i :: |s| <= i < |r| && i != index ==> r[i] == null
  {
    if index < |s| then s[index := el] else s + seq(index - |s|, _ => null) + [el]
  }

  /** The refs of one mounted dial: `circleRef.current` and `pointsRef.current`. */
  class TimelineRefs {
    var circle: Element?
    var points: seq<Element?>

    constructor ()
      ensures circle == null && points == []
    {
      circle := null;
      points := [];
    }

    /** The elements the rotation effect hands rotations to. */
    ghost function Targets(): set<object>
      reads this
    {
      (if circle == null then {} else {circle}) + set e: Element | e in points
    }

    /** The circle's ref callback. */
    method AttachCircle(el: Element?)
      modifies this`circle
      ensures circle == el
    {
      circle := el;
    }

    /** A dot's ref callback, called with its element on mount and with null on unmount. */
    method AttachPoint(index: nat, el: Element?)
      modifies this`points
      ensures points == StoreAt(old(points), index, el)
    {
      points := StoreAt(points, index, el);
    }

    /**
     * The rotation effect: the circle is turned to `rotation`, then every stored dot to
     * `-rotation`, skipping empty slots, so each dot's label ends up level.
     */
    method ApplyRotation(rotation: int)
      modifies Targets()
      ensures circle != null && circle !in points ==> circle.rotation == rotation
      ensures forall i :: 0 <= i < |points| && points[i] != null ==> points[i].rotation == -rotation
      ensures circle != null && circle !in points ==>
        forall i :: 0 <= i < |points| && points[i] != null ==> circle.rotation + points[i].rotation == 0
    {
      if circle != null {
        circle.rotation := rotation;
      }
      for i := 0 to |points|
        invariant forall j :: 0 <= j < i && points[j] != null ==> points[j].rotation == -rotation
        invariant circle != null && circle !in points ==> circle.rotation == rotation
      {
        var point := points[i];
        if point != null {
          point.rotation := -rotation;
        }
      }
    }
  }
}
