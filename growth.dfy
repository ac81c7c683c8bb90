/** How the "Yes" button grows as the "No" button is clicked: the scale factor,
    the three saturating layout values derived from it, and the one-way label
    progression. */
module Growth {

  import opened Numbers

  /** Amount by which each click on "No" raises the scale. */
  const Step: real := 0.25

  /** The scale after `n` clicks on "No", starting from 1. */
  function ScaleAfter(n: nat): (s: real)
    ensures s >= 1.0
  {
    1.0 + n as real * Step
  }

  /** Font size of the "Yes" button, in pixels: grows 8 per unit of scale, capped at 40. */
  function FontSize(s: real): (f: real)
    ensures f <= 40.0
    ensures f <= 22.0 + 8.0 * s
    ensures f == 40.0 <==> s >= 2.25
  {
    Min(40.0, 22.0 + s * 8.0)
  }

  /** Max-width of the "Yes" button, in pixels: grows 30 per unit of scale, capped at 300. */
  function MaxWidth(s: real): (w: real)
    ensures w <= 300.0
    ensures w <= 200.0 + 30.0 * s
    ensures w == 300.0 <==> s >= 10.0 / 3.0
  {
    Min(300.0, 200.0 + s * 30.0)
  }

  /** Minimum height of the button container, in pixels: never below 220. */
  function MinHeight(s: real): (h: real)
    ensures h >= 220.0
    ensures h >= 140.0 + 100.0 * s
    ensures h == 220.0 <==> s <= 0.8
  {
    Max(220.0, 140.0 + s * 100.0)
  }

  /** The numbers a click writes: the "Yes" button's transform scale, font size
      and max-width, and the container's min-height. */
  datatype Look = Look(transform: real, fontSize: real, maxWidth: real, minHeight: real)

  function LookFor(s: real): (l: Look)
    ensures l.transform == s
    ensures l.fontSize <= 40.0 && l.maxWidth <= 300.0 && l.minHeight >= 220.0
  {
    Look(s, FontSize(s), MaxWidth(s), MinHeight(s))
  }

  /** All three layout values are non-decreasing in the scale. */
  lemma LookMonotone(s1: real, s2: real)
    requires s1 <= s2
    ensures FontSize(s1) <= FontSize(s2)
    ensures MaxWidth(s1) <= MaxWidth(s2)
    ensures MinHeight(s1) <= MinHeight(s2)
  {
  }

  /** Once at least one click has happened the container's 220 floor no longer
      binds: the min-height is 140 + 100 * scale, at least 265. */
  lemma MinHeightFloorInactive(n: nat)
    requires n >= 1
    ensures MinHeight(ScaleAfter(n)) == 140.0 + 100.0 * ScaleAfter(n) >= 265.0
  {
  }

  /** In clicks: the font saturates from the 5th click on, the max-width from the 10th. */
  lemma SaturationInClicks(n: nat)
    ensures FontSize(ScaleAfter(n)) == 40.0 <==> n >= 5
    ensures MaxWidth(ScaleAfter(n)) == 300.0 <==> n >= 10
  {
  }

  // ---------------------------------------------------------------------------
  // Labels of the "Yes" button

  const Yes: string := "Yes"
  const AreYouSure: string := "Are you sure??"
  const Please: string := "PLEASE"
  const Think: string := "THINK ABOUT IT"

  /** The labels in the order a growing scale reaches them. */
  const Progression: seq<string> := [Yes, AreYouSure, Please, Think]

  /** The label update a click performs once the scale has been raised to `s`:
      "Are you sure??" replaces only the initial "Yes", the later two replace anything. */
  function NextLabel(s: real, text: string): (l: string)
    ensures s > 3.5 ==> l == Think
    ensures 2.5 < s <= 3.5 ==> l == Please
    ensures 1.5 < s <= 2.5 ==> l == (if text == Yes then AreYouSure else text)
    ensures s <= 1.5 ==> l == text
  {
    var l1 := if s > 1.5 && text == Yes then AreYouSure else text;
    var l2 := if s > 2.5 then Please else l1;
    if s > 3.5 then Think else l2
  }

  /** Which stage of the progression a scale belongs to. */
  function Stage(s: real): (k: nat)
    ensures k < |Progression|
  {
    if s <= 1.5 then 0
    else if s <= 2.5 then 1
    else if s <= 3.5 then 2
    else 3
  }

  /** The label the "Yes" button shows at scale `s`, given that it started as "Yes". */
  function LabelFor(s: real): string
  {
    Progression[Stage(s)]
  }

  /** One click keeps the label equal to `LabelFor` of the scale: applying the
      click's update to the label of scale `s` gives the label of `s + Step`. */
  lemma LabelStep(s: real)
    ensures NextLabel(s + Step, LabelFor(s)) == LabelFor(s + Step)
  {
  }

  /** The progression's labels are pairwise different. */
  lemma ProgressionDistinct(i: nat, j: nat)
    requires i < j < |Progression|
    ensures Progression[i] != Progression[j]
  {
  }

  /** The stage never goes back as the scale grows. */
  lemma StageMonotone(s1: real, s2: real)
    requires s1 <= s2
    ensures Stage(s1) <= Stage(s2)
  {
  }

  /** The label never reverts: at any larger scale the label is none of the ones
      that came before the label of the smaller scale. */
  lemma LabelNeverReverts(s1: real, s2: real, i: nat)
    requires s1 <= s2
    requires i < Stage(s1)
    ensures LabelFor(s2) != Progression[i]
  {
  }

  /** The label as a function of the number of clicks. */
  lemma LabelInClicks(n: nat)
    ensures n <= 2 ==> LabelFor(ScaleAfter(n)) == Yes
    ensures 3 <= n <= 6 ==> LabelFor(ScaleAfter(n)) == AreYouSure
    ensures 7 <= n <= 10 ==> LabelFor(ScaleAfter(n)) == Please
    ensures n >= 11 ==> LabelFor(ScaleAfter(n)) == Think
  {
  }
}
