/** The state machine behind the two buttons: every click on "No" grows "Yes"
    and sends "No" to a fresh safe position; once escaped, "No" may also jump
    on hover, is re-placed on resize and held in place on scroll. */
module Evasion {

  import opened Placement
  import opened Growth

  datatype Option<T> = None | Some(value: T)

  /** Chance threshold for a hover to move the button: it moves when the draw exceeds it. */
  const HoverThreshold: real := 0.7

  /** The closure state of the page script together with the values it has
      written to the page. */
  class Controller {
    /** Scale factor of the "Yes" button. */
    var scale: real
    /** Whether "No" has left its place in the layout. */
    var escaped: bool
    /** Last position picked for "No". */
    var stored: Option<Point>
    /** Text of the "Yes" button. */
    var text: string
    /** The left/top coordinates last written to "No"; None while it sits in the layout. */
    var shown: Option<Point>
    /** The growth values last written to "Yes" and the container; None before any click. */
    var look: Option<Look>
    /** Number of clicks on "No" so far. */
    ghost var clicks: nat

    ghost predicate Valid()
      reads this
    {
      && scale == ScaleAfter(clicks)
      && text == LabelFor(scale)
      && escaped == (clicks > 0)
      && stored.Some? == escaped
      && shown == stored
      && look == (if clicks == 0 then None else Some(LookFor(scale)))
    }

    /** The state right after the page has loaded, with the "Yes" button reading "Yes". */
    constructor ()
      ensures Valid()
      ensures clicks == 0 && scale == 1.0 && !escaped && stored == None
      ensures text == Yes && shown == None && look == None
    {
      scale := 1.0;
      escaped := false;
      stored := None;
      text := Yes;
      shown := None;
      look := None;
      clicks := 0;
    }

    /** A click on "No", with the layout measured and the two draws taken when
        its new position is picked. */
    method Click(m: Measure, rx: Draw, ry: Draw)
      requires Valid()
      modifies this
      ensures Valid()
      ensures clicks == old(clicks) + 1
      ensures scale == old(scale) + Step
      ensures text == NextLabel(scale, old(text))
      ensures Stage(scale) >= Stage(old(scale))
      ensures old(escaped) ==> escaped
      ensures escaped
      ensures stored == Some(SafePosition(m, rx, ry))
      ensures shown == stored
      ensures look == Some(LookFor(scale))
    {
      scale := scale + Step;
      look := Some(LookFor(scale));

      if scale > 1.5 && text == Yes { text := AreYouSure; }
      if scale > 2.5 { text := Please; }
      if scale > 3.5 { text := Think; }

      if !escaped {
        escaped := true;
      }

      var p := SafePosition(m, rx, ry);
      stored := Some(p);
      shown := Some(p);
      clicks := clicks + 1;
    }

    /** The pointer entering "No"; `coin` is the draw deciding whether it jumps. */
    method Hover(m: Measure, coin: Draw, rx: Draw, ry: Draw)
      requires Valid()
      modifies this
      ensures Valid()
      ensures clicks == old(clicks) && scale == old(scale) && text == old(text)
      ensures escaped == old(escaped) && look == old(look)
      ensures stored == if old(escaped) && coin > HoverThreshold
                        then Some(SafePosition(m, rx, ry)) else old(stored)
      ensures shown == stored
    {
      if escaped && coin > HoverThreshold {
        var p := SafePosition(m, rx, ry);
        stored := Some(p);
        shown := Some(p);
      }
    }

    /** A change of the window's size: an escaped button is placed afresh. */
    method Resize(m: Measure, rx: Draw, ry: Draw)
      requires Valid()
      modifies this
      ensures Valid()
      ensures clicks == old(clicks) && scale == old(scale) && text == old(text)
      ensures escaped == old(escaped) && look == old(look)
      ensures stored == if old(escaped) then Some(SafePosition(m, rx, ry)) else old(stored)
      ensures shown == stored
    {
      if escaped && stored.Some? {
        var p := SafePosition(m, rx, ry);
        stored := Some(p);
        shown := Some(p);
      }
    }

    /** A scroll of the page: the stored position is written again, which
        leaves every part of the state as it was. */
    method Scroll()
      requires Valid()
      modifies this
      ensures Valid()
      ensures unchanged(this)
    {
      if escaped && stored.Some? {
        shown := Some(Point(stored.value.x, stored.value.y));
      }
    }
  }

  /** Seven clicks take the scale to 2.75, the label to "PLEASE" and the font
      size to its cap of 40, whatever layout is measured and whatever draws are
      taken at each click. */
  method SevenClicks(ms: seq<Measure>, rxs: seq<Draw>, rys: seq<Draw>)
    returns (scale: real, text: string, fontSize: real, escaped: bool)
    requires |ms| == |rxs| == |rys| == 7
    ensures scale == 2.75 && text == Please && fontSize == 40.0 && escaped
  {
    var c := new Controller();
    c.Click(ms[0], rxs[0], rys[0]);
    c.Click(ms[1], rxs[1], rys[1]);
    c.Click(ms[2], rxs[2], rys[2]);
    c.Click(ms[3], rxs[3], rys[3]);
    c.Click(ms[4], rxs[4], rys[4]);
    c.Click(ms[5], rxs[5], rys[5]);
    c.Click(ms[6], rxs[6], rys[6]);
    scale, text, fontSize, escaped := c.scale, c.text, c.look.value.fontSize, c.escaped;
  }

  /** In a 1024 x 768 viewport with an 80 x 40 "No" button, the first click
      escapes it to a position within [10, 934] x [10, 718]. */
  method FirstClick(rx: Draw, ry: Draw) returns (scale: real, escaped: bool, p: Point)
    ensures scale == 1.25 && escaped
    ensures 10.0 <= p.x <= 934.0 && 10.0 <= p.y <= 718.0
  {
    var c := new Controller();
    c.Click(Measure(1024.0, 768.0, 80.0, 40.0), rx, ry);
    scale, escaped, p := c.scale, c.escaped, c.shown.value;
  }
}
