/**
 * The column of four buttons that main.py and SPL_meter.py draw down the
 * left quarter of the screen, and the hit test their `events` loops run
 * against a mouse press. Button `i` is the rectangle
 * `(2, i*sh/4 + 2, sw/4 - 4, sh/4 - 4)`, built from true divisions.
 */
module SideButtons {
  import opened Base
  import opened Events
  import opened Grid

  /** `BUTTON_PADDING`, the gap around each button. */
  const ButtonPadding: int := 2

  /** The number of buttons in the column. */
  const ButtonCount: nat := 4

  /** A pygame rectangle with integer corner and size. */
  datatype Rect = Rect(x: int, y: int, w: int, h: int)

  /**
   * The rectangle of button `i`; pygame keeps the whole part of each
   * coordinate (for the negative sizes of a tiny screen, whole part or
   * floor leave the rectangle empty alike).
   */
  function ButtonRect(i: nat, screen: Size): Rect
  {
    var sw, sh := screen.w as real, screen.h as real;
    Rect(ButtonPadding,
         (i as real * sh / 4.0 + ButtonPadding as real).Floor,
         (sw / 4.0 - (ButtonPadding * 2) as real).Floor,
         (sh / 4.0 - (ButtonPadding * 2) as real).Floor)
  }

  /** `Rect.collidepoint`: half-open on the far sides. */
  predicate Collides(r: Rect, p: Point)
  {
    r.x <= p.x < r.x + r.w && r.y <= p.y < r.y + r.h
  }

  predicate OnButton(i: nat, screen: Size, p: Point)
  {
    Collides(ButtonRect(i, screen), p)
  }

  /** The first button, from index `from` on, whose rectangle holds `p`. */
  function HitFrom(from: nat, screen: Size, p: Point): (k: Option<nat>)
    requires from <= ButtonCount
    ensures k.Some? ==> from <= k.value < ButtonCount && OnButton(k.value, screen, p)
    ensures k.None? ==> forall i :: from <= i < ButtonCount ==> !OnButton(i, screen, p)
    decreases ButtonCount - from
  {
    if from == ButtonCount then None
    else if OnButton(from, screen, p) then Some(from)
    else HitFrom(from + 1, screen, p)
  }

  /** The button a press at `p` lands on, if any. */
  function ButtonHit(screen: Size, p: Point): Option<nat>
  {
    HitFrom(0, screen, p)
  }

  /**
   * The button an event presses: the one a mouse press lands on, or
   * `ButtonCount` when the event is not a press or misses every button.
   */
  function PressTarget(screen: Size, ev: Event): (k: nat)
    ensures k <= ButtonCount
    ensures k < ButtonCount ==> ev.kind == MouseButtonDown && ev.pos.Some? && OnButton(k, screen, ev.pos.value)
  {
    if ev.kind == MouseButtonDown && ev.pos.Some? then
      match ButtonHit(screen, ev.pos.value)
      case Some(b) => b
      case None => ButtonCount
    else ButtonCount
  }

  /** The button each event of `polled` presses, in order (`ButtonCount` for none). */
  function Targets(screen: Size, polled: seq<Event>): (ks: seq<nat>)
    ensures |ks| == |polled|
  {
    if polled == [] then []
    else Targets(screen, polled[..|polled| - 1]) + [PressTarget(screen, polled[|polled| - 1])]
  }

  /** Entry `j` of the targets is the button event `j` presses. */
  lemma {:induction false} TargetOfEach(screen: Size, polled: seq<Event>, j: nat)
    requires j < |polled|
    ensures Targets(screen, polled)[j] == PressTarget(screen, polled[j])
  {
    var prefix := polled[..|polled| - 1];
    if j < |prefix| {
      TargetOfEach(screen, prefix, j);
    }
  }

  /** The targets of one more polled event are the targets so far and its own. */
  lemma TargetsExtend(screen: Size, polled: seq<Event>, i: nat)
    requires i < |polled|
    ensures Targets(screen, polled[..i + 1]) == Targets(screen, polled[..i]) + [PressTarget(screen, polled[i])]
  {
    assert polled[..i + 1][..i] == polled[..i];
  }

  /** How many of the presses `ks` land on button `i`. */
  function Presses(ks: seq<nat>, i: nat): (n: nat)
    ensures n <= |ks|
  {
    if ks == [] then 0
    else Presses(ks[..|ks| - 1], i) + (if ks[|ks| - 1] == i then 1 else 0)
  }

  predicate Odd(n: nat) { n % 2 == 1 }

  /** One more press on a button flips the parity of its count. */
  lemma OddStep(ks: seq<nat>, k: nat, i: nat)
    ensures Odd(Presses(ks + [k], i)) == (Odd(Presses(ks, i)) != (k == i))
  {
    assert (ks + [k])[..|ks|] == ks;
  }

  /**
   * Button `i` ends above where button `i + 1` starts: its bottom edge is
   * at most `(i+1)*sh/4 - 2`, the next top edge is above `(i+1)*sh/4 + 1`.
   */
  lemma BottomAboveNextTop(i: nat, j: nat, screen: Size)
    requires screen.h >= 0 && i < j
    ensures ButtonRect(i, screen).y + ButtonRect(i, screen).h < ButtonRect(j, screen).y
  {
    var sh := screen.h as real;
    var ri, rj := ButtonRect(i, screen), ButtonRect(j, screen);
    assert ri.y as real <= i as real * sh / 4.0 + 2.0;
    assert ri.h as real <= sh / 4.0 - 4.0;
    assert rj.y as real > j as real * sh / 4.0 + 1.0;
    assert j as real * sh >= (i + 1) as real * sh by {
      assert (j - (i + 1)) as real * sh >= 0.0;
    }
  }

  /** On a screen of non-negative height, no press lands on two buttons. */
  lemma ButtonsDisjoint(i: nat, j: nat, screen: Size, p: Point)
    requires screen.h >= 0 && i != j
    ensures !(OnButton(i, screen, p) && OnButton(j, screen, p))
  {
    if i < j {
      BottomAboveNextTop(i, j, screen);
    } else {
      BottomAboveNextTop(j, i, screen);
    }
  }

  /**
   * So the `for i in range(4)` loop of `events` acts on at most one
   * button: a press on button `i` is a press on `ButtonHit` and on no
   * other button, and `ButtonHit` is None exactly when no button is hit.
   */
  lemma {:induction false} HitIsUnique(screen: Size, p: Point)
    requires screen.h >= 0
    ensures ButtonHit(screen, p).None? <==> forall i :: 0 <= i < ButtonCount ==> !OnButton(i, screen, p)
    ensures forall i :: 0 <= i < ButtonCount && OnButton(i, screen, p) ==> ButtonHit(screen, p) == Some(i)
  {
    var k := ButtonHit(screen, p);
    forall i | 0 <= i < ButtonCount && OnButton(i, screen, p)
      ensures k == Some(i)
    {
      if k.Some? && k.value != i {
        ButtonsDisjoint(i, k.value, screen, p);
      }
    }
  }
}
