/**
 * The landing page's phone-screen carousel: four slides, one shown at a
 * time, advanced by a timer tick.
 */
module LandingPage {

  datatype Slide = Slide(
    id: int,
    kind: string,
    title: string,
    description: string,
    image: string,
    icon: string,
    colorClass: string)

  const Slides: seq<Slide> := [
    Slide(1, "VISTA CLIENTE", "Navegación Intuitiva",
          "Tus clientes escanean y piden. Sin descargas ni PDF lentos.",
          "/screenshots/screen1.png", "touch_app", "bg-orange-500 shadow-orange-500/20"),
    Slide(2, "DETALLE PRODUCTO", "Experiencia Visual",
          "Fotos en HD y descripciones claras que aumentan el apetito.",
          "/screenshots/screen2.png", "restaurant", "bg-blue-500 shadow-blue-500/20"),
    Slide(3, "PANEL ADMIN", "Control Total",
          "Tu centro de comando. Gestioná categorías y visibilidad al instante.",
          "/screenshots/screen3.png", "dashboard", "bg-slate-900 shadow-slate-900/20"),
    Slide(4, "EDICIÓN RÁPIDA", "Autogestión 100%",
          "Cambiá precios, stock o creá platos nuevos en segundos.",
          "/screenshots/screen4.png", "edit_square", "bg-green-600 shadow-green-600/20")
  ]

  const VisibleClass := "opacity-100 z-10"
  const HiddenClass := "opacity-0 z-0"

  /** One tick of the timer: the next slide, wrapping after the last. */
  function NextSlide(prev: nat): (r: nat)
    ensures r < |Slides|
    ensures prev < |Slides| - 1 ==> r == prev + 1
    ensures prev == |Slides| - 1 ==> r == 0
  {
    (prev + 1) % |Slides|
  }

  /** The slide index after `n` ticks from `start`. */
  function Ticks(start: nat, n: nat): nat
  {
    if n == 0 then start else NextSlide(Ticks(start, n - 1))
  }

  /** After `n` ticks the index has moved on `n` places, modulo the number of slides. */
  lemma {:induction false} TicksAdvance(start: nat, n: nat)
    requires start < |Slides|
    ensures Ticks(start, n) == (start + n) % |Slides|
  {
    if n > 0 {
      TicksAdvance(start, n - 1);
    }
  }

  /** A full round of ticks brings the carousel back to the slide it started on. */
  lemma FullRoundReturns(start: nat, rounds: nat)
    requires start < |Slides|
    ensures Ticks(start, rounds * |Slides|) == start
  {
    TicksAdvance(start, rounds * |Slides|);
    assert (start + rounds * |Slides|) % |Slides| == start;
  }

  /** The opacity class of the slide at position `idx` while `current` is shown. */
  function SlideClass(current: nat, idx: nat): (r: string)
    ensures r == VisibleClass <==> idx == current
  {
    if current == idx then VisibleClass else HiddenClass
  }

  /** Exactly one slide is visible: the current one. */
  lemma ExactlyOneVisible(current: nat)
    requires current < |Slides|
    ensures (set i: nat | i < |Slides| && SlideClass(current, i) == VisibleClass) == {current}
  {
  }

  /** The carousel's state. */
  class Carousel {
    var currentSlide: nat

    ghost predicate Valid()
      reads this
    {
      currentSlide < |Slides|
    }

    constructor ()
      ensures Valid() && currentSlide == 0
    {
      currentSlide := 0;
    }

    method Tick()
      requires Valid()
      modifies this
      ensures Valid()
      ensures currentSlide == NextSlide(old(currentSlide))
    {
      currentSlide := (currentSlide + 1) % |Slides|;
    }

    /** The slide whose caption card is shown. */
    function ActiveSlide(): (s: Slide)
      requires Valid()
      reads this
      ensures s in Slides
    {
      Slides[currentSlide]
    }
  }
}
