/** The intervention banner of the storefront page: a single banner slot,
    set by the intervention handler and cleared by timers and by the close
    button, on an abstract millisecond clock.

    Every handler call arms a clear `DwellMs` later and no clear is ever
    cancelled, so pending clears are kept as their deadlines in arming order
    (the order in which equal-delay timers fire). */
module Interventions {
  import opened Wrappers

  /** The delay of the clear armed by every handler call. */
  const DwellMs: nat := 60000

  /** What the banner shows: a type that drives its styling, a message and
      an optional promotional code. */
  datatype Banner = Banner(kind: string, message: string, code: Option<string>)

  const KnownNames: set<string> := {"cart_abandonment", "discount", "free_shipping"}

  /** The handler's fixed table from intervention name to banner. */
  function Lookup(name: string): (b: Option<Banner>)
    ensures b.Some? <==> name in KnownNames
    ensures b.Some? ==> b.value.kind == name
    ensures b.Some? ==> (b.value.code.Some? <==> name != "cart_abandonment")
  {
    if name == "cart_abandonment" then
      Some(Banner("cart_abandonment", "Don't forget your items in cart!", None))
    else if name == "discount" then
      Some(Banner("discount", "10% off your next purchase!", Some("SAVE10")))
    else if name == "free_shipping" then
      Some(Banner("free_shipping", "Free shipping on orders over $100!", Some("FREE")))
    else
      None
  }

  /** The page's banner state: the current time, the banner slot and the
      deadlines of the clears not yet fired, in arming order. */
  datatype Controller = Controller(clock: int, slot: Option<Banner>, pending: seq<int>)

  /** The state when the page mounts: no banner, no timer. */
  const Idle: Controller := Controller(0, None, [])

  predicate Sorted(s: seq<int>) {
    forall i, j :: 0 <= i < j < |s| ==> s[i] <= s[j]
  }

  /** The invariant of reachable states: clears are due in arming order,
      none is overdue or further away than one dwell, and a banner on show
      always has a clear pending. */
  predicate Wf(c: Controller) {
    && Sorted(c.pending)
    && (forall i :: 0 <= i < |c.pending| ==> c.clock <= c.pending[i] <= c.clock + DwellMs)
    && (c.slot.Some? ==> |c.pending| > 0)
  }

  /** The intervention handler: a known name replaces the banner, any other
      name leaves it; either way one more clear is armed. */
  function Intervene(c: Controller, name: string): (r: Controller)
    ensures Wf(c) ==> Wf(r)
  {
    var slot := match Lookup(name)
      case Some(b) => Some(b)
      case None => c.slot;
    Controller(c.clock, slot, c.pending + [c.clock + DwellMs])
  }

  /** The banner's close button. */
  function Dismiss(c: Controller): (r: Controller)
    ensures Wf(c) ==> Wf(r)
  {
    c.(slot := None)
  }

  /** The earliest pending clear fires (no earlier than the current time). */
  function FireNext(c: Controller): (r: Controller)
    requires |c.pending| > 0
    ensures Wf(c) ==> Wf(r)
    ensures Wf(c) ==> r.clock == c.pending[0]
  {
    var at := if c.pending[0] < c.clock then c.clock else c.pending[0];
    Controller(at, None, c.pending[1..])
  }

  /** How many leading clears of `pending` are due by time `t`. */
  function DueCount(pending: seq<int>, t: int): (k: nat)
    ensures k <= |pending|
    ensures forall i :: 0 <= i < k ==> pending[i] <= t
    ensures k < |pending| ==> t < pending[k]
  {
    if |pending| > 0 && pending[0] <= t then 1 + DueCount(pending[1..], t) else 0
  }

  /** Time passes up to `t`: every clear due by then fires, in order. */
  function AdvanceTo(c: Controller, t: int): (r: Controller)
    requires c.clock <= t
    ensures r.clock == t
    ensures r.pending == c.pending[DueCount(c.pending, t)..]
    ensures r.slot == if DueCount(c.pending, t) > 0 then None else c.slot
    ensures Wf(c) ==> Wf(r)
    decreases |c.pending|
  {
    if |c.pending| > 0 && c.pending[0] <= t then
      var next := FireNext(c);
      assert next.pending[DueCount(next.pending, t)..] == c.pending[DueCount(c.pending, t)..];
      AdvanceTo(next, t)
    else
      c.(clock := t)
  }

  /** What the page can observe happening to the banner. */
  datatype Event = Received(name: string) | Closed | Waited(ms: nat)

  function Step(c: Controller, e: Event): Controller {
    match e
    case Received(name) => Intervene(c, name)
    case Closed => Dismiss(c)
    case Waited(ms) => AdvanceTo(c, c.clock + ms)
  }

  function Run(c: Controller, events: seq<Event>): Controller
    decreases |events|
  {
    if |events| == 0 then c else Run(Step(c, events[0]), events[1..])
  }

  /** How the banner renders: nothing when the slot is empty; otherwise the
      message, and a "Use code" note only for a present, non-empty code. */
  datatype BannerView = Hidden | Shown(kind: string, message: string, codeNote: Option<string>)

  function Render(slot: Option<Banner>): (v: BannerView)
    ensures v.Hidden? <==> slot.None?
    ensures v.Shown? ==> v.kind == slot.value.kind && v.message == slot.value.message
    ensures v.Shown? ==> (v.codeNote.Some? <==> slot.value.code.Some? && slot.value.code.value != "")
    ensures v.Shown? && v.codeNote.Some? ==> slot.value.code == v.codeNote
  {
    match slot
    case None => Hidden
    case Some(b) =>
      var note := match b.code
        case Some(code) => if code != "" then Some(code) else None
        case None => None;
      Shown(b.kind, b.message, note)
  }

  // ---------------------------------------------------------------------
  // Properties of the handler's table.

  lemma CartAbandonmentBanner()
    ensures Lookup("cart_abandonment")
            == Some(Banner("cart_abandonment", "Don't forget your items in cart!", None))
  {
  }

  lemma CodedBanners()
    ensures Lookup("discount") == Some(Banner("discount", "10% off your next purchase!", Some("SAVE10")))
    ensures Lookup("free_shipping")
            == Some(Banner("free_shipping", "Free shipping on orders over $100!", Some("FREE")))
  {
  }

  /** The "Use code" note appears exactly for the two coded interventions. */
  lemma CodeNoteForTable(name: string)
    requires name in KnownNames
    ensures Render(Lookup(name)).Shown?
    ensures Render(Lookup(name)).codeNote.Some? <==> name in {"discount", "free_shipping"}
  {
  }

  // ---------------------------------------------------------------------
  // Properties of single events.

  /** A known intervention shows its table banner, whatever was shown before. */
  lemma KnownInterventionShows(c: Controller, name: string)
    requires name in KnownNames
    ensures Intervene(c, name).slot == Lookup(name)
    ensures Render(Intervene(c, name).slot).Shown?
  {
  }

  /** Any other name leaves the banner slot as it was. */
  lemma UnknownInterventionKeepsSlot(c: Controller, name: string)
    requires name !in KnownNames
    ensures Intervene(c, name).slot == c.slot
  {
  }

  /** A later known intervention replaces the banner outright: nothing of the
      earlier one survives. */
  lemma LaterInterventionReplaces(c: Controller, first: string, second: string)
    requires second in KnownNames
    ensures Intervene(Intervene(c, first), second).slot == Lookup(second)
    ensures Intervene(Intervene(c, first), second).slot == Intervene(c, second).slot
  {
  }

  /** Every handler call, known name or not, arms exactly one clear one dwell
      from now and cancels none. */
  lemma ArmsExactlyOneClear(c: Controller, name: string)
    ensures multiset(Intervene(c, name).pending) == multiset(c.pending) + multiset{c.clock + DwellMs}
    ensures |Intervene(c, name).pending| == |c.pending| + 1
    ensures Intervene(c, name).clock == c.clock
  {
  }

  /** A firing clear empties the slot, whichever banner it was armed for. */
  lemma FireClearsAnyBanner(c: Controller)
    requires |c.pending| > 0
    ensures FireNext(c).slot.None?
    ensures Render(FireNext(c).slot).Hidden?
    ensures multiset(FireNext(c).pending) == multiset(c.pending) - multiset{c.pending[0]}
  {
    assert c.pending == [c.pending[0]] + c.pending[1..];
  }

  /** The close button empties the slot, leaves every pending clear armed,
      and pressing it again changes nothing. */
  lemma DismissClearsKeepsTimers(c: Controller)
    ensures Dismiss(c).slot.None?
    ensures Dismiss(c).pending == c.pending && Dismiss(c).clock == c.clock
    ensures Dismiss(Dismiss(c)) == Dismiss(c)
    ensures c.slot.None? ==> Dismiss(c) == c
  {
  }

  /** Waiting until `t` empties the slot exactly when some clear falls due
      by `t`, or when it was empty already; pending clears after `t` stay. */
  lemma AdvanceClearsIffDue(c: Controller, t: int)
    requires Wf(c) && c.clock <= t
    ensures AdvanceTo(c, t).slot.None?
            <==> c.slot.None? || exists i :: 0 <= i < |c.pending| && c.pending[i] <= t
    ensures forall d :: d in AdvanceTo(c, t).pending <==> d in c.pending && t < d
  {
  }

  // ---------------------------------------------------------------------
  // Properties of runs.

  lemma {:induction false} RunPreservesWf(c: Controller, events: seq<Event>)
    requires Wf(c)
    ensures Wf(Run(c, events))
    decreases |events|
  {
    if |events| > 0 {
      RunPreservesWf(Step(c, events[0]), events[1..]);
    }
  }

  lemma {:induction false} RunAppend(c: Controller, a: seq<Event>, b: seq<Event>)
    ensures Run(c, a + b) == Run(Run(c, a), b)
    decreases |a|
  {
    if |a| > 0 {
      assert (a + b)[1..] == a[1..] + b;
      RunAppend(Step(c, a[0]), a[1..], b);
    } else {
      assert a + b == b;
    }
  }

  /** From any reachable state, one dwell of quiet leaves no banner: a banner
      never stays longer than `DwellMs`. */
  lemma BannerNeverOutlivesDwell(c: Controller)
    requires Wf(c)
    ensures Step(c, Waited(DwellMs)).slot.None?
  {
  }

  /** The same for any history of the page since it mounted. */
  lemma BannerClearedAfterQuietDwell(events: seq<Event>)
    ensures Run(Idle, events + [Waited(DwellMs)]).slot.None?
  {
    RunAppend(Idle, events, [Waited(DwellMs)]);
    RunPreservesWf(Idle, events);
    BannerNeverOutlivesDwell(Run(Idle, events));
  }

  lemma RunThree(c: Controller, e1: Event, e2: Event, e3: Event)
    ensures Run(c, [e1, e2, e3]) == Step(Step(Step(c, e1), e2), e3)
  {
    var s1 := Step(c, e1);
    var s2 := Step(s1, e2);
    assert [e1, e2, e3][1..] == [e2, e3];
    assert [e2, e3][1..] == [e3];
    assert [e3][1..] == [];
    assert Run(s2, [e3]) == Run(Step(s2, e3), []);
    assert Run(s1, [e2, e3]) == Run(s2, [e3]);
  }

  lemma RunFour(c: Controller, e1: Event, e2: Event, e3: Event, e4: Event)
    ensures Run(c, [e1, e2, e3, e4]) == Step(Run(c, [e1, e2, e3]), e4)
  {
    RunAppend(c, [e1, e2, e3], [e4]);
    assert [e1, e2, e3] + [e4] == [e1, e2, e3, e4];
  }

  /** A clear armed before a half-minute wait is still pending after it. */
  lemma ArmedClearSurvivesHalfDwell(c: Controller, name: string)
    requires Wf(c)
    ensures c.clock + DwellMs in AdvanceTo(Intervene(c, name), c.clock + 30000).pending
  {
    var s1 := Intervene(c, name);
    assert s1.pending[|s1.pending| - 1] == c.clock + DwellMs;
    AdvanceClearsIffDue(s1, c.clock + 30000);
  }

  /** Clears are never cancelled, so the clear armed by an earlier
      intervention (known or not) removes a newer banner after only 30 s,
      while the newer banner's own clear is still pending. */
  lemma StaleTimerClearsNewerBanner(c: Controller, first: string, second: string)
    requires Wf(c)
    requires second in KnownNames
    ensures Run(c, [Received(first), Waited(30000), Received(second)]).slot == Lookup(second)
    ensures Run(c, [Received(first), Waited(30000), Received(second), Waited(30000)]).slot.None?
    ensures c.clock + 30000 + DwellMs
            in Run(c, [Received(first), Waited(30000), Received(second), Waited(30000)]).pending
  {
    RunThree(c, Received(first), Waited(30000), Received(second));
    RunFour(c, Received(first), Waited(30000), Received(second), Waited(30000));
    var s2 := AdvanceTo(Intervene(c, first), c.clock + 30000);
    var s3 := Intervene(s2, second);
    ArmedClearSurvivesHalfDwell(c, first);
    assert s3.pending[|s3.pending| - 1] == c.clock + 30000 + DwellMs;
    AdvanceClearsIffDue(s3, c.clock + DwellMs);
  }

  /** The storefront's concrete case: "discount", then "free_shipping" 30 s
      later; the free-shipping banner disappears 60 s after the discount,
      not 60 s after itself. */
  lemma DiscountThenFreeShipping()
    ensures Run(Idle, [Received("discount")]).slot
            == Some(Banner("discount", "10% off your next purchase!", Some("SAVE10")))
    ensures Run(Idle, [Received("discount"), Waited(30000), Received("free_shipping")]).slot
            == Some(Banner("free_shipping", "Free shipping on orders over $100!", Some("FREE")))
    ensures Run(Idle, [Received("discount"), Waited(30000), Received("free_shipping"), Waited(30000)]).slot
            == None
  {
  }
}
