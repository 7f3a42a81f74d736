/** The shop page's wiring of the analytics facade: what mounting the shop
    calls, what the product cards and the product modal track, and how the
    modal shows a product. */
module Storefront {
  import opened Wrappers
  import opened Catalog
  import opened Config
  import opened Analytics

  /** The shop page's tracking-relevant state: the analytics facade and the
      product open in the modal, if any. */
  datatype Page = Page(tracker: TrackerState, selected: Option<Product>)

  /** The shop's mount effect: initialize tracking with the configured
      addresses (no user id), reset the user data, then register one more
      intervention handler. Earlier handlers are never removed; only the
      first mount of the page creates the tracker and subscribes. */
  function MountShop(t: TrackerState, cfg: AppConfig): (r: TrackerState)
    ensures r.initialized
    ensures |t.trace| + 2 <= |r.trace| && r.trace[..|t.trace|] == t.trace
    ensures t.initialized ==> r.trace == t.trace + [ClearUserData, AddInterventionHandlers]
    ensures !t.initialized ==> r.trace[|t.trace|..]
                               == [NewTracker(Namespace, cfg.collectorUrl, AppId), SubscribeToInterventions(cfg.profilesApiUrl),
                                   ClearUserData, AddInterventionHandlers]
  {
    var reset := ResetUserData(Initialize(t, cfg.collectorUrl, cfg.profilesApiUrl, None));
    reset.(trace := reset.trace + [AddInterventionHandlers])
  }

  /** How many intervention handlers the trace has registered. */
  function HandlersRegistered(trace: seq<SdkCall>): nat {
    if |trace| == 0 then 0
    else HandlersRegistered(trace[..|trace| - 1]) + (if trace[|trace| - 1].AddInterventionHandlers? then 1 else 0)
  }

  /** A click on a product card: track the view, then open the modal. */
  function CardClicked(pg: Page, p: Product): (r: Page)
    ensures r.selected == Some(p)
    ensures r.tracker.trace == pg.tracker.trace + [TrackProductView(EntityFor(p))]
  {
    Page(TrackProductViewEvent(pg.tracker, p), Some(p))
  }

  /** The card's own "Add to Cart" button; it does not open the modal. */
  function CardAddToCart(pg: Page, p: Product): (r: Page)
    ensures r.selected == pg.selected
    ensures r.tracker.trace == pg.tracker.trace + [TrackAddToCart(CartFor(p))]
  {
    pg.(tracker := TrackAddToCartEvent(pg.tracker, p))
  }

  /** The modal's "Add to Cart" button: tracks only while a product is open. */
  function ModalAddToCart(pg: Page): (r: Page)
    ensures pg.selected.None? ==> r == pg
    ensures pg.selected.Some? ==> r.tracker.trace == pg.tracker.trace + [TrackAddToCart(CartFor(pg.selected.value))]
    ensures r.selected == pg.selected
  {
    match pg.selected
    case Some(p) => pg.(tracker := TrackAddToCartEvent(pg.tracker, p))
    case None => pg
  }

  function CloseModal(pg: Page): (r: Page)
    ensures r.selected.None? && r.tracker == pg.tracker
  {
    pg.(selected := None)
  }

  /** The shop's "Reset User Data" button. */
  function ResetClicked(pg: Page): (r: Page)
    ensures r.selected == pg.selected
    ensures r.tracker.trace == pg.tracker.trace + [ClearUserData]
  {
    pg.(tracker := ResetUserData(pg.tracker))
  }

  /** What the product modal shows. */
  datatype ModalView =
    | NoModal
    | ProductDetails(title: string, price: Price, description: string, category: string, brand: string)

  function ShowModal(selected: Option<Product>): (v: ModalView)
    ensures v.NoModal? <==> selected.None?
  {
    match selected
    case None => NoModal
    case Some(p) => ProductDetails(p.title, p.price, p.description, p.category, BrandLabel(p.brand))
  }

  // ---------------------------------------------------------------------

  /** The modal shows the same brand that both analytics payloads send. */
  lemma BrandRuleShared(p: Product)
    ensures ShowModal(Some(p)).brand == EntityFor(p).brand
    ensures ShowModal(Some(p)).brand == CartFor(p).products[0].brand
    ensures p.brand.None? || p.brand == Some("") ==> ShowModal(Some(p)).brand == "N/A"
  {
  }

  lemma {:induction false} HandlersAppend(a: seq<SdkCall>, b: seq<SdkCall>)
    ensures HandlersRegistered(a + b) == HandlersRegistered(a) + HandlersRegistered(b)
    decreases |b|
  {
    if |b| == 0 {
      assert a + b == a;
    } else {
      var b' := b[..|b| - 1];
      assert (a + b)[..|a + b| - 1] == a + b';
      HandlersAppend(a, b');
    }
  }

  /** Every mount registers exactly one more intervention handler. */
  lemma EachMountAddsHandler(t: TrackerState, cfg: AppConfig)
    ensures HandlersRegistered(MountShop(t, cfg).trace) == HandlersRegistered(t.trace) + 1
  {
    var r := MountShop(t, cfg);
    var added := r.trace[|t.trace|..];
    assert r.trace == t.trace + added;
    HandlersAppend(t.trace, added);
    var body := added[..|added| - 1];
    assert added == body + [AddInterventionHandlers];
    HandlersAppend(body, [AddInterventionHandlers]);
    assert body == Initialize(t, cfg.collectorUrl, cfg.profilesApiUrl, None).trace[|t.trace|..] + [ClearUserData];
    assert forall i :: 0 <= i < |body| ==> !body[i].AddInterventionHandlers?;
    NoHandlerCalls(body);
  }

  lemma {:induction false} NoHandlerCalls(trace: seq<SdkCall>)
    requires forall i :: 0 <= i < |trace| ==> !trace[i].AddInterventionHandlers?
    ensures HandlersRegistered(trace) == 0
    decreases |trace|
  {
    if |trace| > 0 {
      NoHandlerCalls(trace[..|trace| - 1]);
    }
  }

  /** The first mount creates the tracker for the configured collector,
      subscribes to the configured endpoint, resets the user, then registers
      the intervention handler. */
  lemma FirstMountCalls(cfg: AppConfig)
    ensures MountShop(Fresh, cfg).trace
            == [NewTracker(Namespace, cfg.collectorUrl, AppId), SubscribeToInterventions(cfg.profilesApiUrl),
                ClearUserData, AddInterventionHandlers]
  {
  }

  /** Editing the configuration and submitting other addresses remounts the
      shop, but tracking keeps the first addresses: the second mount only
      resets the user and registers a second intervention handler beside the
      first. */
  lemma ReconfigurationNotApplied(a: App, first: Form, second: Form)
    requires a.config.None?
    requires first.collectorUrl != "" && first.profilesApiUrl != ""
    requires second.collectorUrl != "" && second.profilesApiUrl != ""
    ensures var a1 := Submit(a, first);
            var a2 := Submit(EditConfig(a1), second);
            var t1 := MountShop(Fresh, a1.config.value);
            var t2 := MountShop(t1, a2.config.value);
            && t2.trace == t1.trace + [ClearUserData, AddInterventionHandlers]
            && FirstCollector(t2.trace) == Some(first.collectorUrl)
            && FirstEndpoint(t2.trace) == Some(first.profilesApiUrl)
            && HandlersRegistered(t2.trace) == 2
  {
    var a1 := Submit(a, first);
    var a2 := Submit(EditConfig(a1), second);
    var t1 := MountShop(Fresh, a1.config.value);
    EachMountAddsHandler(Fresh, a1.config.value);
    EachMountAddsHandler(t1, a2.config.value);
  }

  /** The modal's button tracks nothing when no product is open, and the
      open product's single-line cart otherwise. */
  lemma ModalTracksOpenProduct(pg: Page, p: Product)
    ensures ModalAddToCart(pg.(selected := None)).tracker == pg.tracker
    ensures ModalAddToCart(CardClicked(pg, p)).tracker.trace
            == pg.tracker.trace + [TrackProductView(EntityFor(p)), TrackAddToCart(CartFor(p))]
  {
  }
}
