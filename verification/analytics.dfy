/** The storefront's analytics facade. The tracking SDK is seen only through
    the calls the facade makes to it, recorded in an append-only trace; the
    facade's own state is its one-time initialization flag. */
module Analytics {
  import opened Wrappers
  import opened Decimal
  import opened Catalog

  const Namespace: string := "sp"
  const AppId: string := "ai_demo"
  const Currency: string := "USD"

  /** One product line as the e-commerce plugin receives it. */
  datatype ProductEntity = ProductEntity(
    id: string,
    name: string,
    brand: string,
    category: string,
    price: Price,
    currency: string
  )

  /** An add-to-cart event: the lines added and their total value. */
  datatype CartEvent = CartEvent(products: seq<ProductEntity>, totalValue: Price, currency: string)

  /** A call into the tracking SDK. `AddInterventionHandlers` is made by the
      shop page itself, not by the facade. */
  datatype SdkCall =
    | NewTracker(namespace: string, collectorUrl: string, appId: string)
    | SubscribeToInterventions(endpoint: string)
    | SetUserId(userId: string)
    | ClearUserData
    | TrackProductView(entity: ProductEntity)
    | TrackAddToCart(cart: CartEvent)
    | AddInterventionHandlers

  datatype TrackerState = TrackerState(initialized: bool, trace: seq<SdkCall>)

  /** The state when the module is first loaded. */
  const Fresh: TrackerState := TrackerState(false, [])

  /** `initializeSnowplow`: creates the tracker and subscribes to
      interventions only on the first call; sets the user id on every call
      that passes a non-empty one. */
  function Initialize(s: TrackerState, collectorUrl: string, signalsApiUrl: string, userId: Option<string>)
    : (r: TrackerState)
    ensures r.initialized
    ensures |s.trace| <= |r.trace| && r.trace[..|s.trace|] == s.trace
  {
    var setup := if s.initialized then []
                 else [NewTracker(Namespace, collectorUrl, AppId), SubscribeToInterventions(signalsApiUrl)];
    var identify := match userId
      case Some(id) => if id != "" then [SetUserId(id)] else []
      case None => [];
    TrackerState(true, s.trace + setup + identify)
  }

  /** `updateSnowplowUser`: forgets the previous user, then sets the new id.
      The e-mail address is accepted and ignored. */
  function UpdateUser(s: TrackerState, userId: string, userEmail: Option<string>): (r: TrackerState)
    ensures r.initialized == s.initialized
    ensures |r.trace| == |s.trace| + 2 && r.trace[..|s.trace|] == s.trace
  {
    s.(trace := s.trace + [ClearUserData, SetUserId(userId)])
  }

  /** `resetUserData`. */
  function ResetUserData(s: TrackerState): (r: TrackerState)
    ensures r.initialized == s.initialized
    ensures |r.trace| == |s.trace| + 1 && r.trace[..|s.trace|] == s.trace
  {
    s.(trace := s.trace + [ClearUserData])
  }

  /** The product line sent for `product`. */
  function EntityFor(product: Product): (e: ProductEntity)
    ensures e.id == DecimalString(product.id)
    ensures ParseDecimal(e.id) == Some(product.id)
    ensures e.name == product.title && e.category == product.category && e.price == product.price
    ensures e.brand == BrandLabel(product.brand) && e.brand != ""
    ensures e.currency == Currency
  {
    DecimalRoundTrip(product.id);
    ProductEntity(DecimalString(product.id), product.title, BrandLabel(product.brand),
                  product.category, product.price, Currency)
  }

  /** The add-to-cart event for one unit of `product`. */
  function CartFor(product: Product): (c: CartEvent)
    ensures |c.products| == 1 && c.products[0] == EntityFor(product)
    ensures c.totalValue == c.products[0].price == product.price
    ensures c.currency == Currency && c.products[0].currency == Currency
  {
    CartEvent([EntityFor(product)], product.price, Currency)
  }

  /** `trackProductViewEvent`. */
  function TrackProductViewEvent(s: TrackerState, product: Product): (r: TrackerState)
    ensures r.initialized == s.initialized
    ensures r.trace == s.trace + [TrackProductView(EntityFor(product))]
  {
    s.(trace := s.trace + [TrackProductView(EntityFor(product))])
  }

  /** `trackAddToCartEvent`. */
  function TrackAddToCartEvent(s: TrackerState, product: Product): (r: TrackerState)
    ensures r.initialized == s.initialized
    ensures r.trace == s.trace + [TrackAddToCart(CartFor(product))]
  {
    s.(trace := s.trace + [TrackAddToCart(CartFor(product))])
  }

  /** The facade's exported operations. */
  datatype Op =
    | Init(collectorUrl: string, signalsApiUrl: string, givenUserId: Option<string>)
    | Update(newUserId: string, userEmail: Option<string>)
    | Reset
    | View(product: Product)
    | AddToCart(product: Product)

  function Apply(s: TrackerState, op: Op): TrackerState {
    match op
    case Init(collector, signals, userId) => Initialize(s, collector, signals, userId)
    case Update(userId, email) => UpdateUser(s, userId, email)
    case Reset => ResetUserData(s)
    case View(p) => TrackProductViewEvent(s, p)
    case AddToCart(p) => TrackAddToCartEvent(s, p)
  }

  function Replay(s: TrackerState, ops: seq<Op>): TrackerState
    decreases |ops|
  {
    if |ops| == 0 then s else Replay(Apply(s, ops[0]), ops[1..])
  }

  // ---------------------------------------------------------------------
  // Queries over the trace.

  function TrackersCreated(trace: seq<SdkCall>): nat {
    if |trace| == 0 then 0
    else TrackersCreated(trace[..|trace| - 1]) + (if trace[|trace| - 1].NewTracker? then 1 else 0)
  }

  function Subscriptions(trace: seq<SdkCall>): nat {
    if |trace| == 0 then 0
    else Subscriptions(trace[..|trace| - 1]) + (if trace[|trace| - 1].SubscribeToInterventions? then 1 else 0)
  }

  /** The collector address of the first tracker created, if any. */
  function FirstCollector(trace: seq<SdkCall>): Option<string> {
    if |trace| == 0 then None
    else if trace[0].NewTracker? then Some(trace[0].collectorUrl)
    else FirstCollector(trace[1..])
  }

  /** The endpoint of the first intervention subscription, if any. */
  function FirstEndpoint(trace: seq<SdkCall>): Option<string> {
    if |trace| == 0 then None
    else if trace[0].SubscribeToInterventions? then Some(trace[0].endpoint)
    else FirstEndpoint(trace[1..])
  }

  /** The flag agrees with the trace: one tracker and one subscription once
      initialized, none before. */
  predicate Consistent(s: TrackerState) {
    var n := if s.initialized then 1 else 0;
    TrackersCreated(s.trace) == n && Subscriptions(s.trace) == n
  }

  // ---------------------------------------------------------------------

  lemma {:induction false} CountsAppend(a: seq<SdkCall>, b: seq<SdkCall>)
    ensures TrackersCreated(a + b) == TrackersCreated(a) + TrackersCreated(b)
    ensures Subscriptions(a + b) == Subscriptions(a) + Subscriptions(b)
    decreases |b|
  {
    if |b| == 0 {
      assert a + b == a;
    } else {
      var b' := b[..|b| - 1];
      assert (a + b)[..|a + b| - 1] == a + b';
      CountsAppend(a, b');
    }
  }

  lemma {:induction false} FirstCollectorKept(a: seq<SdkCall>, b: seq<SdkCall>)
    requires FirstCollector(a).Some?
    ensures FirstCollector(a + b) == FirstCollector(a)
    decreases |a|
  {
    assert (a + b)[0] == a[0];
    if !a[0].NewTracker? {
      assert (a + b)[1..] == a[1..] + b;
      FirstCollectorKept(a[1..], b);
    }
  }

  lemma {:induction false} FirstEndpointKept(a: seq<SdkCall>, b: seq<SdkCall>)
    requires FirstEndpoint(a).Some?
    ensures FirstEndpoint(a + b) == FirstEndpoint(a)
    decreases |a|
  {
    assert (a + b)[0] == a[0];
    if !a[0].SubscribeToInterventions? {
      assert (a + b)[1..] == a[1..] + b;
      FirstEndpointKept(a[1..], b);
    }
  }

  lemma CountsSnoc(a: seq<SdkCall>, x: SdkCall)
    ensures TrackersCreated(a + [x]) == TrackersCreated(a) + (if x.NewTracker? then 1 else 0)
    ensures Subscriptions(a + [x]) == Subscriptions(a) + (if x.SubscribeToInterventions? then 1 else 0)
  {
  }

  /** The calls `initializeSnowplow` appends: the setup on the first call
      only, then the user id when one is given. */
  lemma InitializeAppends(s: TrackerState, collectorUrl: string, signalsApiUrl: string, userId: Option<string>)
    ensures var r := Initialize(s, collectorUrl, signalsApiUrl, userId);
            var setup := if s.initialized then s.trace
                         else s.trace + [NewTracker(Namespace, collectorUrl, AppId)]
                              + [SubscribeToInterventions(signalsApiUrl)];
            r.trace == (if userId.Some? && userId.value != "" then setup + [SetUserId(userId.value)] else setup)
  {
  }

  /** Initialization adds one tracker and one subscription the first time
      and none afterwards. */
  lemma InitializeCounts(s: TrackerState, collectorUrl: string, signalsApiUrl: string, userId: Option<string>)
    ensures var r := Initialize(s, collectorUrl, signalsApiUrl, userId);
            var n := if s.initialized then 0 else 1;
            TrackersCreated(r.trace) == TrackersCreated(s.trace) + n
            && Subscriptions(r.trace) == Subscriptions(s.trace) + n
  {
    InitializeAppends(s, collectorUrl, signalsApiUrl, userId);
    var setup := s.trace;
    if !s.initialized {
      var t1 := s.trace + [NewTracker(Namespace, collectorUrl, AppId)];
      CountsSnoc(s.trace, NewTracker(Namespace, collectorUrl, AppId));
      CountsSnoc(t1, SubscribeToInterventions(signalsApiUrl));
      setup := t1 + [SubscribeToInterventions(signalsApiUrl)];
    }
    if userId.Some? && userId.value != "" {
      CountsSnoc(setup, SetUserId(userId.value));
    }
  }

  /** Every operation keeps the flag and the trace in agreement. */
  lemma ApplyKeepsConsistent(s: TrackerState, op: Op)
    requires Consistent(s)
    ensures Consistent(Apply(s, op))
  {
    match op {
      case Init(collector, signals, userId) =>
        InitializeCounts(s, collector, signals, userId);
      case Update(userId, email) =>
        CountsSnoc(s.trace, ClearUserData);
        CountsSnoc(s.trace + [ClearUserData], SetUserId(userId));
        assert s.trace + [ClearUserData, SetUserId(userId)] == s.trace + [ClearUserData] + [SetUserId(userId)];
      case Reset =>
        CountsSnoc(s.trace, ClearUserData);
      case View(p) =>
        CountsSnoc(s.trace, TrackProductView(EntityFor(p)));
      case AddToCart(p) =>
        CountsSnoc(s.trace, TrackAddToCart(CartFor(p)));
    }
  }

  lemma {:induction false} ReplayKeepsConsistent(s: TrackerState, ops: seq<Op>)
    requires Consistent(s)
    ensures Consistent(Replay(s, ops))
    decreases |ops|
  {
    if |ops| > 0 {
      ApplyKeepsConsistent(s, ops[0]);
      ReplayKeepsConsistent(Apply(s, ops[0]), ops[1..]);
    }
  }

  /** The trace only grows and the flag never goes back to false. */
  lemma {:induction false} ReplayExtends(s: TrackerState, ops: seq<Op>)
    ensures s.initialized ==> Replay(s, ops).initialized
    ensures |s.trace| <= |Replay(s, ops).trace| && Replay(s, ops).trace[..|s.trace|] == s.trace
    decreases |ops|
  {
    if |ops| > 0 {
      var next := Apply(s, ops[0]);
      ReplayExtends(next, ops[1..]);
      var r := Replay(next, ops[1..]);
      assert r.trace[..|next.trace|][..|s.trace|] == s.trace;
    }
  }

  /** After any call to `initializeSnowplow`, whatever follows, the flag is
      set and exactly one tracker and one subscription exist. */
  lemma InitializedForever(s: TrackerState, collectorUrl: string, signalsApiUrl: string,
                           userId: Option<string>, ops: seq<Op>)
    requires Consistent(s)
    ensures Replay(Initialize(s, collectorUrl, signalsApiUrl, userId), ops).initialized
    ensures TrackersCreated(Replay(Initialize(s, collectorUrl, signalsApiUrl, userId), ops).trace) == 1
    ensures Subscriptions(Replay(Initialize(s, collectorUrl, signalsApiUrl, userId), ops).trace) == 1
  {
    var s1 := Initialize(s, collectorUrl, signalsApiUrl, userId);
    ApplyKeepsConsistent(s, Init(collectorUrl, signalsApiUrl, userId));
    ReplayKeepsConsistent(s1, ops);
    ReplayExtends(s1, ops);
  }

  /** The first initialization's addresses win: whatever is called later,
      including initialization with other addresses, the recorded collector
      and intervention endpoint are the first ones. */
  lemma FirstInitWins(collectorUrl: string, signalsApiUrl: string, userId: Option<string>, ops: seq<Op>)
    ensures FirstCollector(Replay(Initialize(Fresh, collectorUrl, signalsApiUrl, userId), ops).trace)
            == Some(collectorUrl)
    ensures FirstEndpoint(Replay(Initialize(Fresh, collectorUrl, signalsApiUrl, userId), ops).trace)
            == Some(signalsApiUrl)
  {
    var s1 := Initialize(Fresh, collectorUrl, signalsApiUrl, userId);
    var r := Replay(s1, ops);
    ReplayExtends(s1, ops);
    var prefix := [NewTracker(Namespace, collectorUrl, AppId), SubscribeToInterventions(signalsApiUrl)];
    assert s1.trace[..2] == prefix;
    assert r.trace == prefix + r.trace[2..] by {
      assert r.trace[..|s1.trace|][..2] == prefix;
    }
    assert FirstEndpoint(prefix) == Some(signalsApiUrl) by {
      assert prefix[1..] == [SubscribeToInterventions(signalsApiUrl)];
    }
    FirstCollectorKept(prefix, r.trace[2..]);
    FirstEndpointKept(prefix, r.trace[2..]);
  }

  /** A repeated initialization adds no tracker and no subscription. */
  lemma ReinitializeIsGuarded(s: TrackerState, collectorUrl: string, signalsApiUrl: string, userId: Option<string>)
    requires s.initialized
    ensures var r := Initialize(s, collectorUrl, signalsApiUrl, userId);
            TrackersCreated(r.trace) == TrackersCreated(s.trace)
            && Subscriptions(r.trace) == Subscriptions(s.trace)
  {
  }

  /** `setUserId` is called exactly when a non-empty user id is passed,
      initialized or not, and with that id. */
  lemma SetUserIdIffGiven(s: TrackerState, collectorUrl: string, signalsApiUrl: string,
                          userId: Option<string>, id: string)
    ensures SetUserId(id) in Initialize(s, collectorUrl, signalsApiUrl, userId).trace[|s.trace|..]
            <==> userId == Some(id) && id != ""
  {
    var r := Initialize(s, collectorUrl, signalsApiUrl, userId);
    InitializeAppends(s, collectorUrl, signalsApiUrl, userId);
    var added := r.trace[|s.trace|..];
    var setup := if s.initialized then []
                 else [NewTracker(Namespace, collectorUrl, AppId), SubscribeToInterventions(signalsApiUrl)];
    if userId.Some? && userId.value != "" {
      assert added == setup + [SetUserId(userId.value)];
    } else {
      assert added == setup;
    }
  }

  /** Changing user appends exactly a clear followed by the new id; a reset
      appends exactly one clear. */
  lemma UserChangeOrder(s: TrackerState, userId: string, userEmail: Option<string>)
    ensures UpdateUser(s, userId, userEmail).trace[|s.trace|..] == [ClearUserData, SetUserId(userId)]
    ensures ResetUserData(s).trace[|s.trace|..] == [ClearUserData]
  {
  }

  /** The two payloads describe the product identically, so a view and an
      add-to-cart of one product share their product line. */
  lemma PayloadsAgree(product: Product)
    ensures CartFor(product).products == [EntityFor(product)]
  {
  }

  /** Products with different ids are reported under different ids. */
  lemma DistinctIdsStayDistinct(p: Product, q: Product)
    requires p.id != q.id
    ensures EntityFor(p).id != EntityFor(q).id
  {
  }
}
