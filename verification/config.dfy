/** The configuration gate of the storefront: the welcome form, its
    pre-filling from browser storage, the submit check that persists both
    endpoint addresses, and the switch between the welcome screen and the
    shop. Browser storage is an abstract key/value map. */
module Config {
  import opened Wrappers

  const CollectorKey: string := "snowplow_collector_url"
  const ProfilesKey: string := "snowplow_profiles_api_url"

  type Storage = map<string, string>

  /** The two endpoint addresses the shop is configured with. */
  datatype AppConfig = AppConfig(collectorUrl: string, profilesApiUrl: string)

  /** The welcome form's two text fields. */
  datatype Form = Form(collectorUrl: string, profilesApiUrl: string)

  /** `getItem(key) || ""`: a missing key reads as the empty string. */
  function StoredOrEmpty(store: Storage, key: string): (v: string)
    ensures key !in store ==> v == ""
    ensures key in store ==> v == store[key]
  {
    if key in store then store[key] else ""
  }

  /** The form as the welcome screen first shows it. */
  function Prefill(store: Storage): (f: Form)
    ensures f.collectorUrl == StoredOrEmpty(store, CollectorKey)
    ensures f.profilesApiUrl == StoredOrEmpty(store, ProfilesKey)
  {
    Form(StoredOrEmpty(store, CollectorKey), StoredOrEmpty(store, ProfilesKey))
  }

  /** The outcome of a submit: the storage afterwards and the configuration
      handed on to the application, if any. */
  datatype Submission = Submission(store: Storage, handedOn: Option<AppConfig>)

  /** The welcome form's submit handler. */
  function HandleSubmit(store: Storage, form: Form): (r: Submission)
    ensures r.handedOn.Some? <==> form.collectorUrl != "" && form.profilesApiUrl != ""
    ensures r.handedOn.Some? ==> r.handedOn.value == AppConfig(form.collectorUrl, form.profilesApiUrl)
    ensures r.handedOn.None? ==> r.store == store
    ensures r.handedOn.Some? ==> r.store.Keys == store.Keys + {CollectorKey, ProfilesKey}
    ensures r.handedOn.Some? ==> r.store[CollectorKey] == form.collectorUrl && r.store[ProfilesKey] == form.profilesApiUrl
    ensures forall k :: k in store && k != CollectorKey && k != ProfilesKey ==> k in r.store && r.store[k] == store[k]
  {
    if form.collectorUrl != "" && form.profilesApiUrl != "" then
      var written := store[CollectorKey := form.collectorUrl][ProfilesKey := form.profilesApiUrl];
      Submission(written, Some(AppConfig(form.collectorUrl, form.profilesApiUrl)))
    else
      Submission(store, None)
  }

  /** The top-level component: the configuration in its state, and the
      browser storage it reads and writes. */
  datatype App = App(config: Option<AppConfig>, store: Storage)

  /** Every page load starts unconfigured; storage only pre-fills the form. */
  function Load(store: Storage): (a: App)
    ensures a.config.None? && a.store == store
  {
    App(None, store)
  }

  datatype Screen = Welcome(form: Form) | Shop(config: AppConfig)

  /** The component's switch: the welcome screen, pre-filled from storage as
      it mounts, while there is no configuration; the shop otherwise. */
  function Show(a: App): (s: Screen)
    ensures s.Shop? <==> a.config.Some?
    ensures s.Shop? ==> s.config == a.config.value
    ensures s.Welcome? ==> s.form == Prefill(a.store)
  {
    match a.config
    case Some(cfg) => Shop(cfg)
    case None => Welcome(Prefill(a.store))
  }

  /** The welcome screen's submit; the form only exists while unconfigured. */
  function Submit(a: App, form: Form): (r: App)
    requires a.config.None?
    ensures r.config.Some? <==> form.collectorUrl != "" && form.profilesApiUrl != ""
    ensures r.config.None? ==> r == a
  {
    var sub := HandleSubmit(a.store, form);
    match sub.handedOn
    case Some(cfg) => App(Some(cfg), sub.store)
    case None => a
  }

  /** The shop's "Edit Configuration" button. */
  function EditConfig(a: App): (r: App)
    ensures r.config.None?
    ensures r.store == a.store
  {
    a.(config := None)
  }

  // ---------------------------------------------------------------------

  /** An accepted submit persists the form: reading storage back gives the
      very values submitted. */
  lemma PersistRoundTrip(store: Storage, form: Form)
    requires form.collectorUrl != "" && form.profilesApiUrl != ""
    ensures Prefill(HandleSubmit(store, form).store) == form
  {
  }

  /** A rejected submit writes nothing and hands nothing on. */
  lemma RejectedSubmitChangesNothing(a: App, form: Form)
    requires a.config.None?
    requires form.collectorUrl == "" || form.profilesApiUrl == ""
    ensures Submit(a, form) == a
    ensures Show(Submit(a, form)) == Show(a)
  {
  }

  /** With nothing stored the form starts with both fields empty, so
      submitting it untouched is rejected. */
  lemma EmptyStorageRejectsUntouchedForm(store: Storage)
    requires CollectorKey !in store || ProfilesKey !in store
    ensures HandleSubmit(store, Prefill(store)).handedOn.None?
  {
  }

  /** After an accepted submit and "Edit Configuration", the welcome screen
      comes back pre-filled with the submitted values: editing discards the
      configuration but not the stored addresses. */
  lemma EditReturnsToPrefilledWelcome(a: App, form: Form)
    requires a.config.None?
    requires form.collectorUrl != "" && form.profilesApiUrl != ""
    ensures Show(Submit(a, form)) == Shop(AppConfig(form.collectorUrl, form.profilesApiUrl))
    ensures Show(EditConfig(Submit(a, form))) == Welcome(form)
  {
  }

  /** A reload after an accepted submit still opens the welcome screen, with
      the form pre-filled, rather than the shop. */
  lemma ReloadPrefillsButDoesNotConfigure(a: App, form: Form)
    requires a.config.None?
    requires form.collectorUrl != "" && form.profilesApiUrl != ""
    ensures Show(Load(Submit(a, form).store)) == Welcome(form)
  {
  }
}
