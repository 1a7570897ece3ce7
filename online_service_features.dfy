/** `OnlineServiceFeatureFactory`: the teaser feature listing a product's
    online services, each loaded and turned into a link. A service whose
    resource cannot be loaded or linked is left out, never raised. */
module OnlineServiceFeatures {
  import opened Wrappers
  import opened Resources

  /** The parts of the search library's `Link` this model needs. */
  datatype Link = Link(url: string)

  /** The GraphQL type `OnlineService`. */
  datatype OnlineService = OnlineService(link: Link)

  /** The GraphQL type `OnlineServiceFeature`: a teaser feature with an
      optional label and its services. */
  datatype OnlineServiceFeature = OnlineServiceFeature(featureLabel: Option<string>, onlineServices: seq<OnlineService>)

  /** `LinkFactory::create`: a link, or the error it raises. */
  type LinkFactory = Resource -> Result<Link, Error>

  /** The service of one item: its url is loaded as a location in the
      default language and the resource is linked. An item without a url, a
      failing load and a failing link all give no service. */
  function ServiceOf(item: ServiceItem, load: Loader, linkOf: LinkFactory): (s: seq<OnlineService>)
    ensures |s| <= 1
  {
    if item.url.None? then []
    else
      match load(Location(item.url.value, ""))
      case Err(_) => []
      case Ok(r) =>
        match linkOf(r)
        case Err(_) => []
        case Ok(l) => [OnlineService(l)]
  }

  /** Whether an item gives a service. */
  predicate Succeeds(item: ServiceItem, load: Loader, linkOf: LinkFactory) {
    item.url.Some? && load(Location(item.url.value, "")).Ok? &&
    linkOf(load(Location(item.url.value, "")).value).Ok?
  }

  /** The link of an item that gives a service. */
  function LinkOf(item: ServiceItem, load: Loader, linkOf: LinkFactory): Link
    requires Succeeds(item, load, linkOf)
  {
    linkOf(load(Location(item.url.value, "")).value).value
  }

  lemma ServiceOfSucceeds(item: ServiceItem, load: Loader, linkOf: LinkFactory)
    ensures Succeeds(item, load, linkOf) ==> ServiceOf(item, load, linkOf) == [OnlineService(LinkOf(item, load, linkOf))]
    ensures !Succeeds(item, load, linkOf) ==> ServiceOf(item, load, linkOf) == []
  {
  }

  /** The lists `f` gives for the elements of `xs`, joined in order. */
  function Collect<A, B>(f: A -> seq<B>, xs: seq<A>): seq<B> {
    if xs == [] then [] else Collect(f, xs[..|xs| - 1]) + f(xs[|xs| - 1])
  }

  lemma {:induction false} CollectAppend<A, B>(f: A -> seq<B>, xs: seq<A>, ys: seq<A>)
    ensures Collect(f, xs + ys) == Collect(f, xs) + Collect(f, ys)
    decreases |ys|
  {
    if ys == [] {
      assert xs + ys == xs;
    } else {
      var init := ys[..|ys| - 1];
      CollectAppend(f, xs, init);
      assert (xs + ys)[..|xs + ys| - 1] == xs + init;
    }
  }

  lemma {:induction false} CollectAtMostOne<A, B>(f: A -> seq<B>, xs: seq<A>)
    requires forall x :: |f(x)| <= 1
    ensures |Collect(f, xs)| <= |xs|
  {
    if xs != [] {
      CollectAtMostOne(f, xs[..|xs| - 1]);
    }
  }

  /** Collecting one more element appends what `f` gives for it. */
  lemma CollectSnoc<A, B>(f: A -> seq<B>, xs: seq<A>, x: A)
    ensures Collect(f, xs + [x]) == Collect(f, xs) + f(x)
  {
    assert (xs + [x])[..|xs|] == xs;
  }

  /** An element for which `f` gives nothing can be dropped. */
  lemma CollectSkips<A, B>(f: A -> seq<B>, xs: seq<A>, k: nat)
    requires k < |xs| && f(xs[k]) == []
    ensures Collect(f, xs) == Collect(f, xs[..k] + xs[k + 1..])
  {
    var pre, post := xs[..k], xs[k + 1..];
    var upto := pre + [xs[k]];
    assert xs == upto + post;
    CollectAppend(f, upto, post);
    CollectSnoc(f, pre, xs[k]);
    CollectAppend(f, pre, post);
  }

  /** The services of the items, in item order. */
  function Services(items: seq<ServiceItem>, load: Loader, linkOf: LinkFactory): (s: seq<OnlineService>)
    ensures |s| <= |items|
  {
    CollectAtMostOne(item => ServiceOf(item, load, linkOf), items);
    Collect(item => ServiceOf(item, load, linkOf), items)
  }

  /** An item that gives no service can be dropped without changing the
      result: failures are skipped. */
  lemma SkipsFailure(items: seq<ServiceItem>, k: nat, load: Loader, linkOf: LinkFactory)
    requires k < |items| && !Succeeds(items[k], load, linkOf)
    ensures Services(items, load, linkOf) == Services(items[..k] + items[k + 1..], load, linkOf)
  {
    ServiceOfSucceeds(items[k], load, linkOf);
    CollectSkips(item => ServiceOf(item, load, linkOf), items, k);
  }

  /** When every item gives a service, there is one service per item, in
      item order. */
  lemma {:induction false} AllSucceed(items: seq<ServiceItem>, load: Loader, linkOf: LinkFactory)
    requires forall i :: 0 <= i < |items| ==> Succeeds(items[i], load, linkOf)
    ensures |Services(items, load, linkOf)| == |items|
    ensures forall i :: 0 <= i < |items| ==>
      Services(items, load, linkOf)[i] == OnlineService(LinkOf(items[i], load, linkOf))
  {
    if items != [] {
      var init := items[..|items| - 1];
      AllSucceed(init, load, linkOf);
      ServiceOfSucceeds(items[|items| - 1], load, linkOf);
    }
  }

  /** What `create` returns: nothing when the product has no online
      services, otherwise exactly one feature, unlabelled, holding the
      services of the items. */
  function Features(resource: Resource, load: Loader, linkOf: LinkFactory): (fs: seq<OnlineServiceFeature>)
    ensures resource.product.onlineServices.None? ==> fs == []
    ensures resource.product.onlineServices.Some? ==>
      |fs| == 1 && fs[0].featureLabel.None? &&
      fs[0].onlineServices == Services(resource.product.onlineServices.value.items, load, linkOf)
  {
    if resource.product.onlineServices.None? then []
    else [OnlineServiceFeature(None, Services(resource.product.onlineServices.value.items, load, linkOf))]
  }

  /** `create`: loads and links each item in turn, skipping the ones that
      fail. */
  method Create(resource: Resource, load: Loader, linkOf: LinkFactory) returns (features: seq<OnlineServiceFeature>)
    ensures features == Features(resource, load, linkOf)
  {
    features := [];
    if resource.product.onlineServices.Some? {
      var items := resource.product.onlineServices.value.items;
      var services: seq<OnlineService> := [];
      for i := 0 to |items|
        invariant services == Services(items[..i], load, linkOf)
      {
        assert items[..i + 1][..i] == items[..i];
        var item := items[i];
        if item.url.Some? {
          var loaded := load(Location(item.url.value, ""));
          if loaded.Ok? {
            var link := linkOf(loaded.value);
            if link.Ok? {
              services := services + [OnlineService(link.value)];
            }
          }
        }
      }
      assert items[..|items|] == items;
      features := features + [OnlineServiceFeature(None, services)];
    }
  }

  /** One item whose url loads and links gives one feature holding that
      link. */
  lemma SampleOneService(resource: Resource, service: Resource, load: Loader, linkOf: LinkFactory)
    requires resource.product.onlineServices == Some(OnlineServices(1, [ServiceItem(Some("/path/to/online/service"))]))
    requires load(Location("/path/to/online/service", "")) == Ok(service)
    requires linkOf(service) == Ok(Link("/path/to/online/service"))
    ensures Features(resource, load, linkOf) ==
      [OnlineServiceFeature(None, [OnlineService(Link("/path/to/online/service"))])]
  {
    var items := [ServiceItem(Some("/path/to/online/service"))];
    assert items[..0] == [];
    assert Services(items, load, linkOf) == ServiceOf(items[0], load, linkOf);
  }
}
