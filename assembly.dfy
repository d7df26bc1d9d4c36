/**
 * Service topology assembly, the part of `main` in freetaxii.go that opens
 * the datastore, walks the configuration once and registers one GET route
 * per TAXII resource, counts the services it started and picks the
 * transport.  The router is modelled as the sequence of routes registered
 * with it, in registration order.
 */
module Assembly {
  import opened Resources
  import JsonTypes

  /** Deployment-wide settings. */
  datatype GlobalConfig = GlobalConfig(
    protocol: string,
    listen: string,
    prefix: string,
    dbType: string,
    dbFile: string,
    tlsKey: string,
    tlsCrt: string)

  /** One configured discovery service. */
  datatype DiscoveryService = DiscoveryService(enabled: bool, fullPath: string, resourceID: string)

  /** The discovery services and the flag that turns all of them on or off. */
  datatype DiscoveryServer = DiscoveryServer(enabled: bool, services: seq<DiscoveryService>)

  /** The Collections service of an API root and the IDs of the collections it serves. */
  datatype CollectionsService = CollectionsService(enabled: bool, fullPath: string, resourceIDs: seq<string>)

  /** The template files of the Objects and Manifest resources. */
  datatype TemplateFiles = TemplateFiles(objects: JsonTypes.Field<string>, manifest: JsonTypes.Field<string>)

  /** The HTML rendering settings of an API root. */
  datatype HtmlSettings = HtmlSettings(enabled: JsonTypes.Field<bool>, fullTemplatePath: string, templateFiles: TemplateFiles)

  /** One configured API root service. */
  datatype APIRootService = APIRootService(
    enabled: bool,
    fullPath: string,
    resourceID: string,
    collections: CollectionsService,
    html: HtmlSettings)

  /** The API root services and the flag that turns all of them on or off. */
  datatype APIRootServer = APIRootServer(enabled: bool, services: seq<APIRootService>)

  /** The loaded configuration. */
  datatype Config = Config(
    global: GlobalConfig,
    discoveryServer: DiscoveryServer,
    apiRootServer: APIRootServer,
    collectionResources: map<string, CollectionResource>)

  /** The TAXII resource a route serves. */
  datatype Kind = Discovery | APIRoot | Collections | Collection | Objects | ObjectByID | Manifest

  /** The handler fields of an Objects or Manifest route: the descriptor's `URLPath`, HTML settings, collection and datastore. */
  datatype Feed = Feed(urlPath: string, htmlEnabled: bool, htmlTemplate: string, collectionID: string, ds: Datastore)

  /** What a route's handler was given. */
  datatype Binding =
    | DiscoveryResource(discoveryID: string)
    | APIRootResource(apiRootID: string)
    | CollectionsListing(listing: seq<CollectionResource>)
    | CollectionEntry(entry: CollectionResource)
    | FeedHandler(feed: Feed)

  /** A GET route registered with the router. */
  datatype Route = Route(kind: Kind, path: string, binding: Binding)

  // ---------------------------------------------------------------
  // The registry the assembly produces, as functions of the configuration
  // ---------------------------------------------------------------

  /** The routes `routesOf` gives each item, concatenated in the order of the items. */
  function Flatten<T>(items: seq<T>, routesOf: T -> seq<Route>): seq<Route>
    decreases |items|
  {
    if |items| == 0 then []
    else Flatten(items[..|items| - 1], routesOf) + routesOf(items[|items| - 1])
  }

  /** The number of items that satisfy `p`. */
  function Count<T>(items: seq<T>, p: T -> bool): nat
    decreases |items|
  {
    if |items| == 0 then 0
    else Count(items[..|items| - 1], p) + (if p(items[|items| - 1]) then 1 else 0)
  }

  /** The route of a discovery service. */
  function DiscoveryRoute(c: DiscoveryService): Route {
    Route(Discovery, c.fullPath, DiscoveryResource(c.resourceID))
  }

  /** The routes one discovery service registers: its own when it is enabled. */
  function DiscoveryServiceRoutes(c: DiscoveryService): seq<Route> {
    if c.enabled then [DiscoveryRoute(c)] else []
  }

  /** The routes of the enabled discovery services, in order. */
  function DiscoveryRoutes(services: seq<DiscoveryService>): seq<Route> {
    Flatten(services, DiscoveryServiceRoutes)
  }

  /** The collections of `ids` that can be read or written, in the order of `ids`. */
  function Listing(ids: seq<string>, resources: map<string, CollectionResource>): seq<CollectionResource>
    decreases |ids|
  {
    if |ids| == 0 then []
    else
      var col := Lookup(resources, ids[|ids| - 1]);
      Listing(ids[..|ids| - 1], resources) + (if Usable(col) then [col] else [])
  }

  /** The path of a collection: the Collections path, the resource's ID and a "/". */
  function CollectionPath(api: APIRootService, col: CollectionResource): string {
    api.collections.fullPath + col.id + "/"
  }

  /**
   * The handler fields of a collection's Objects and Object-by-ID routes.
   * Both routes are bound to methods of the one local `objectsSrv`; with a
   * pointer receiver they share that variable, so both see its final state,
   * in which `URLPath` was reassigned to the Object-by-ID path.
   */
  function ObjectsFeed(api: APIRootService, col: CollectionResource, ds: Datastore): Feed {
    Feed(CollectionPath(api, col) + "objects/" + "{objectid}/", api.html.enabled.value,
         api.html.fullTemplatePath + api.html.templateFiles.objects.value, col.id, ds)
  }

  /** The handler fields of a collection's Manifest route. */
  function ManifestFeed(api: APIRootService, col: CollectionResource, ds: Datastore): Feed {
    Feed(CollectionPath(api, col) + "manifest/", api.html.enabled.value,
         api.html.fullTemplatePath + api.html.templateFiles.manifest.value, col.id, ds)
  }

  /** The four routes of one configured collection ID. */
  function CollectionRoutes(api: APIRootService, resources: map<string, CollectionResource>, ds: Datastore, id: string): seq<Route> {
    var col := Lookup(resources, id);
    var path := CollectionPath(api, col);
    [ Route(Collection, path, CollectionEntry(col)),
      Route(Objects, path + "objects/", FeedHandler(ObjectsFeed(api, col, ds))),
      Route(ObjectByID, path + "objects/" + "{objectid}/", FeedHandler(ObjectsFeed(api, col, ds))),
      Route(Manifest, path + "manifest/", FeedHandler(ManifestFeed(api, col, ds))) ]
  }

  /** CollectionRoutes for the collections of `api`, as a function of the ID. */
  function CollectionRoutesOf(api: APIRootService, resources: map<string, CollectionResource>, ds: Datastore): string -> seq<Route> {
    id => CollectionRoutes(api, resources, ds, id)
  }

  /** The routes of the collection IDs `ids`, four per ID, in order. */
  function AllCollectionRoutes(api: APIRootService, resources: map<string, CollectionResource>, ds: Datastore, ids: seq<string>): seq<Route> {
    Flatten(ids, CollectionRoutesOf(api, resources, ds))
  }

  /** The route of an API root. */
  function APIRootRoute(api: APIRootService): Route {
    Route(APIRoot, api.fullPath, APIRootResource(api.resourceID))
  }

  /** The route of an API root's Collections listing. */
  function CollectionsRoute(api: APIRootService, resources: map<string, CollectionResource>): Route {
    Route(Collections, api.collections.fullPath, CollectionsListing(Listing(api.collections.resourceIDs, resources)))
  }

  /** The routes of one API root service. */
  function RootRoutes(api: APIRootService, resources: map<string, CollectionResource>, ds: Datastore): seq<Route> {
    if !api.enabled then []
    else if !api.collections.enabled then [APIRootRoute(api)]
    else [APIRootRoute(api), CollectionsRoute(api, resources)] + AllCollectionRoutes(api, resources, ds, api.collections.resourceIDs)
  }

  /** RootRoutes, as a function of the API root service. */
  function RootRoutesOf(resources: map<string, CollectionResource>, ds: Datastore): APIRootService -> seq<Route> {
    api => RootRoutes(api, resources, ds)
  }

  /** The routes of the API root services, in order. */
  function RootsRoutes(services: seq<APIRootService>, resources: map<string, CollectionResource>, ds: Datastore): seq<Route> {
    Flatten(services, RootRoutesOf(resources, ds))
  }

  /** Every route the assembly registers, in registration order. */
  function Registry(cfg: Config, ds: Datastore): seq<Route> {
    (if cfg.discoveryServer.enabled then DiscoveryRoutes(cfg.discoveryServer.services) else [])
    + (if cfg.apiRootServer.enabled then RootsRoutes(cfg.apiRootServer.services, cfg.collectionResources, ds) else [])
  }

  predicate DiscoveryEnabled(c: DiscoveryService) {
    c.enabled
  }

  predicate RootEnabled(api: APIRootService) {
    api.enabled
  }

  /** The value `serviceCounter` reaches: one per enabled discovery service and one per enabled API root. */
  function ServiceCount(cfg: Config): nat {
    (if cfg.discoveryServer.enabled then Count(cfg.discoveryServer.services, DiscoveryEnabled) else 0)
    + (if cfg.apiRootServer.enabled then Count(cfg.apiRootServer.services, RootEnabled) else 0)
  }

  // ---------------------------------------------------------------
  // The assembly itself
  // ---------------------------------------------------------------

  /**
   * The Collections listing of an API root: the collection resources of
   * `ids` that can be read or written, in order.
   */
  method ListCollections(ids: seq<string>, resources: map<string, CollectionResource>) returns (collections: seq<CollectionResource>)
    ensures collections == Listing(ids, resources)
  {
    collections := [];
    for j := 0 to |ids|
      invariant collections == Listing(ids[..j], resources)
    {
      assert ids[..j + 1][..j] == ids[..j];
      var col := Lookup(resources, ids[j]);
      if col.canRead || col.canWrite {
        collections := collections + [col];
      }
    }
    assert ids[..|ids|] == ids;
  }

  /**
   * Registers, after `registered`, the Collection, Objects, Object-by-ID and
   * Manifest routes of every configured collection ID of `api`.
   */
  method RegisterCollections(registered: seq<Route>, api: APIRootService, resources: map<string, CollectionResource>, ds: Datastore)
    returns (routes: seq<Route>)
    ensures routes == registered + AllCollectionRoutes(api, resources, ds, api.collections.resourceIDs)
  {
    routes := registered;
    var ids := api.collections.resourceIDs;
    for j := 0 to |ids|
      invariant routes == registered + AllCollectionRoutes(api, resources, ds, ids[..j])
    {
      assert ids[..j + 1][..j] == ids[..j];
      var col := Lookup(resources, ids[j]);
      var collectionPath := api.collections.fullPath + col.id + "/";
      routes := routes + [Route(Collection, collectionPath, CollectionEntry(col))];

      // Both handlers are methods of the one `objectsSrv`, so both routes are
      // bound to its final state, after `URLPath` was moved to the by-ID path.
      var objectsSrv := Feed(collectionPath + "objects/", api.html.enabled.value,
                             api.html.fullTemplatePath + api.html.templateFiles.objects.value, col.id, ds);
      var objectsPath := objectsSrv.urlPath;
      objectsSrv := objectsSrv.(urlPath := collectionPath + "objects/" + "{objectid}/");
      routes := routes + [Route(Objects, objectsPath, FeedHandler(objectsSrv)),
                          Route(ObjectByID, objectsSrv.urlPath, FeedHandler(objectsSrv))];

      var manifestSrv := Feed(collectionPath + "manifest/", api.html.enabled.value,
                              api.html.fullTemplatePath + api.html.templateFiles.manifest.value, col.id, ds);
      routes := routes + [Route(Manifest, manifestSrv.urlPath, FeedHandler(manifestSrv))];
    }
    assert ids[..|ids|] == ids;
  }

  /**
   * Registers, after `registered`, the routes of one API root service: its
   * own, then (when its Collections service is enabled) the listing and the
   * routes of its collections.  `started` tells whether a service started.
   */
  method RegisterRoot(registered: seq<Route>, api: APIRootService, resources: map<string, CollectionResource>, ds: Datastore)
    returns (routes: seq<Route>, started: bool)
    ensures routes == registered + RootRoutes(api, resources, ds)
    ensures started == api.enabled
  {
    routes, started := registered, false;
    if api.enabled {
      routes := routes + [Route(APIRoot, api.fullPath, APIRootResource(api.resourceID))];
      started := true;
      if api.collections.enabled {
        var collections := ListCollections(api.collections.resourceIDs, resources);
        routes := routes + [Route(Collections, api.collections.fullPath, CollectionsListing(collections))];
        routes := RegisterCollections(routes, api, resources, ds);
      }
    }
  }

  /** Registers the enabled discovery services, counting each one started. */
  method RegisterDiscovery(services: seq<DiscoveryService>) returns (routes: seq<Route>, started: nat)
    ensures routes == DiscoveryRoutes(services)
    ensures started == Count(services, DiscoveryEnabled)
  {
    routes, started := [], 0;
    for i := 0 to |services|
      invariant routes == DiscoveryRoutes(services[..i])
      invariant started == Count(services[..i], DiscoveryEnabled)
    {
      assert services[..i + 1][..i] == services[..i];
      var c := services[i];
      if c.enabled {
        routes := routes + [Route(Discovery, c.fullPath, DiscoveryResource(c.resourceID))];
        started := started + 1;
      }
    }
    assert services[..|services|] == services;
  }

  /** Registers the API root services after `registered`, counting each one started. */
  method RegisterRoots(registered: seq<Route>, services: seq<APIRootService>, resources: map<string, CollectionResource>, ds: Datastore)
    returns (routes: seq<Route>, started: nat)
    ensures routes == registered + RootsRoutes(services, resources, ds)
    ensures started == Count(services, RootEnabled)
  {
    routes, started := registered, 0;
    for i := 0 to |services|
      invariant routes == registered + RootsRoutes(services[..i], resources, ds)
      invariant started == Count(services[..i], RootEnabled)
    {
      assert services[..i + 1][..i] == services[..i];
      var rootStarted;
      routes, rootStarted := RegisterRoot(routes, services[i], resources, ds);
      if rootStarted {
        started := started + 1;
      }
    }
    assert services[..|services|] == services;
  }

  /**
   * Registers the routes of the configuration with a fresh router and counts
   * the services started: discovery services first, then the API roots.
   */
  method Assemble(cfg: Config, ds: Datastore) returns (routes: seq<Route>, serviceCounter: nat)
    ensures routes == Registry(cfg, ds)
    ensures serviceCounter == ServiceCount(cfg)
  {
    routes, serviceCounter := [], 0;
    if cfg.discoveryServer.enabled {
      routes, serviceCounter := RegisterDiscovery(cfg.discoveryServer.services);
    }
    if cfg.apiRootServer.enabled {
      var started;
      routes, started := RegisterRoots(routes, cfg.apiRootServer.services, cfg.collectionResources, ds);
      serviceCounter := serviceCounter + started;
    }
    assert routes + [] == routes;
  }


  // ---------------------------------------------------------------
  // Properties of Flatten, for any per-item routes
  // ---------------------------------------------------------------

  lemma {:induction false} FlattenAppend<T>(s: seq<T>, t: seq<T>, routesOf: T -> seq<Route>)
    ensures Flatten(s + t, routesOf) == Flatten(s, routesOf) + Flatten(t, routesOf)
    decreases |t|
  {
    if |t| == 0 {
      assert s + t == s;
    } else {
      var t' := t[..|t| - 1];
      assert (s + t)[..|s + t| - 1] == s + t';
      FlattenAppend(s, t', routesOf);
    }
  }

  /** An item that yields no routes can be dropped without changing the result. */
  lemma FlattenDrop<T>(items: seq<T>, i: nat, routesOf: T -> seq<Route>)
    requires i < |items| && routesOf(items[i]) == []
    ensures Flatten(items[..i] + items[i + 1..], routesOf) == Flatten(items, routesOf)
  {
    var before, upto, after := items[..i], items[..i + 1], items[i + 1..];
    assert items == upto + after;
    assert upto[..|upto| - 1] == before && upto[|upto| - 1] == items[i];
    assert Flatten(upto, routesOf) == Flatten(before, routesOf);
    FlattenAppend(upto, after, routesOf);
    FlattenAppend(before, after, routesOf);
  }

  lemma {:induction false} FlattenLength<T>(items: seq<T>, routesOf: T -> seq<Route>)
    requires forall x :: |routesOf(x)| == 4
    ensures |Flatten(items, routesOf)| == 4 * |items|
    decreases |items|
  {
    if |items| > 0 {
      FlattenLength(items[..|items| - 1], routesOf);
    }
  }

  /** With four routes per item, the routes of the k-th item sit at positions 4k to 4k + 3. */
  lemma {:induction false} FlattenAt<T>(items: seq<T>, routesOf: T -> seq<Route>, k: nat)
    requires forall x :: |routesOf(x)| == 4
    requires k < |items|
    ensures |Flatten(items, routesOf)| == 4 * |items|
    ensures Flatten(items, routesOf)[4 * k..4 * k + 4] == routesOf(items[k])
    decreases |items|
  {
    var prefix := items[..|items| - 1];
    FlattenLength(items, routesOf);
    FlattenLength(prefix, routesOf);
    if k < |items| - 1 {
      FlattenAt(prefix, routesOf, k);
      assert items[k] == prefix[k];
    }
  }

  /** When every item yields only routes of kinds in `kinds`, so does the concatenation. */
  lemma {:induction false} FlattenKinds<T>(items: seq<T>, routesOf: T -> seq<Route>, kinds: set<Kind>)
    requires forall x, r :: r in routesOf(x) ==> r.kind in kinds
    ensures forall r :: r in Flatten(items, routesOf) ==> r.kind in kinds
    decreases |items|
  {
    if |items| > 0 {
      FlattenKinds(items[..|items| - 1], routesOf, kinds);
    }
  }

  /** Whether a route is of a kind that starts a service: a discovery service or an API root. */
  predicate StartsService(r: Route) {
    r.kind in {Discovery, APIRoot}
  }

  /** The number of routes that start a service. */
  function ServiceRoutes(routes: seq<Route>): nat {
    Count(routes, StartsService)
  }

  lemma {:induction false} CountAppend<T>(s: seq<T>, t: seq<T>, p: T -> bool)
    ensures Count(s + t, p) == Count(s, p) + Count(t, p)
    decreases |t|
  {
    if |t| == 0 {
      assert s + t == s;
    } else {
      var t' := t[..|t| - 1];
      assert (s + t)[..|s + t| - 1] == s + t';
      CountAppend(s, t', p);
    }
  }

  lemma ServiceRoutesSingle(r: Route)
    ensures ServiceRoutes([r]) == if StartsService(r) then 1 else 0
  {
    assert [r][..0] == [];
    assert Count([r], StartsService) == Count([], StartsService) + (if StartsService(r) then 1 else 0);
  }

  lemma ServiceRoutesAppend(s: seq<Route>, t: seq<Route>)
    ensures ServiceRoutes(s + t) == ServiceRoutes(s) + ServiceRoutes(t)
  {
    CountAppend(s, t, StartsService);
  }

  /**
   * When each item yields one service route if it satisfies `p` and none
   * otherwise, and yields routes only if it satisfies `p`, the
   * concatenation counts the items that satisfy `p` and is empty exactly
   * when there are none.
   */
  lemma {:induction false} FlattenServiceRoutes<T>(items: seq<T>, routesOf: T -> seq<Route>, p: T -> bool)
    requires forall x :: ServiceRoutes(routesOf(x)) == (if p(x) then 1 else 0)
    requires forall x :: routesOf(x) == [] <==> !p(x)
    ensures ServiceRoutes(Flatten(items, routesOf)) == Count(items, p)
    ensures Flatten(items, routesOf) == [] <==> Count(items, p) == 0
    decreases |items|
  {
    if |items| > 0 {
      var prefix, last := items[..|items| - 1], items[|items| - 1];
      FlattenServiceRoutes(prefix, routesOf, p);
      ServiceRoutesAppend(Flatten(prefix, routesOf), routesOf(last));
    }
  }

  // ---------------------------------------------------------------
  // Properties of the registry
  // ---------------------------------------------------------------

  lemma CollectionRoutesFour(api: APIRootService, resources: map<string, CollectionResource>, ds: Datastore)
    ensures forall id :: |CollectionRoutesOf(api, resources, ds)(id)| == 4
  {
  }

  /**
   * An enabled API root with its Collections service enabled registers
   * 2 + 4n routes for n configured IDs, whatever their capabilities; with
   * Collections disabled it registers its own route only, and a disabled
   * API root registers nothing.
   */
  lemma RootRoutesCount(api: APIRootService, resources: map<string, CollectionResource>, ds: Datastore)
    ensures !api.enabled ==> RootRoutes(api, resources, ds) == []
    ensures api.enabled && !api.collections.enabled ==> RootRoutes(api, resources, ds) == [APIRootRoute(api)]
    ensures api.enabled && api.collections.enabled ==>
      |RootRoutes(api, resources, ds)| == 2 + 4 * |api.collections.resourceIDs|
      && RootRoutes(api, resources, ds)[0] == APIRootRoute(api)
      && RootRoutes(api, resources, ds)[1] == CollectionsRoute(api, resources)
  {
    CollectionRoutesFour(api, resources, ds);
    FlattenLength(api.collections.resourceIDs, CollectionRoutesOf(api, resources, ds));
  }

  /**
   * The routes of the k-th collection ID of an enabled API root with
   * Collections enabled sit at positions 2 + 4k to 5 + 4k, after the API
   * root and Collections routes and the routes of the IDs before it.
   */
  lemma RootRoutesAt(api: APIRootService, resources: map<string, CollectionResource>, ds: Datastore, k: nat)
    requires api.enabled && api.collections.enabled
    requires k < |api.collections.resourceIDs|
    ensures |RootRoutes(api, resources, ds)| == 2 + 4 * |api.collections.resourceIDs|
    ensures RootRoutes(api, resources, ds)[2 + 4 * k..6 + 4 * k] == CollectionRoutes(api, resources, ds, api.collections.resourceIDs[k])
  {
    var ids := api.collections.resourceIDs;
    var all := AllCollectionRoutes(api, resources, ds, ids);
    CollectionRoutesFour(api, resources, ds);
    FlattenAt(ids, CollectionRoutesOf(api, resources, ds), k);
    var head := [APIRootRoute(api), CollectionsRoute(api, resources)];
    assert RootRoutes(api, resources, ds) == head + all;
    assert (head + all)[2 + 4 * k..6 + 4 * k] == all[4 * k..4 * k + 4];
  }

  /**
   * The four routes of a collection ID: Collection, Objects, Object-by-ID and
   * Manifest, at the paths built from the Collections path and the
   * resource's ID.  The Objects and Manifest handlers share the collection
   * ID, the datastore and the HTML flag; the Object-by-ID route reuses the
   * Objects handler, whose `URLPath` is therefore the Object-by-ID path,
   * while the Manifest handler's `URLPath` is its own route's path.
   */
  lemma CollectionRoutesShape(api: APIRootService, resources: map<string, CollectionResource>, ds: Datastore, id: string)
    ensures
      var routes := CollectionRoutes(api, resources, ds, id);
      var col := Lookup(resources, id);
      var path := api.collections.fullPath + col.id + "/";
      && |routes| == 4
      && routes[0] == Route(Collection, path, CollectionEntry(col))
      && routes[1].kind == Objects && routes[1].path == path + "objects/"
      && routes[2].kind == ObjectByID && routes[2].path == path + "objects/{objectid}/"
      && routes[3].kind == Manifest && routes[3].path == path + "manifest/"
      && routes[2].binding == routes[1].binding
      && routes[1].binding.FeedHandler? && routes[1].binding.feed.urlPath == routes[2].path
      && routes[3].binding.FeedHandler? && routes[3].binding.feed.urlPath == routes[3].path
      && routes[1].binding.FeedHandler? && routes[3].binding.FeedHandler?
      && routes[1].binding.feed.collectionID == routes[3].binding.feed.collectionID == col.id
      && routes[1].binding.feed.ds == routes[3].binding.feed.ds == ds
      && routes[1].binding.feed.htmlEnabled == routes[3].binding.feed.htmlEnabled == api.html.enabled.value
      && routes[1].binding.feed.htmlTemplate == api.html.fullTemplatePath + api.html.templateFiles.objects.value
      && routes[3].binding.feed.htmlTemplate == api.html.fullTemplatePath + api.html.templateFiles.manifest.value
  {
    var path := api.collections.fullPath + Lookup(resources, id).id + "/";
    assert path + "objects/" + "{objectid}/" == path + "objects/{objectid}/";
  }

  /** A collection is in the Collections listing exactly when one of the IDs names it and it can be read or written. */
  lemma {:induction false} ListingMembers(ids: seq<string>, resources: map<string, CollectionResource>, c: CollectionResource)
    ensures c in Listing(ids, resources) <==> Usable(c) && exists j :: 0 <= j < |ids| && Lookup(resources, ids[j]) == c
    decreases |ids|
  {
    if |ids| > 0 {
      var prefix := ids[..|ids| - 1];
      ListingMembers(prefix, resources, c);
      if Usable(c) && exists j :: 0 <= j < |ids| && Lookup(resources, ids[j]) == c {
        var j :| 0 <= j < |ids| && Lookup(resources, ids[j]) == c;
        if j < |ids| - 1 {
          assert prefix[j] == ids[j];
        }
      }
    }
  }

  lemma {:induction false} ListingLength(ids: seq<string>, resources: map<string, CollectionResource>)
    ensures |Listing(ids, resources)| <= |ids|
    decreases |ids|
  {
    if |ids| > 0 {
      ListingLength(ids[..|ids| - 1], resources);
    }
  }

  /** An ID missing from the collection resources reads as the zero value, which is never listed. */
  lemma ListingSkipsMissing(ids: seq<string>, resources: map<string, CollectionResource>)
    ensures ZeroCollection !in Listing(ids, resources)
    ensures |Listing(ids, resources)| <= |ids|
  {
    ListingMembers(ids, resources, ZeroCollection);
    ListingLength(ids, resources);
  }

  /**
   * Disabled server switches prune whole branches: with the discovery server
   * off no discovery route exists, with the API root server off nothing but
   * discovery routes exists; and discovery routes come before all others.
   */
  lemma DisabledServersPruned(cfg: Config, ds: Datastore)
    ensures !cfg.discoveryServer.enabled ==> forall r :: r in Registry(cfg, ds) ==> r.kind != Discovery
    ensures !cfg.apiRootServer.enabled ==> forall r :: r in Registry(cfg, ds) ==> r.kind == Discovery
    ensures forall i, j :: 0 <= i < j < |Registry(cfg, ds)| && Registry(cfg, ds)[j].kind == Discovery ==> Registry(cfg, ds)[i].kind == Discovery
  {
    var resources := cfg.collectionResources;
    var d: seq<Route> := if cfg.discoveryServer.enabled then DiscoveryRoutes(cfg.discoveryServer.services) else [];
    var a: seq<Route> := if cfg.apiRootServer.enabled then RootsRoutes(cfg.apiRootServer.services, resources, ds) else [];
    FlattenKinds(cfg.discoveryServer.services, DiscoveryServiceRoutes, {Discovery});
    forall api: APIRootService, r | r in RootRoutesOf(resources, ds)(api)
      ensures r.kind in {APIRoot, Collections, Collection, Objects, ObjectByID, Manifest}
    {
      if api.enabled && api.collections.enabled {
        AllCollectionRoutesKinds(api, resources, ds, api.collections.resourceIDs);
      }
    }
    FlattenKinds(cfg.apiRootServer.services, RootRoutesOf(resources, ds), {APIRoot, Collections, Collection, Objects, ObjectByID, Manifest});
    assert Registry(cfg, ds) == d + a;
    forall i, j | 0 <= i < j < |d + a| && (d + a)[j].kind == Discovery ensures (d + a)[i].kind == Discovery {
      assert (d + a)[j] !in a;
      assert (d + a)[i] in d;
    }
  }

  /** A disabled discovery service registers nothing: dropping it from the list leaves the routes as they were. */
  lemma DisabledDiscoveryServiceContributesNothing(services: seq<DiscoveryService>, i: nat)
    requires i < |services| && !services[i].enabled
    ensures DiscoveryRoutes(services[..i] + services[i + 1..]) == DiscoveryRoutes(services)
  {
    FlattenDrop(services, i, DiscoveryServiceRoutes);
  }

  /** A disabled API root registers nothing: dropping it from the list leaves the routes as they were. */
  lemma DisabledRootContributesNothing(services: seq<APIRootService>, i: nat, resources: map<string, CollectionResource>, ds: Datastore)
    requires i < |services| && !services[i].enabled
    ensures RootsRoutes(services[..i] + services[i + 1..], resources, ds) == RootsRoutes(services, resources, ds)
  {
    FlattenDrop(services, i, RootRoutesOf(resources, ds));
  }

  lemma {:induction false} ServiceRoutesNone(routes: seq<Route>)
    requires forall r :: r in routes ==> r.kind !in {Discovery, APIRoot}
    ensures ServiceRoutes(routes) == 0
    decreases |routes|
  {
    if |routes| > 0 {
      ServiceRoutesNone(routes[..|routes| - 1]);
    }
  }

  /** The routes of configured collection IDs are all of the four per-collection kinds. */
  lemma AllCollectionRoutesKinds(api: APIRootService, resources: map<string, CollectionResource>, ds: Datastore, ids: seq<string>)
    ensures forall r :: r in AllCollectionRoutes(api, resources, ds, ids) ==> r.kind in {Collection, Objects, ObjectByID, Manifest}
  {
    var routesOf := CollectionRoutesOf(api, resources, ds);
    forall id, r | r in routesOf(id) ensures r.kind in {Collection, Objects, ObjectByID, Manifest} {
      var four := CollectionRoutes(api, resources, ds, id);
      assert r == four[0] || r == four[1] || r == four[2] || r == four[3];
    }
    FlattenKinds(ids, routesOf, {Collection, Objects, ObjectByID, Manifest});
  }

  /** An API root yields one service route when enabled and no route at all otherwise. */
  lemma RootServiceRoutes(api: APIRootService, resources: map<string, CollectionResource>, ds: Datastore)
    ensures ServiceRoutes(RootRoutes(api, resources, ds)) == if api.enabled then 1 else 0
    ensures RootRoutes(api, resources, ds) == [] <==> !api.enabled
  {
    if api.enabled {
      var head := [APIRootRoute(api)];
      ServiceRoutesSingle(APIRootRoute(api));
      if api.collections.enabled {
        var rest := [CollectionsRoute(api, resources)] + AllCollectionRoutes(api, resources, ds, api.collections.resourceIDs);
        assert RootRoutes(api, resources, ds) == head + rest;
        AllCollectionRoutesKinds(api, resources, ds, api.collections.resourceIDs);
        ServiceRoutesNone(rest);
        ServiceRoutesAppend(head, rest);
      } else {
        assert RootRoutes(api, resources, ds) == head;
      }
    }
  }

  /**
   * `serviceCounter` counts exactly the discovery and API root routes of the
   * registry, never the collection routes; it is zero exactly when the
   * registry is empty, so the check on the counter is the check that there
   * is something to serve.
   */
  lemma ServiceCountMatchesRegistry(cfg: Config, ds: Datastore)
    ensures ServiceRoutes(Registry(cfg, ds)) == ServiceCount(cfg)
    ensures Registry(cfg, ds) == [] <==> ServiceCount(cfg) == 0
  {
    var resources := cfg.collectionResources;
    forall c: DiscoveryService
      ensures ServiceRoutes(DiscoveryServiceRoutes(c)) == if DiscoveryEnabled(c) then 1 else 0
    {
      if c.enabled {
        ServiceRoutesSingle(DiscoveryRoute(c));
      }
    }
    FlattenServiceRoutes(cfg.discoveryServer.services, DiscoveryServiceRoutes, DiscoveryEnabled);
    forall api: APIRootService
      ensures ServiceRoutes(RootRoutesOf(resources, ds)(api)) == if RootEnabled(api) then 1 else 0
      ensures RootRoutesOf(resources, ds)(api) == [] <==> !RootEnabled(api)
    {
      RootServiceRoutes(api, resources, ds);
    }
    FlattenServiceRoutes(cfg.apiRootServer.services, RootRoutesOf(resources, ds), RootEnabled);
    var d: seq<Route> := if cfg.discoveryServer.enabled then DiscoveryRoutes(cfg.discoveryServer.services) else [];
    var a: seq<Route> := if cfg.apiRootServer.enabled then RootsRoutes(cfg.apiRootServer.services, resources, ds) else [];
    ServiceRoutesAppend(d, a);
  }

  /**
   * The Go code does not reject configured IDs that name no collection:
   * every such ID reads as the zero resource, so two of them in one API root
   * get the very same four routes, all under the Collections path + "/".
   */
  lemma MissingIdsShareRoutes(api: APIRootService, resources: map<string, CollectionResource>, ds: Datastore, a: string, b: string)
    requires a !in resources && b !in resources
    ensures CollectionRoutes(api, resources, ds, a) == CollectionRoutes(api, resources, ds, b)
    ensures CollectionRoutes(api, resources, ds, a)[0].path == api.collections.fullPath + "/"
  {
  }

  // ---------------------------------------------------------------
  // Start-up: datastore, routes, service check, transport
  // ---------------------------------------------------------------

  /** Why the server exits before serving. */
  datatype FatalError = UnknownDatabase | NoServices | NoProtocol

  /** How the server listens. */
  datatype Transport = Http(listen: string) | Https(listen: string, certFile: string, keyFile: string)

  /** The end of start-up: a fatal exit, or a listener with the routes it serves. */
  datatype Startup = Fatal(reason: FatalError) | Serving(transport: Transport, ds: Datastore, routes: seq<Route>)

  /** The directory the TLS key and certificate are read from. */
  const TlsDirectory := "etc/tls/"

  /**
   * Start-up after the configuration is loaded: open the datastore (only
   * "sqlite3" is known), register the routes, exit when no service started,
   * then listen over "http" or "https" (anything else is fatal).
   */
  method Run(cfg: Config) returns (outcome: Startup)
    ensures outcome.Serving? <==>
      cfg.global.dbType == "sqlite3" && ServiceCount(cfg) > 0 && cfg.global.protocol in {"http", "https"}
    ensures cfg.global.dbType != "sqlite3" ==> outcome == Fatal(UnknownDatabase)
    ensures cfg.global.dbType == "sqlite3" && ServiceCount(cfg) == 0 ==> outcome == Fatal(NoServices)
    ensures cfg.global.dbType == "sqlite3" && ServiceCount(cfg) > 0 && cfg.global.protocol !in {"http", "https"} ==>
      outcome == Fatal(NoProtocol)
    ensures outcome.Serving? ==>
      && outcome.ds == Sqlite3(cfg.global.prefix + cfg.global.dbFile)
      && outcome.routes == Registry(cfg, outcome.ds)
      && outcome.routes != []
    ensures outcome.Serving? && cfg.global.protocol == "http" ==> outcome.transport == Http(cfg.global.listen)
    ensures outcome.Serving? && cfg.global.protocol == "https" ==>
      outcome.transport == Https(cfg.global.listen, TlsDirectory + cfg.global.tlsCrt, TlsDirectory + cfg.global.tlsKey)
  {
    var ds: Datastore;
    if cfg.global.dbType == "sqlite3" {
      ds := Sqlite3(cfg.global.prefix + cfg.global.dbFile);
    } else {
      return Fatal(UnknownDatabase);
    }

    var routes, serviceCounter := Assemble(cfg, ds);
    if serviceCounter == 0 {
      return Fatal(NoServices);
    }
    ServiceCountMatchesRegistry(cfg, ds);

    if cfg.global.protocol == "http" {
      outcome := Serving(Http(cfg.global.listen), ds, routes);
    } else if cfg.global.protocol == "https" {
      var tlsKeyPath := TlsDirectory + cfg.global.tlsKey;
      var tlsCrtPath := TlsDirectory + cfg.global.tlsCrt;
      outcome := Serving(Https(cfg.global.listen, tlsCrtPath, tlsKeyPath), ds, routes);
    } else {
      outcome := Fatal(NoProtocol);
    }
  }
}
