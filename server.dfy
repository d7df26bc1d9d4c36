/**
 * Handler descriptors of lib/server/server.go: a `ServerHandlerType` holds
 * the configuration a generic TAXII handler needs.  `NewDiscoveryHandler`
 * builds a fresh one; the other three constructors overwrite four fields of
 * an existing one in place.
 */
module Server {
  import opened Wrappers
  import opened Resources

  /** The template file names of the HTML rendering configuration. */
  datatype TemplateFiles = TemplateFiles(discovery: string, apiRoot: string, collections: string, collection: string)

  /** The HTML rendering configuration of a service. */
  datatype HtmlConfig = HtmlConfig(enabled: bool, templatePath: string, templateFiles: TemplateFiles)

  /** The configuration of a discovery service. */
  datatype DiscoveryServiceConfig = DiscoveryServiceConfig(resourcePath: string, html: HtmlConfig)

  /** The collections part of an API root service's configuration. */
  datatype CollectionsServiceConfig = CollectionsServiceConfig(resourcePath: string)

  /** The configuration of an API root service. */
  datatype APIRootServiceConfig = APIRootServiceConfig(resourcePath: string, collections: CollectionsServiceConfig, html: HtmlConfig)

  /** The fields of a `ServerHandlerType`, as a value. */
  datatype Handler = Handler(
    kind: string,
    resourcePath: string,
    htmlEnabled: bool,
    htmlTemplate: string,
    collectionID: string,
    rangeMax: int,
    ds: Option<Datastore>,
    resource: Resource)

  /** Go's zero `ServerHandlerType`. */
  const ZeroHandler := Handler("", "", false, "", "", 0, None, NoResource)

  /** The type labels the four constructors set. */
  const DiscoveryKind := "Discovery"
  const APIRootKind := "API-Root"
  const CollectionsKind := "Collections"
  const CollectionKind := "Collection"

  /** Why a constructor failed; `NewDiscoveryHandler` never does. */
  datatype HandlerError = HandlerError

  /** A template file path: the template directory, one "/", the file name. */
  function TemplatePath(dir: string, file: string): string {
    dir + "/" + file
  }

  /** The part of a path after its last "/" (all of it when there is none). */
  function FileName(path: string): string
    decreases |path|
  {
    if |path| == 0 || path[|path| - 1] == '/' then ""
    else FileName(path[..|path| - 1]) + [path[|path| - 1]]
  }

  /** A file name without "/" is recovered whole from the template path built from it. */
  lemma {:induction false} FileNameOfTemplatePath(dir: string, file: string)
    requires '/' !in file
    ensures FileName(TemplatePath(dir, file)) == file
    decreases |file|
  {
    var p := TemplatePath(dir, file);
    if |file| > 0 {
      var shorter := file[..|file| - 1];
      assert p[..|p| - 1] == TemplatePath(dir, shorter);
      assert p[|p| - 1] == file[|file| - 1];
      assert '/' !in shorter by {
        forall i | 0 <= i < |shorter| ensures shorter[i] != '/' {
          assert shorter[i] == file[i];
        }
      }
      FileNameOfTemplatePath(dir, shorter);
      assert file == shorter + [file[|file| - 1]];
    } else {
      assert p[|p| - 1] == '/';
    }
  }

  /** Different file names give different template paths in the same directory. */
  lemma TemplatePathInjective(dir: string, f1: string, f2: string)
    requires TemplatePath(dir, f1) == TemplatePath(dir, f2)
    ensures f1 == f2
  {
    assert f1 == TemplatePath(dir, f1)[|dir| + 1..];
  }

  /**
   * What every constructor writes: the type label, the resource path and the
   * two HTML fields.  The other fields of `h` are left as they are.
   */
  function Describe(h: Handler, kind: string, path: string, html: HtmlConfig, file: string): (r: Handler)
    ensures r.collectionID == h.collectionID && r.rangeMax == h.rangeMax
    ensures r.ds == h.ds && r.resource == h.resource
  {
    h.(kind := kind, resourcePath := path, htmlEnabled := html.enabled,
       htmlTemplate := TemplatePath(html.templatePath, file))
  }

  /** `NewDiscoveryHandler`: a fresh descriptor filled from the discovery configuration; the error is always nil. */
  function NewDiscoveryHandler(cfg: DiscoveryServiceConfig): (r: Result<Handler, HandlerError>)
    ensures r.Success?
    ensures r.value.kind == DiscoveryKind && r.value.resourcePath == cfg.resourcePath
    ensures r.value.htmlEnabled == cfg.html.enabled
    ensures r.value.htmlTemplate == TemplatePath(cfg.html.templatePath, cfg.html.templateFiles.discovery)
    ensures r.value.collectionID == "" && r.value.rangeMax == 0 && r.value.ds == None && r.value.resource == NoResource
  {
    Success(Describe(ZeroHandler, DiscoveryKind, cfg.resourcePath, cfg.html, cfg.html.templateFiles.discovery))
  }

  /** The effect of `NewAPIRootHandler` on the descriptor's fields. */
  function WithAPIRoot(h: Handler, c: APIRootServiceConfig): Handler {
    Describe(h, APIRootKind, c.resourcePath, c.html, c.html.templateFiles.apiRoot)
  }

  /** The effect of `NewCollectionsHandler` on the descriptor's fields. */
  function WithCollections(h: Handler, c: APIRootServiceConfig): Handler {
    Describe(h, CollectionsKind, c.collections.resourcePath, c.html, c.html.templateFiles.collections)
  }

  /** The effect of `NewCollectionHandler` on the descriptor's fields. */
  function WithCollection(h: Handler, c: APIRootServiceConfig, path: string): Handler {
    Describe(h, CollectionKind, path, c.html, c.html.templateFiles.collection)
  }

  /** A descriptor's Type tells which of the four constructors last filled it. */
  lemma KindsDistinct(h: Handler, d: DiscoveryServiceConfig, c: APIRootServiceConfig, path: string)
    ensures
      var kinds := [NewDiscoveryHandler(d).value.kind, WithAPIRoot(h, c).kind,
                    WithCollections(h, c).kind, WithCollection(h, c, path).kind];
      forall i, j :: 0 <= i < j < 4 ==> kinds[i] != kinds[j]
  {
    assert DiscoveryKind[0] != APIRootKind[0] && DiscoveryKind[0] != CollectionsKind[0];
    assert APIRootKind[0] != CollectionKind[0];
    assert |CollectionsKind| != |CollectionKind|;
  }

  /**
   * Every constructor is a `Describe`, which writes the same four fields and
   * nothing else: of two in a row the second decides them, and running one
   * twice is running it once.  The in-place constructors are instances.
   */
  lemma ConstructorsOverwrite(h: Handler, a: APIRootServiceConfig, b: APIRootServiceConfig, path: string,
                              k1: string, p1: string, c1: HtmlConfig, f1: string,
                              k2: string, p2: string, c2: HtmlConfig, f2: string)
    ensures Describe(Describe(h, k1, p1, c1, f1), k2, p2, c2, f2) == Describe(h, k2, p2, c2, f2)
    ensures WithCollection(WithAPIRoot(h, a), b, path) == WithCollection(h, b, path)
    ensures WithAPIRoot(WithCollections(h, a), b) == WithAPIRoot(h, b)
    ensures WithCollections(WithCollection(h, a, path), b) == WithCollections(h, b)
    ensures WithAPIRoot(WithAPIRoot(h, a), a) == WithAPIRoot(h, a)
  {
  }

  /** `ServerHandlerType`, for the three constructors that fill a receiver in place. */
  class ServerHandlerType {
    var kind: string
    var resourcePath: string
    var htmlEnabled: bool
    var htmlTemplate: string
    var collectionID: string
    var rangeMax: int
    var ds: Option<Datastore>
    var resource: Resource

    /** The fields as a value. */
    function Fields(): Handler
      reads this
    {
      Handler(kind, resourcePath, htmlEnabled, htmlTemplate, collectionID, rangeMax, ds, resource)
    }

    /** A zero `ServerHandlerType`, as `var s ServerHandlerType` declares it. */
    constructor ()
      ensures Fields() == ZeroHandler
    {
      kind, resourcePath, htmlEnabled, htmlTemplate := "", "", false, "";
      collectionID, rangeMax, ds, resource := "", 0, None, NoResource;
    }

    /** `NewAPIRootHandler`. */
    method NewAPIRootHandler(c: APIRootServiceConfig)
      modifies this
      ensures Fields() == WithAPIRoot(old(Fields()), c)
      ensures kind == APIRootKind && resourcePath == c.resourcePath
    {
      kind := APIRootKind;
      resourcePath := c.resourcePath;
      htmlEnabled := c.html.enabled;
      htmlTemplate := c.html.templatePath + "/" + c.html.templateFiles.apiRoot;
    }

    /** `NewCollectionsHandler`. */
    method NewCollectionsHandler(c: APIRootServiceConfig)
      modifies this
      ensures Fields() == WithCollections(old(Fields()), c)
      ensures kind == CollectionsKind && resourcePath == c.collections.resourcePath
    {
      kind := CollectionsKind;
      resourcePath := c.collections.resourcePath;
      htmlEnabled := c.html.enabled;
      htmlTemplate := c.html.templatePath + "/" + c.html.templateFiles.collections;
    }

    /** `NewCollectionHandler`: the resource path is exactly `path`. */
    method NewCollectionHandler(c: APIRootServiceConfig, path: string)
      modifies this
      ensures Fields() == WithCollection(old(Fields()), c, path)
      ensures kind == CollectionKind && resourcePath == path
    {
      kind := CollectionKind;
      resourcePath := path;
      htmlEnabled := c.html.enabled;
      htmlTemplate := c.html.templatePath + "/" + c.html.templateFiles.collection;
    }
  }
}
