# FreeTAXII server core, modelled in Dafny

This project models the core of the FreeTAXII server, a TAXII 2.1 threat-intelligence sharing server written in Go. The model covers four parts and proves properties about each.

- **Topology assembly** (`freetaxii.go`, inside `main`). At start-up the server:
  - opens the datastore;
  - walks the configuration once and registers one GET route per TAXII resource: discovery services first, then for each API root its own route, its Collections listing and four routes per configured collection (Collection, Objects, Object-by-ID, Manifest);
  - counts the services it started and exits when there are none;
  - picks plain HTTP or TLS.

  Module `Assembly` (assembly.dfy). The router is the sequence of routes registered with it. The methods `ListCollections`, `RegisterCollections`, `RegisterRoot`, `RegisterRoots`, `RegisterDiscovery`, `Assemble` and `Run` follow the nested loops of `main`. Each is proved against a specification function: `Listing`, `AllCollectionRoutes`, `RootRoutes`, `RootsRoutes`, `DiscoveryRoutes`, `Count`, and `Registry` and `ServiceCount`, which are built from them. The lemmas below are proved about those functions.
- **Handler descriptors** (`lib/server/server.go`). Module `Server` (server.dfy).
  - `NewDiscoveryHandler` builds a fresh `ServerHandlerType`, so it is a function.
  - The other three constructors overwrite fields of a receiver. They are methods of the class `ServerHandlerType`, specified by the pure functions `WithAPIRoot`, `WithCollections` and `WithCollection`.
- **Tri-state JSON fields** (`internal/config/jsonTypes.go`). Module `JsonTypes` (json_types.dfy).
  - `JSONbool` and `JSONstring` are classes with the fields `value`, `valid` and `isSet` (Go's `Set`). `set` is a Dafny keyword, hence the rename.
  - Their `UnmarshalJson` methods are proved against the pure transition `Step`.
  - `View` reads the flags as one of three states: absent, `null`, or a value.
- **Error envelope** (`internal/handlers/errors.go`). Module `Errors` (errors.dfy).
  - The six senders share `SendError`. It acts on a `ResponseWriter` class that models Go's `http.ResponseWriter`: headers set after the status line is written no longer reach the client, and a second `WriteHeader` is ignored.
  - `Status` and `Body` form the fixed table. This is the error message resource of section 3.6 of OASIS TAXII Version 2.1.

Module `Resources` (resources.dfy) holds the shared entities:

- the datastore handle. The only backend is SQLite, so the handle is identified by its file name;
- the collection resource: ID, `CanRead`, `CanWrite`;
- Go's map read, which yields the zero value for a missing key.

Module `Wrappers` (wrappers.dfy) holds `Option` and `Result`.

## What the code does not check

- **Per-collection routes are not capability-filtered.** A collection that can be neither read nor written is left out of the Collections listing only; every configured ID still gets its four routes. `RootRoutesCount` has no premise on capabilities.
- **Unknown collection IDs are not rejected.** An ID missing from the collection resources reads as the Go zero resource and still gets its routes. `MissingIdsShareRoutes` shows that two such IDs get identical routes under `<Collections path>/`.
- **Path collisions are not detected.** Routes are registered in order with no check that a path was already taken, and the model registers them the same way.
- **Start-up tests the service counter, not the router.** `main` exits when `serviceCounter` is zero. `ServiceCountMatchesRegistry` proves that this happens exactly when no route was registered.

## Where the source files disagree with each other

- **Constructor versions differ.** `freetaxii.go` calls constructors whose signatures differ from `lib/server/server.go`. Each file is modelled as written.
  - For the routes `freetaxii.go` registers, the Collections route's path is the Collections `FullPath`. The Collection route's path is the `resourceCollectionIDPath` passed to its constructor. These are the paths `main` logs at lines 173 and 193. The fields those unseen constructors would set are not modelled.
- **`server.go` reads an undeclared `cfg`.** `NewAPIRootHandler`, `NewCollectionsHandler` and `NewCollectionHandler` read `cfg.HTML`, which is not declared in them. The model reads the HTML settings from the parameter `c`.
- **The HTML settings have different types.** In `server.go` the HTML settings are plain values. In `freetaxii.go` they are the tri-state fields (`api.HTML.Enabled.Value`, `TemplateFiles.Objects.Value`). The two modules keep their own configuration types.

## Model

| member | source | states |
|---|---|---|
| Assembly.ListCollections | freetaxii.go:159-171 | the Collections listing is exactly `Listing` of the configured IDs: the usable resources, in order |
| Assembly.RegisterCollections | freetaxii.go:186-239 | appends the four routes of every configured ID, in ID order, and nothing else |
| Assembly.RegisterRoot | freetaxii.go:142-241 | appends exactly the routes of one API root; reports a started service exactly when the root is enabled |
| Assembly.RegisterRoots | freetaxii.go:140-243 | appends the routes of all API roots in declared order; counts the enabled ones |
| Assembly.RegisterDiscovery | freetaxii.go:116-128 | registers the enabled discovery services in declared order; counts them |
| Assembly.Assemble | freetaxii.go:116-243 | the routes are `Registry`: discovery routes first, then API root routes; `serviceCounter` is `ServiceCount` |
| Assembly.Run | freetaxii.go:79-292 | serving happens iff the db type is "sqlite3", some service started and the protocol is "http" or "https"; the exit reason is an unknown db type first, then a zero count, then an unknown protocol; the datastore file is `Prefix + DbFile`; the registry served is non-empty; https reads certificate and key under "etc/tls/" |
| Assembly.RootRoutesCount | freetaxii.go:142-239 | disabled root: no routes; Collections disabled: only the API root route; otherwise 2 + 4n routes for n IDs (root, listing first), whatever the capabilities |
| Assembly.RootRoutesAt | freetaxii.go:186-239 | the routes of the k-th configured ID are at positions 2+4k to 5+4k |
| Assembly.CollectionRoutesShape | freetaxii.go:186-237 | Collection, Objects, Object-by-ID, Manifest, at `<Collections path><ID>/`, `objects/`, `objects/{objectid}/`, `manifest/`; Objects and Manifest share the collection ID, datastore and HTML flag; their templates are `FullTemplatePath` + the Objects or Manifest file; Object-by-ID is bound to the same `objectsSrv` as Objects, whose `URLPath` ends as the by-ID path; Manifest's `URLPath` is its route's path |
| Assembly.CollectionRoutesFour | freetaxii.go:186-237 | every configured ID yields exactly four routes |
| Assembly.AllCollectionRoutesKinds | freetaxii.go:186-239 | the per-collection routes are only of the four per-collection kinds |
| Assembly.ListingMembers | freetaxii.go:163-171 | a resource is listed iff some configured ID reads as it and it can be read or written |
| Assembly.ListingSkipsMissing | freetaxii.go:163-171 | an ID missing from the resources (Go zero value) is never listed; the listing is no longer than the IDs |
| Assembly.DisabledServersPruned | freetaxii.go:116-243 | discovery server off: no discovery route; API root server off: only discovery routes; discovery routes precede all others |
| Assembly.DisabledDiscoveryServiceContributesNothing | freetaxii.go:117-127 | removing a disabled discovery service leaves the routes unchanged |
| Assembly.DisabledRootContributesNothing | freetaxii.go:141-242 | removing a disabled API root (with everything under it) leaves the routes unchanged |
| Assembly.RootServiceRoutes | freetaxii.go:142-147 | an API root yields one service route when enabled and no route at all otherwise |
| Assembly.ServiceCountMatchesRegistry | freetaxii.go:116-253 | `serviceCounter` equals the number of discovery and API root routes (never collection routes), and it is zero iff the registry is empty |
| Assembly.MissingIdsShareRoutes | freetaxii.go:186-191 | two IDs missing from the resources get the same four routes, under `<Collections path>/` |
| Server.NewDiscoveryHandler | lib/server/server.go:42-49 | never fails; Type "Discovery"; copies ResourcePath and HTML.Enabled; template is `TemplatePath + "/" + Discovery file`; the other fields keep their zero values |
| Server.Describe | lib/server/server.go:53-76 | the constructors leave CollectionID, RangeMax, DS and Resource unchanged |
| Server.ServerHandlerType.constructor | lib/server/server.go:21-30 | a declared `ServerHandlerType` holds the zero descriptor |
| Server.ServerHandlerType.NewAPIRootHandler | lib/server/server.go:53-58 | new state is `WithAPIRoot` of the old: Type "API-Root", ResourcePath = c.ResourcePath, the HTML fields; nothing else changes |
| Server.ServerHandlerType.NewCollectionsHandler | lib/server/server.go:62-67 | new state is `WithCollections` of the old: Type "Collections", ResourcePath = c.Collections.ResourcePath |
| Server.ServerHandlerType.NewCollectionHandler | lib/server/server.go:71-76 | new state is `WithCollection` of the old: Type "Collection", ResourcePath is exactly `path` |
| Server.KindsDistinct | lib/server/server.go:44-72 | the four constructors give pairwise distinct Type labels, so a descriptor's Type tells which constructor filled it |
| Server.ConstructorsOverwrite | lib/server/server.go:53-76 | any two descriptor fillings in a row (`Describe`, which every constructor is) leave what the second alone leaves, so the last constructor applied decides Type, ResourcePath and the HTML fields, and applying one twice equals applying it once; the three in-place constructors are instances |
| Server.FileNameOfTemplatePath | lib/server/server.go:47 | exactly one "/" separates directory and file: the part after the last "/" of the template path is the file name |
| Server.TemplatePathInjective | lib/server/server.go:47 | in one template directory, distinct files give distinct template paths |
| JsonTypes.JsonBool.constructor | internal/config/jsonTypes.go:17-21 | a key never seen holds the zero struct: value false, not valid, not set |
| JsonTypes.JsonString.constructor | internal/config/jsonTypes.go:27-31 | a key never seen holds the zero struct: value "", not valid, not set |
| JsonTypes.JsonBool.UnmarshalJson | internal/config/jsonTypes.go:37-56 | the new fields and the returned error are `Step` of the old fields, with `true`/`false` as the only booleans |
| JsonTypes.JsonString.UnmarshalJson | internal/config/jsonTypes.go:62-81 | the new fields and the returned error are `Step` of the old fields, with the string decoding as a parameter |
| JsonTypes.View | internal/config/jsonTypes.go:13-31 | a well-formed field is exactly one of unset (not set), null (set, not valid) or present (valid, with its value) |
| JsonTypes.DecodeBoolRoundTrip | internal/config/jsonTypes.go:49-52 | both JSON booleans decode to themselves; `null` decodes without error and leaves the variable false, as in Go (the `null` branch runs first, so this answer is never used) |
| JsonTypes.StepMarksSet | internal/config/jsonTypes.go:37-40 | after any call the field is set, including when the call returns an error |
| JsonTypes.StepNull | internal/config/jsonTypes.go:41-46 | exactly `null` gives the zero value, not valid, no error: the field reads as null |
| JsonTypes.StepDecoded | internal/config/jsonTypes.go:48-55 | a successful non-null decode stores the value, marks it valid, returns no error |
| JsonTypes.StepFailed | internal/config/jsonTypes.go:48-52 | a failed decode returns the error and keeps value and valid as they were |
| JsonTypes.FailedDecodeOfAbsentReadsNull | internal/config/jsonTypes.go:37-52 | a failed decode of an absent key leaves it reading as an explicit null |
| JsonTypes.StepPreservesWellFormed | internal/config/jsonTypes.go:37-56 | every call keeps `valid ==> set`, and set never goes back to false |
| JsonTypes.StepIdempotent | internal/config/jsonTypes.go:37-56 | decoding the same bytes twice leaves the state that decoding them once leaves |
| JsonTypes.ReplayFromAbsent | internal/config/jsonTypes.go:17-56 | from the zero struct, every sequence of calls keeps `valid ==> set`, and after one call the key is set |
| Errors.SendError | internal/handlers/errors.go:20-36 | sets Content-Type to the TAXII 2.1 media type, then writes the status, then appends exactly one body; on a writer with no status sent, the client gets the table's status with that media type |
| Errors.SendUnauthenticatedError | internal/handlers/errors.go:20-36 | 401, the Unauthenticated body, TAXII media type; a status already sent is kept (the second `WriteHeader` is ignored) |
| Errors.SendNotAcceptableError | internal/handlers/errors.go:43-59 | 406, the NotAcceptable body, TAXII media type; a status already sent is kept (the second `WriteHeader` is ignored) |
| Errors.SendUnsupportedMediaTypeError | internal/handlers/errors.go:66-82 | 415, the UnsupportedMediaType body, TAXII media type; a status already sent is kept (the second `WriteHeader` is ignored) |
| Errors.SendGetObjectsError | internal/handlers/errors.go:88-104 | 404, the GetObjects body, TAXII media type; a status already sent is kept (the second `WriteHeader` is ignored) |
| Errors.SendParseObjectsError | internal/handlers/errors.go:110-126 | 400, the ParseObjects body, TAXII media type; a status already sent is kept (the second `WriteHeader` is ignored) |
| Errors.SendStatusNotFound | internal/handlers/errors.go:132-148 | 404, the NotFound body, TAXII media type; a status already sent is kept (the second `WriteHeader` is ignored) |
| Errors.Status | internal/handlers/errors.go:26-138 | the status each sender writes (401, 406, 415, 404, 400, 404) is a 4xx with a standard reason phrase |
| Errors.Body | internal/handlers/errors.go:28-144 | the title, description, `error_code` and `http_status` each sender sets; the `error_code` is the decimal string of the status written |
| Errors.Respond | internal/handlers/errors.go:20-148 | a response on a fresh writer: one document, the TAXII media type, and `error_code` parsing back to the status sent |
| Errors.HttpStatusIsStatusLine | internal/handlers/errors.go:20-148 | `http_status` is `error_code`, a space and the standard reason phrase of that status |
| Errors.ErrorCodeParsesToStatus | internal/handlers/errors.go:20-148 | reading `error_code` as a number gives the status written |
| Errors.ParseDecimalOfDecimal | internal/handlers/errors.go:31 | the decimal rendering of a status reads back as the status |
| Errors.StatusShared | internal/handlers/errors.go:88-148 | distinct kinds share a status only for GetObjects and NotFound (404), and those two differ in title and description |
| Errors.KindOfResponse | internal/handlers/errors.go:88-148 | the status and title identify the kind; GetObjects and NotFound differ by title |
| Errors.MediaTypeErrorsShareTitle | internal/handlers/errors.go:43-82 | NotAcceptable and UnsupportedMediaType share the title "Wrong Media Type" and have different descriptions |

## Left out

- **Process bootstrap is I/O.** This covers command-line flags, the version header, logger levels and the log file. The empty `startAPIRootServer` has no behaviour.
- **Loading the configuration file is outside the model.** The configuration is an input of `Run`. A load failure is fatal before anything modelled here runs.
- **The listener and TLS setup are network I/O.** This covers `ListenAndServe`, `ListenAndServeTLS`, the TLS version, curve and cipher lists, and bind failures. `Run` stops at the transport decision: `Serving` means the listener was started.
- **The datastore is a foreign library.** `sqlite3.New` and `Close` are treated as an opaque handle identified by its file name.
- **Discovery and API root resources are opaque.** A route records the key it was bound to, not the resource behind it.
- **Collection resources are cut down.** Only ID, CanRead and CanWrite are modelled.
- **Handler receivers are assumed to be pointers.** The Objects and Object-by-ID routes are bound to methods of the one local `objectsSrv`, whose `URLPath` is reassigned between the two registrations. The method declarations are not part of this model. `Assembly.Feed` follows the pointer receivers `lib/server/server.go` uses, so both routes see the final, by-ID `URLPath`. With value receivers the Objects handler would keep the `objects/` path.
- **Router matching is outside the model.** This includes the `{objectid}` pattern and the `GET` method restriction. Routes are only appended, in order.
- **Error body encoding is outside the model.** The JSON encoder, its indentation and the `taxiierror` library are left out. The body is the record of title, description, error_code and http_status.
- **The `TAXII 2.1` media-type constant is assumed.** `defs.MEDIA_TYPE_TAXII21` lives in another library. It is taken as "application/taxii+json;version=2.1".
- **JSON string unescaping is a parameter.** `JsonTypes.JsonString.UnmarshalJson` takes the decoder `decode` as an argument.
- **JSON boolean decoding is reduced to the bare tokens.** The data a JSON decoder hands to `UnmarshalJSON` is the bare value token. `JsonTypes.DecodeBool` accepts exactly `true`, `false` and `null`. Inputs padded with whitespace, which `json.Unmarshal` would also accept, are not modelled.
- **Request-handling bodies are not in these files.** This covers authentication, content negotiation, pagination and rendering.
- **Logging is left out.** The log messages of `main` have no effect on the routes.
