/** What the gateway's aggregated document shows, told from the services' own documents and the gateway's route table. */
module OpenApiDocs {
  import opened Common
  import opened OpenApi
  import Routing

  /** The service was reached, and its own document has the path. */
  predicate Documents(f: Fetched, path: string)
    requires Readable(f)
  {
    f.doc.Some? && path in Paths(f.doc.value)
  }

  /** The gateway passes the path on to the service. */
  ghost predicate Proxied(path: string, service: string) {
    exists route :: Routing.ResolveIn(Routing.ALLOWLIST, path) == Some(route) && route.upstream == service + "_service_url"
  }

  lemma FieldKept(service: string, fields: map<string, Json>, name: string)
    requires name in fields && name != "$ref"
    ensures var r := Rewrite(service, Obj(fields)); r.Obj? && name in r.fields && r.fields[name] == Rewrite(service, fields[name])
  {
  }

  /** Namespacing keeps a document's paths, with their references rewritten. */
  lemma PathsKept(service: string, doc: Json)
    requires IsDocument(doc)
    ensures Paths(Namespace(service, doc)).Keys == Paths(doc).Keys
    ensures forall p :: p in Paths(doc) && p != "$ref" ==> Paths(Namespace(service, doc))[p] == Rewrite(service, Paths(doc)[p])
  {
    if "paths" in doc.fields {
      FieldKept(service, doc.fields, "paths");
      var paths := doc.fields["paths"].fields;
      forall p | p in paths && p != "$ref" ensures Rewrite(service, Obj(paths)).fields[p] == Rewrite(service, paths[p]) {
        FieldKept(service, paths, p);
      }
    }
  }

  /** Every name a document's schemas have, and no other, is there under its service's prefix. */
  lemma SchemasKept(service: string, doc: Json)
    requires IsDocument(doc)
    ensures forall name :: name in Schemas(Namespace(service, doc))
                           <==> exists m :: m in Schemas(doc) && name == service + "_" + m
    ensures forall m :: m in Schemas(doc) && m != "$ref" ==>
              service + "_" + m in Schemas(Namespace(service, doc))
              && Schemas(Namespace(service, doc))[service + "_" + m] == Rewrite(service, Schemas(doc)[m])
  {
    SchemasRewritten(service, doc);
    hide Rewrite;
    var schemas := Schemas(Rewritten(service, doc));
    forall name | name in Schemas(Namespace(service, doc)) ensures exists m :: m in Schemas(doc) && name == service + "_" + m {
      var m :| m in schemas && name == Prefixed(service, m);
      assert m in Schemas(doc) && name == service + "_" + m;
    }
    forall m | m in Schemas(doc) ensures service + "_" + m in Schemas(Namespace(service, doc)) {
      assert Prefixed(service, m) == service + "_" + m;
    }
    forall m | m in Schemas(doc) && m != "$ref"
      ensures Schemas(Namespace(service, doc))[service + "_" + m] == Rewrite(service, Schemas(doc)[m])
    {
      assert Prefixed(service, m) == service + "_" + m;
    }
  }

  lemma SchemasRewritten(service: string, doc: Json)
    requires IsDocument(doc)
    ensures Schemas(Rewritten(service, doc)).Keys == Schemas(doc).Keys
    ensures forall m :: m in Schemas(doc) && m != "$ref" ==> Schemas(Rewritten(service, doc))[m] == Rewrite(service, Schemas(doc)[m])
  {
    if "components" in doc.fields {
      FieldKept(service, doc.fields, "components");
      var components := doc.fields["components"].fields;
      if "schemas" in components {
        FieldKept(service, components, "schemas");
        var schemas := components["schemas"].fields;
        forall m | m in schemas && m != "$ref" ensures Rewrite(service, Obj(schemas)).fields[m] == Rewrite(service, schemas[m]) {
          FieldKept(service, schemas, m);
        }
      }
    }
  }

  /**
   The aggregated document shows exactly what the gateway would pass on: a path is in it exactly if some reachable service
   documents it and the gateway resolves it to that very service.
   */
  lemma DocsShowWhatIsProxied(results: seq<Fetched>, paths: map<string, Json>, schemas: map<string, Json>, path: string)
    requires Mergeable(results) && IsMerge(results, |results|, paths, schemas)
    ensures path in paths
            <==> exists n :: 0 <= n < |results| && Documents(results[n], path) && Proxied(path, results[n].service)
  {
    hide Readable, Documents, Proxied, PathsOf, SchemasOf, IsUnion;
    InUnion(PathParts(results), paths, path);
    forall n | 0 <= n < |results|
      ensures path in PathParts(results)[n] <==> Documents(results[n], path) && Proxied(path, results[n].service)
    {
      PartShows(results[n], path);
    }
  }

  lemma InUnion(parts: seq<map<string, Json>>, m: map<string, Json>, key: string)
    requires IsUnion(parts, |parts|, m)
    ensures key in m <==> exists n :: 0 <= n < |parts| && key in parts[n]
  {
  }

  lemma PartShows(f: Fetched, path: string)
    requires Readable(f)
    ensures path in PathsOf(f) <==> Documents(f, path) && Proxied(path, f.service)
  {
    if f.doc.Some? {
      PathsKept(f.service, f.doc.value);
      hide Namespace, Rewrite, Paths, Routing.ResolveIn, IsDocument;
      RoutedMeans(path, f.service);
      hide Routed, Proxied;
    }
  }

  lemma RoutedMeans(path: string, service: string)
    ensures Routed(path, service) <==> Proxied(path, service)
  {
    hide Routing.ResolveIn;
    if Routed(path, service) {
      var route := Routing.ResolveIn(Routing.ALLOWLIST, path).value;
      assert Routing.ResolveIn(Routing.ALLOWLIST, path) == Some(route);
    }
  }

  /** A schema is in the aggregated document exactly if some reachable service has it, under the service's name and an underscore. */
  lemma DocsHaveAllSchemas(results: seq<Fetched>, paths: map<string, Json>, schemas: map<string, Json>, name: string)
    requires Mergeable(results) && IsMerge(results, |results|, paths, schemas)
    ensures name in schemas
            <==> exists n, m :: 0 <= n < |results| && HasSchema(results[n], m) && name == results[n].service + "_" + m
  {
    hide Readable, HasSchema, PathsOf, SchemasOf, IsUnion;
    InUnion(SchemaParts(results), schemas, name);
    forall n | 0 <= n < |results|
      ensures name in SchemaParts(results)[n] <==> exists m :: HasSchema(results[n], m) && name == results[n].service + "_" + m
    {
      PartHas(results[n], name);
    }
  }

  predicate HasSchema(f: Fetched, m: string)
    requires Readable(f)
  {
    f.doc.Some? && m in Schemas(f.doc.value)
  }

  lemma PartHas(f: Fetched, name: string)
    requires Readable(f)
    ensures name in SchemasOf(f) <==> exists m :: HasSchema(f, m) && name == f.service + "_" + m
  {
    if f.doc.Some? {
      SchemasKept(f.service, f.doc.value);
      hide Namespace, Schemas, IsDocument;
      if name in SchemasOf(f) {
        var m :| m in Schemas(f.doc.value) && name == f.service + "_" + m;
        assert HasSchema(f, m);
      }
    }
  }

  /** Exactly the services that gave no document are listed as unreachable. */
  lemma {:induction false} UnreachableIff(results: seq<Fetched>, n: nat, service: string)
    requires n <= |results|
    ensures service in Unreachable(results, n) <==> exists k :: 0 <= k < n && results[k].service == service && results[k].doc.None?
  {
    if n == 0 {
    } else {
      UnreachableIff(results, n - 1, service);
      if results[n - 1].service == service && results[n - 1].doc.None? {
        assert Unreachable(results, n)[|Unreachable(results, n - 1)|] == service;
      }
    }
  }
}
