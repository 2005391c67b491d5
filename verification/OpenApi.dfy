/**
 The gateway's OpenAPI aggregation: component schemas of each service are renamed with the service's
 name, references follow them (section 4.8.23 of the OpenAPI Specification 3.1.0), and the documents
 are merged. A JSON pointer is evaluated as in section 4 of RFC 6901.
 */
module OpenApi {
  import opened Common
  import Routing

  datatype Json =
    | Obj(fields: map<string, Json>)
    | Arr(items: seq<Json>)
    | Str(text: string)
    | Other(code: int)

  const PREFIX := "#/components/schemas/"

  predicate IsRef(s: string) {
    PREFIX <= s
  }

  /** The name under which a service's component is published. */
  function Prefixed(service: string, name: string): string {
    service + "_" + name
  }

  function RewriteRef(service: string, ref: string): string
    requires IsRef(ref)
  {
    PREFIX + Prefixed(service, ref[|PREFIX|..])
  }

  /** Rewrite every `$ref` string that points at a component schema, at any depth. */
  function Rewrite(service: string, j: Json): (r: Json)
    ensures r.Obj? == j.Obj? && (j.Obj? ==> r.fields.Keys == j.fields.Keys)
    ensures r.Arr? == j.Arr? && (j.Arr? ==> |r.items| == |j.items|)
  {
    match j
    case Obj(fields) =>
      Obj(map k | k in fields ::
            if k == "$ref" && fields[k].Str? && IsRef(fields[k].text)
            then Str(RewriteRef(service, fields[k].text))
            else Rewrite(service, fields[k]))
    case Arr(items) => Arr(seq(|items|, i requires 0 <= i < |items| => Rewrite(service, items[i])))
    case Str(_) => j
    case Other(_) => j
  }

  // ---------------------------------------------------------------- documents

  /** `components` and `components.schemas`, where present, are objects, as the code requires. */
  predicate IsDocument(doc: Json) {
    && doc.Obj?
    && ("components" in doc.fields ==>
          && doc.fields["components"].Obj?
          && ("schemas" in doc.fields["components"].fields ==> doc.fields["components"].fields["schemas"].Obj?))
    && ("paths" in doc.fields ==> doc.fields["paths"].Obj?)
  }

  function Components(doc: Json): map<string, Json>
    requires IsDocument(doc)
  {
    if "components" in doc.fields then doc.fields["components"].fields else map[]
  }

  function Schemas(doc: Json): map<string, Json>
    requires IsDocument(doc)
  {
    if "schemas" in Components(doc) then Components(doc)["schemas"].fields else map[]
  }

  function Paths(doc: Json): map<string, Json>
    requires IsDocument(doc)
  {
    if "paths" in doc.fields then doc.fields["paths"].fields else map[]
  }

  lemma PrefixedInjective(service: string, a: string, b: string)
    requires Prefixed(service, a) == Prefixed(service, b)
    ensures a == b
  {
    assert a == Prefixed(service, a)[|service| + 1..];
    assert b == Prefixed(service, b)[|service| + 1..];
  }

  function RenameAll(service: string, schemas: map<string, Json>): (r: map<string, Json>)
    ensures forall name :: name in schemas ==> Prefixed(service, name) in r && r[Prefixed(service, name)] == schemas[name]
    ensures forall key :: key in r ==> exists name :: name in schemas && key == Prefixed(service, name)
  {
    assert forall a, b :: a in schemas && b in schemas && Prefixed(service, a) == Prefixed(service, b) ==> a == b by {
      forall a, b | a in schemas && b in schemas && Prefixed(service, a) == Prefixed(service, b) ensures a == b {
        PrefixedInjective(service, a, b);
      }
    }
    map name | name in schemas :: Prefixed(service, name) := schemas[name]
  }

  function Namespace(service: string, doc: Json): (r: Json)
    requires IsDocument(doc)
    ensures IsDocument(r) && Schemas(r) == RenameAll(service, Schemas(Rewritten(service, doc)))
  {
    var doc' := Rewritten(service, doc);
    Obj(doc'.fields["components" := Obj(Components(doc')["schemas" := Obj(RenameAll(service, Schemas(doc')))])])
  }

  function Rewritten(service: string, doc: Json): (r: Json)
    requires IsDocument(doc)
    ensures r == Rewrite(service, doc) && IsDocument(r)
  {
    Rewrite(service, doc)
  }

  // ---------------------------------------------------------------- JSON pointers

  function Split(s: string): (r: seq<string>)
    ensures r != []
  {
    if s == "" then [""]
    else if s[0] == '/' then [""] + Split(s[1..])
    else var rest := Split(s[1..]); [[s[0]] + rest[0]] + rest[1..]
  }

  /** `~1` stands for a slash, `~0` for a tilde. */
  function Unescape(s: string): string {
    if s == "" then ""
    else if |s| >= 2 && s[0] == '~' && s[1] == '1' then "/" + Unescape(s[2..])
    else if |s| >= 2 && s[0] == '~' && s[1] == '0' then "~" + Unescape(s[2..])
    else [s[0]] + Unescape(s[1..])
  }

  function UnescapeAll(parts: seq<string>): (r: seq<string>)
    ensures |r| == |parts|
  {
    seq(|parts|, i requires 0 <= i < |parts| => Unescape(parts[i]))
  }

  /** The reference tokens of a component reference. */
  function Tokens(ref: string): seq<string>
    requires IsRef(ref)
  {
    ["components", "schemas"] + UnescapeAll(Split(ref[|PREFIX|..]))
  }

  /** An array index: decimal digits without a leading zero. */
  function Index(token: string): Option<nat> {
    if token == "" || (|token| > 1 && token[0] == '0') then None else Digits(token)
  }

  function Digits(token: string): Option<nat> {
    if token == "" then Some(0) else
    var last := token[|token| - 1];
    var before := Digits(token[..|token| - 1]);
    if before.Some? && '0' <= last <= '9' then Some(before.value * 10 + (last as int - '0' as int)) else None
  }

  /** One step of pointer evaluation. */
  function Child(j: Json, token: string): Option<Json> {
    match j
    case Obj(fields) => if token in fields then Some(fields[token]) else None
    case Arr(items) => if Index(token).Some? && Index(token).value < |items| then Some(items[Index(token).value]) else None
    case _ => None
  }

  function Walk(j: Json, tokens: seq<string>): Option<Json> {
    if tokens == [] then Some(j) else
    match Child(j, tokens[0])
    case None => None
    case Some(child) => Walk(child, tokens[1..])
  }

  /** What a component reference refers to. */
  function Target(doc: Json, ref: string): Option<Json>
    requires IsRef(ref)
  {
    Walk(doc, Tokens(ref))
  }

  function RewriteTarget(service: string, target: Option<Json>): Option<Json> {
    if target.None? then None else Some(Rewrite(service, target.value))
  }

  /** The pointer ends on the text of a component reference, not on something that text refers to. */
  predicate EndsOnRefText(j: Json, tokens: seq<string>) {
    && tokens != [] && tokens[|tokens| - 1] == "$ref"
    && Walk(j, tokens).Some? && Walk(j, tokens).value.Str? && IsRef(Walk(j, tokens).value.text)
  }

  // ---------------------------------------------------------------- references are preserved

  lemma RewrittenChild(service: string, j: Json, token: string)
    ensures Child(Rewrite(service, j), token).Some? == Child(j, token).Some?
    ensures Child(j, token).Some? ==>
              Child(Rewrite(service, j), token).value
              == var c := Child(j, token).value;
                 if j.Obj? && token == "$ref" && c.Str? && IsRef(c.text) then Str(RewriteRef(service, c.text))
                 else Rewrite(service, c)
  {
  }

  /** Below any node: the rewritten node has, at the same pointer, the rewritten target, except where the
      pointer ends on the text of a reference. */
  lemma {:induction false} WalkRewritten(service: string, j: Json, tokens: seq<string>)
    ensures Walk(Rewrite(service, j), tokens) == RewriteTarget(service, Walk(j, tokens)) <==> !EndsOnRefText(j, tokens)
    ensures Walk(Rewrite(service, j), tokens).Some? == Walk(j, tokens).Some?
    decreases |tokens|
  {
    if tokens == [] {
    } else {
      RewrittenChild(service, j, tokens[0]);
      if Child(j, tokens[0]).Some? {
        var c := Child(j, tokens[0]).value;
        var rest := tokens[1..];
        if j.Obj? && tokens[0] == "$ref" && c.Str? && IsRef(c.text) {
          RefTextChanges(service, c.text);
          if rest != [] {
            assert Child(c, rest[0]).None? && Child(Str(RewriteRef(service, c.text)), rest[0]).None?;
          } else {
            assert Walk(j, tokens) == Some(c);
          }
        } else {
          WalkRewritten(service, c, rest);
          if rest == [] {
            DollarRefIsNoIndex();
          } else {
            assert tokens[|tokens| - 1] == rest[|rest| - 1];
          }
        }
      }
    }
  }

  /** `$ref` is no array index. */
  lemma DollarRefIsNoIndex()
    ensures Index("$ref") == None
  {
    assert Digits("$ref") == None;
  }

  lemma RefTextChanges(service: string, text: string)
    requires IsRef(text)
    ensures RewriteRef(service, text) != text
  {
    assert |RewriteRef(service, text)| == |text| + |service| + 1;
  }

  lemma {:induction false} SplitPrefixed(head: string, s: string)
    requires '/' !in head
    ensures Split(head + s) == [head + Split(s)[0]] + Split(s)[1..]
  {
    if head == "" {
      assert head + s == s && "" + Split(s)[0] == Split(s)[0];
      assert Split(s) == [Split(s)[0]] + Split(s)[1..];
    } else {
      SplitPrefixed(head[1..], s);
      assert (head + s)[1..] == head[1..] + s;
      assert [head[0]] + (head[1..] + Split(s)[0]) == head + Split(s)[0];
    }
  }

  lemma {:induction false} UnescapePrefixed(head: string, s: string)
    requires '~' !in head
    ensures Unescape(head + s) == head + Unescape(s)
  {
    if head == "" {
      assert head + s == s;
    } else {
      hide Unescape;
      UnescapePrefixed(head[1..], s);
      UnescapeOne(head[0], head[1..] + s);
      Regroup(head, s);
      Regroup(head, Unescape(s));
    }
  }

  lemma UnescapeOne(c: char, s: string)
    requires c != '~'
    ensures Unescape([c] + s) == [c] + Unescape(s)
  {
    assert ([c] + s)[1..] == s;
  }

  lemma Regroup(head: string, s: string)
    requires head != ""
    ensures head + s == [head[0]] + (head[1..] + s)
  {
  }

  /** Service names are plain words. */
  predicate IsServiceName(service: string) {
    '/' !in service && '~' !in service && '_' !in service
  }

  /** Rewriting a reference prefixes its component token and leaves the other tokens alone. */
  lemma RewrittenTokens(service: string, ref: string)
    requires IsRef(ref) && IsServiceName(service)
    ensures IsRef(RewriteRef(service, ref))
    ensures Tokens(RewriteRef(service, ref))
            == ["components", "schemas", Prefixed(service, Tokens(ref)[2])] + Tokens(ref)[3..]
  {
    hide Split, Unescape, UnescapeAll;
    var rest := ref[|PREFIX|..];
    var head := service + "_";
    assert RewriteRef(service, ref)[|PREFIX|..] == head + rest;
    SplitPrefixed(head, rest);
    var parts := Split(rest);
    UnescapePrefixed(head, parts[0]);
    assert parts == [parts[0]] + parts[1..];
    UnescapeFirst(parts[0], parts[1..]);
    UnescapeFirst(head + parts[0], parts[1..]);
  }

  lemma UnescapeFirst(part: string, parts: seq<string>)
    ensures UnescapeAll([part] + parts) == [Unescape(part)] + UnescapeAll(parts)
  {
    hide Unescape;
  }

  lemma WalkThree(doc: Json, name: string, rest: seq<string>)
    requires IsDocument(doc)
    ensures Walk(doc, ["components", "schemas", name] + rest)
            == if name in Schemas(doc) then Walk(Schemas(doc)[name], rest) else None
  {
    var tokens := ["components", "schemas", name] + rest;
    assert tokens[1..] == ["schemas", name] + rest;
    assert tokens[1..][1..] == [name] + rest;
    assert tokens[1..][1..][1..] == rest;
    if "components" in doc.fields {
      var c := doc.fields["components"];
      assert Walk(doc, tokens) == Walk(c, ["schemas", name] + rest);
      if "schemas" in c.fields {
        assert Walk(c, ["schemas", name] + rest) == Walk(c.fields["schemas"], [name] + rest);
      }
    }
  }

  /**
   Namespacing preserves references. Looking up a rewritten reference in the namespaced document gives
   the rewritten target of the original reference in the original document, and finds nothing when the
   original finds nothing. This holds exactly for references that do not end on the text of another
   reference.
   */
  lemma ReferencesPreserved(service: string, doc: Json, ref: string)
    requires IsDocument(doc) && IsServiceName(service) && IsRef(ref)
    ensures IsRef(RewriteRef(service, ref))
    ensures Target(Namespace(service, doc), RewriteRef(service, ref)) == RewriteTarget(service, Target(doc, ref))
            <==> !EndsOnRefText(doc, Tokens(ref))
    ensures Target(Namespace(service, doc), RewriteRef(service, ref)).Some? == Target(doc, ref).Some?
  {
    var tokens := Tokens(ref);
    var name, rest := tokens[2], tokens[3..];
    assert tokens == ["components", "schemas", name] + rest;
    RewrittenTokens(service, ref);
    var ns := Namespace(service, doc);
    WalkThree(doc, name, rest);
    WalkThree(ns, Prefixed(service, name), rest);
    SchemasRewritten(service, doc);
    NamespacedNames(service, doc, name);
    if name in Schemas(doc) {
      WalkRewritten(service, Schemas(doc)[name], rest);
      EndsBelow(doc, name, rest);
    }
  }

  /** A document in which schema A is nothing but a reference to schema B. */
  const ALIASING := Obj(map["components" := Obj(map["schemas" :=
    Obj(map["A" := Obj(map["$ref" := Str(PREFIX + "B")]), "B" := Obj(map[])])])])

  const ALIAS_TEXT := PREFIX + "A/$ref"

  /** The exception occurs: a reference to the text of A's reference does not find it as it was. */
  lemma RefTextIsRewritten(service: string)
    requires IsServiceName(service)
    ensures IsDocument(ALIASING) && IsRef(ALIAS_TEXT) && EndsOnRefText(ALIASING, Tokens(ALIAS_TEXT))
    ensures Target(Namespace(service, ALIASING), RewriteRef(service, ALIAS_TEXT))
            != RewriteTarget(service, Target(ALIASING, ALIAS_TEXT))
  {
    AliasTokens();
    var a := Obj(map["$ref" := Str(PREFIX + "B")]);
    WalkThree(ALIASING, "A", ["$ref"]);
    assert Schemas(ALIASING)["A"] == a;
    assert ["$ref"][1..] == [] && Walk(a, ["$ref"]) == Some(Str(PREFIX + "B"));
    assert ["components", "schemas", "A"] + ["$ref"] == ["components", "schemas", "A", "$ref"];
    ReferencesPreserved(service, ALIASING, ALIAS_TEXT);
  }

  lemma AliasTokens()
    ensures Tokens(ALIAS_TEXT) == ["components", "schemas", "A", "$ref"]
  {
    assert ALIAS_TEXT[|PREFIX|..] == "A" + "/$ref";
    SplitPrefixed("A", "/$ref");
    assert "/$ref"[1..] == "$ref" == "$ref" + "";
    SplitPrefixed("$ref", "");
    PlainToken("A");
    PlainToken("$ref");
    hide Split, Unescape;
    assert UnescapeAll(["A", "$ref"]) == ["A", "$ref"];
  }

  /** A token without a tilde stands for itself. */
  lemma PlainToken(token: string)
    requires '~' !in token
    ensures Unescape(token) == token
  {
    UnescapePrefixed(token, "");
    assert token + "" == token;
  }

  /** Pointers into any other part of the document keep their targets, up to rewriting inside them. */
  lemma OtherPointersPreserved(service: string, doc: Json, tokens: seq<string>)
    requires IsDocument(doc) && |tokens| >= 2 && !(tokens[0] == "components" && tokens[1] == "schemas")
    ensures Walk(Namespace(service, doc), tokens) == RewriteTarget(service, Walk(doc, tokens)) <==> !EndsOnRefText(doc, tokens)
  {
    var ns, doc' := Namespace(service, doc), Rewritten(service, doc);
    WalkRewritten(service, doc, tokens);
    if tokens[0] == "components" {
      assert Child(ns, tokens[0]).Some?;
      var c := Child(ns, tokens[0]).value;
      if "components" in doc.fields {
        assert Child(c, tokens[1]) == Child(doc'.fields["components"], tokens[1]);
        assert Walk(c, tokens[1..]) == Walk(doc'.fields["components"], tokens[1..]);
      } else {
        assert Walk(c, tokens[1..]) == None && Walk(doc', tokens) == None;
      }
    } else {
      assert Child(ns, tokens[0]) == Child(doc', tokens[0]);
      assert Walk(ns, tokens) == Walk(doc', tokens);
    }
  }

  lemma EndsBelow(doc: Json, name: string, rest: seq<string>)
    requires IsDocument(doc) && name in Schemas(doc)
    ensures EndsOnRefText(doc, ["components", "schemas", name] + rest)
            <==> EndsOnRefText(Schemas(doc)[name], rest)
                 || (rest == [] && name == "$ref" && Schemas(doc)[name].Str? && IsRef(Schemas(doc)[name].text))
  {
    WalkThree(doc, name, rest);
    var tokens := ["components", "schemas", name] + rest;
    if rest != [] {
      assert tokens[|tokens| - 1] == rest[|rest| - 1];
    }
  }

  lemma SchemasRewritten(service: string, doc: Json)
    requires IsDocument(doc)
    ensures Schemas(Rewritten(service, doc)).Keys == Schemas(doc).Keys
    ensures forall name :: name in Schemas(doc) ==>
              Schemas(Rewritten(service, doc))[name]
              == var d := Schemas(doc)[name];
                 if name == "$ref" && d.Str? && IsRef(d.text) then Str(RewriteRef(service, d.text)) else Rewrite(service, d)
  {
    var doc' := Rewritten(service, doc);
    if "components" in doc.fields {
      var c := doc.fields["components"];
      assert doc'.fields["components"] == Rewrite(service, c);
      if "schemas" in c.fields {
        assert Rewrite(service, c).fields["schemas"] == Rewrite(service, c.fields["schemas"]);
      }
    }
  }

  lemma NamespacedNames(service: string, doc: Json, name: string)
    requires IsDocument(doc)
    ensures Prefixed(service, name) in Schemas(Namespace(service, doc)) <==> name in Schemas(doc)
  {
    SchemasRewritten(service, doc);
    if Prefixed(service, name) in Schemas(Namespace(service, doc)) {
      var other :| other in Schemas(Rewritten(service, doc)) && Prefixed(service, name) == Prefixed(service, other);
      PrefixedInjective(service, name, other);
    }
  }

  // ---------------------------------------------------------------- the merge

  /** Names from different services never collide. */
  lemma {:induction false} PrefixedNeverCollides(s1: string, n1: string, s2: string, n2: string)
    requires IsServiceName(s1) && IsServiceName(s2) && Prefixed(s1, n1) == Prefixed(s2, n2)
    ensures s1 == s2 && n1 == n2
  {
    if s1 == "" || s2 == "" {
      assert Prefixed(s1, n1)[0] == Prefixed(s2, n2)[0];
      assert s1 == s2;
      PrefixedInjective(s1, n1, n2);
    } else {
      assert Prefixed(s1, n1)[0] == s1[0] && Prefixed(s2, n2)[0] == s2[0];
      assert Prefixed(s1, n1)[1..] == Prefixed(s1[1..], n1);
      assert Prefixed(s2, n2)[1..] == Prefixed(s2[1..], n2);
      PrefixedNeverCollides(s1[1..], n1, s2[1..], n2);
      assert s1 == [s1[0]] + s1[1..] && s2 == [s2[0]] + s2[1..];
    }
  }

  /** A service's name and its document, if it could be fetched. */
  datatype Fetched = Fetched(service: string, doc: Option<Json>)

  /** The paths of a service that the allowlist routes to it. */
  function FilterPaths(service: string, paths: map<string, Json>): (r: map<string, Json>)
    ensures forall p :: p in r <==> p in paths && Routed(p, service)
  {
    map p | p in paths && Routed(p, service) :: paths[p]
  }

  predicate Routed(path: string, service: string) {
    var route := Routing.ResolveIn(Routing.ALLOWLIST, path);
    route.Some? && route.value.upstream == service + "_service_url"
  }

  predicate Readable(f: Fetched) {
    IsServiceName(f.service) && (f.doc.Some? ==> IsDocument(f.doc.value))
  }

  /** What one service contributes. */
  function PathsOf(f: Fetched): map<string, Json>
    requires Readable(f)
  {
    if f.doc.None? then map[] else FilterPaths(f.service, Paths(Namespace(f.service, f.doc.value)))
  }

  function SchemasOf(f: Fetched): map<string, Json>
    requires Readable(f)
  {
    if f.doc.None? then map[] else Schemas(Namespace(f.service, f.doc.value))
  }

  ghost predicate Mergeable(results: seq<Fetched>) {
    && (forall n :: 0 <= n < |results| ==> Readable(results[n]))
    && (forall m, n :: 0 <= m < n < |results| ==> results[m].service != results[n].service)
  }

  /** m holds every entry of the first n parts unchanged, and nothing else. */
  ghost predicate IsUnion(parts: seq<map<string, Json>>, n: nat, m: map<string, Json>)
    requires n <= |parts|
  {
    && (forall j, k :: 0 <= j < n && k in parts[j] ==> k in m && m[k] == parts[j][k])
    && (forall k :: k in m ==> exists j :: 0 <= j < n && k in parts[j])
  }

  function PathParts(results: seq<Fetched>): (parts: seq<map<string, Json>>)
    requires forall n :: 0 <= n < |results| ==> Readable(results[n])
    ensures |parts| == |results|
  {
    seq(|results|, n requires 0 <= n < |results| => PathsOf(results[n]))
  }

  function SchemaParts(results: seq<Fetched>): (parts: seq<map<string, Json>>)
    requires forall n :: 0 <= n < |results| ==> Readable(results[n])
    ensures |parts| == |results|
  {
    seq(|results|, n requires 0 <= n < |results| => SchemasOf(results[n]))
  }

  /** The merged maps hold what every service contributes, unchanged, and nothing else. */
  ghost predicate IsMerge(results: seq<Fetched>, n: nat, paths: map<string, Json>, schemas: map<string, Json>)
    requires Mergeable(results) && n <= |results|
  {
    IsUnion(PathParts(results), n, paths) && IsUnion(SchemaParts(results), n, schemas)
  }

  const SERVICES: seq<string> := ["auth", "user", "product", "inventory", "cart", "order", "payment", "shipping"]

  /** The services the gateway aggregates can always be merged. */
  lemma ServicesMergeable(results: seq<Fetched>)
    requires |results| == |SERVICES|
    requires forall n :: 0 <= n < |SERVICES| ==>
               results[n].service == SERVICES[n] && (results[n].doc.Some? ==> IsDocument(results[n].doc.value))
    ensures Mergeable(results)
  {
    ServiceNames();
    hide IsServiceName, IsDocument;
  }

  lemma ServiceNames()
    ensures forall n :: 0 <= n < |SERVICES| ==> IsServiceName(SERVICES[n])
    ensures forall m, n :: 0 <= m < n < |SERVICES| ==> SERVICES[m] != SERVICES[n]
  {
    FirstServiceNames();
    LastServiceNames();
    hide IsServiceName;
  }

  lemma FirstServiceNames()
    ensures IsServiceName("auth") && IsServiceName("user") && IsServiceName("product") && IsServiceName("inventory")
  {
  }

  lemma LastServiceNames()
    ensures IsServiceName("cart") && IsServiceName("order") && IsServiceName("payment") && IsServiceName("shipping")
  {
  }

  lemma ServiceSuffix(a: string, b: string)
    requires a + "_service_url" == b + "_service_url"
    ensures a == b
  {
    assert a == (a + "_service_url")[..|a|] && b == (b + "_service_url")[..|b|];
    assert |a| == |b|;
  }

  /** Two services contribute neither a common path nor a common schema name. */
  lemma NoCollision(a: Fetched, b: Fetched, key: string)
    requires Readable(a) && Readable(b) && a.service != b.service
    ensures !(key in PathsOf(a) && key in PathsOf(b))
    ensures !(key in SchemasOf(a) && key in SchemasOf(b))
  {
    if key in PathsOf(a) && key in PathsOf(b) {
      ServiceSuffix(a.service, b.service);
    }
    if key in SchemasOf(a) && key in SchemasOf(b) {
      var m :| m in Schemas(Rewritten(a.service, a.doc.value)) && key == Prefixed(a.service, m);
      var n :| n in Schemas(Rewritten(b.service, b.doc.value)) && key == Prefixed(b.service, n);
      PrefixedNeverCollides(a.service, m, b.service, n);
    }
  }

  /** The services among the first n results that gave no document, in order. */
  function Unreachable(results: seq<Fetched>, n: nat): seq<string>
    requires n <= |results|
  {
    if n == 0 then [] else
    var earlier := Unreachable(results, n - 1);
    if results[n - 1].doc.None? then earlier + [results[n - 1].service] else earlier
  }

  /** The merge loop of `_build`. */
  method Build(results: seq<Fetched>) returns (paths: map<string, Json>, schemas: map<string, Json>, unreachable: seq<string>)
    requires Mergeable(results)
    ensures IsMerge(results, |results|, paths, schemas)
    ensures unreachable == Unreachable(results, |results|)
  {
    paths, schemas, unreachable := map[], map[], [];
    var n := 0;
    NothingMerged(results);
    hide IsMerge, Mergeable, Readable, IsDocument, PathsOf, SchemasOf, Namespace, FilterPaths, Paths, Schemas;
    while n < |results|
      invariant n <= |results|
      invariant IsMerge(results, n, paths, schemas)
      invariant unreachable == Unreachable(results, n)
    {
      MergeStep(results, n, paths, schemas);
      Contribution(results, n, paths, schemas);
      var f := results[n];
      if f.doc.None? {
        unreachable := unreachable + [f.service];
      } else {
        var namespaced := Namespace(f.service, f.doc.value);
        paths := paths + FilterPaths(f.service, Paths(namespaced));
        schemas := schemas + Schemas(namespaced);
      }
      n := n + 1;
    }
  }

  lemma NothingMerged(results: seq<Fetched>)
    requires Mergeable(results)
    ensures IsMerge(results, 0, map[], map[])
  {
  }

  lemma Contribution(results: seq<Fetched>, n: nat, paths: map<string, Json>, schemas: map<string, Json>)
    requires Mergeable(results) && n < |results|
    ensures var f := results[n];
            && Readable(f)
            && (f.doc.None? ==> paths + PathsOf(f) == paths && schemas + SchemasOf(f) == schemas)
            && (f.doc.Some? ==>
                  && IsDocument(f.doc.value)
                  && PathsOf(f) == FilterPaths(f.service, Paths(Namespace(f.service, f.doc.value)))
                  && SchemasOf(f) == Schemas(Namespace(f.service, f.doc.value)))
  {
  }

  lemma UnionStep(parts: seq<map<string, Json>>, n: nat, m: map<string, Json>)
    requires n < |parts| && IsUnion(parts, n, m)
    requires forall j, k :: 0 <= j < n && k in parts[j] ==> k !in parts[n]
    ensures IsUnion(parts, n + 1, m + parts[n])
  {
  }

  lemma MergeStep(results: seq<Fetched>, n: nat, paths: map<string, Json>, schemas: map<string, Json>)
    requires Mergeable(results) && n < |results| && IsMerge(results, n, paths, schemas)
    ensures IsMerge(results, n + 1, paths + PathsOf(results[n]), schemas + SchemasOf(results[n]))
  {
    hide PathsOf, SchemasOf, Readable, IsUnion;
    forall j, k | 0 <= j < n && k in PathParts(results)[j] ensures k !in PathParts(results)[n] {
      NoCollision(results[j], results[n], k);
    }
    forall j, k | 0 <= j < n && k in SchemaParts(results)[j] ensures k !in SchemaParts(results)[n] {
      NoCollision(results[j], results[n], k);
    }
    UnionStep(PathParts(results), n, paths);
    UnionStep(SchemaParts(results), n, schemas);
  }

  /** The merge does not depend on the order in which the services answered. */
  lemma MergeOrderIrrelevant(results: seq<Fetched>, results': seq<Fetched>,
                             paths: map<string, Json>, schemas: map<string, Json>,
                             paths': map<string, Json>, schemas': map<string, Json>)
    requires Mergeable(results) && Mergeable(results') && multiset(results) == multiset(results')
    requires IsMerge(results, |results|, paths, schemas) && IsMerge(results', |results'|, paths', schemas')
    ensures paths == paths' && schemas == schemas'
  {
    hide PathsOf, SchemasOf, Readable;
    forall m | 0 <= m < |results|
      ensures PathParts(results)[m] in PathParts(results') && SchemaParts(results)[m] in SchemaParts(results')
    {
      var n := Elsewhere(results, results', m);
      assert PathParts(results')[n] == PathParts(results)[m] && SchemaParts(results')[n] == SchemaParts(results)[m];
    }
    forall m | 0 <= m < |results'|
      ensures PathParts(results')[m] in PathParts(results) && SchemaParts(results')[m] in SchemaParts(results)
    {
      var n := Elsewhere(results', results, m);
      assert PathParts(results)[n] == PathParts(results')[m] && SchemaParts(results)[n] == SchemaParts(results')[m];
    }
    UnionUnique(PathParts(results), PathParts(results'), paths, paths');
    UnionUnique(SchemaParts(results), SchemaParts(results'), schemas, schemas');
  }

  lemma UnionUnique(parts: seq<map<string, Json>>, parts': seq<map<string, Json>>, m: map<string, Json>, m': map<string, Json>)
    requires IsUnion(parts, |parts|, m) && IsUnion(parts', |parts'|, m')
    requires forall j :: 0 <= j < |parts| ==> parts[j] in parts'
    requires forall j :: 0 <= j < |parts'| ==> parts'[j] in parts
    ensures m == m'
  {
    UnionCovered(parts, parts', m, m');
    UnionCovered(parts', parts, m', m);
  }

  lemma UnionCovered(parts: seq<map<string, Json>>, parts': seq<map<string, Json>>, m: map<string, Json>, m': map<string, Json>)
    requires IsUnion(parts, |parts|, m) && IsUnion(parts', |parts'|, m')
    requires forall j :: 0 <= j < |parts| ==> parts[j] in parts'
    ensures forall k :: k in m ==> k in m' && m'[k] == m[k]
  {
    forall k | k in m ensures k in m' && m'[k] == m[k] {
      var j :| 0 <= j < |parts| && k in parts[j];
      var i :| 0 <= i < |parts'| && parts'[i] == parts[j];
    }
  }

  lemma Elsewhere(results: seq<Fetched>, results': seq<Fetched>, m: nat) returns (n: nat)
    requires m < |results| && multiset(results) == multiset(results')
    ensures n < |results'| && results'[n] == results[m]
  {
    assert results[m] in multiset(results');
    n :| 0 <= n < |results'| && results'[n] == results[m];
  }
}
