/**
 * `CalmApp`'s registration side: the configuration dictionary and the route
 * map from normalised URI to HTTP method to handler definition.
 */
module Routing {
  import opened Wrappers
  import opened UriTemplate
  import opened HandlerDefs

  /** A configuration value: plain text, or the argument parser class. */
  datatype ConfigValue = Text(text: string) | ParserClass(name: string)

  /** The configuration every application starts from. */
  function DefaultConfig(): map<string, ConfigValue>
  {
    map["argument_parser" := ParserClass("ArgumentParser"),
        "plain_result_key" := Text("result"),
        "error_key" := Text("error")]
  }

  /** The HTTP methods an application registers handlers for. */
  datatype Verb = GET | POST | PUT | DELETE

  /** The method name the decorators pass to `_add_route`. */
  function VerbName(v: Verb): string
  {
    match v
    case GET => "GET"
    case POST => "POST"
    case PUT => "PUT"
    case DELETE => "DELETE"
  }

  /** The route-map key of each method, as `MainHandler` looks it up. */
  function VerbKey(v: Verb): string
  {
    match v
    case GET => "get"
    case POST => "post"
    case PUT => "put"
    case DELETE => "delete"
  }

  function LowerChar(c: char): char
  {
    if 'A' <= c <= 'Z' then (c as int - 'A' as int + 'a' as int) as char else c
  }

  /** `str.lower()` on ASCII text. */
  function Lower(s: string): (r: string)
    ensures |r| == |s| && forall i :: 0 <= i < |s| ==> r[i] == LowerChar(s[i])
  {
    if s == [] then [] else [LowerChar(s[0])] + Lower(s[1..])
  }

  /** The decorators' method names lower-case to the keys `MainHandler` reads. */
  lemma VerbNameLowersToKey(v: Verb)
    ensures Lower(VerbName(v)) == VerbKey(v)
  {
    var n := VerbName(v);
    assert forall i :: 0 <= i < |n| ==> LowerChar(n[i]) == VerbKey(v)[i];
  }

  /** `getattr(function, attribute, fallback)`: the function's own attribute wins whenever it exists. */
  function Precedence(attribute: Option<Option<Resource>>, fallback: Option<Resource>): Option<Resource>
  {
    if attribute.Some? then attribute.value else fallback
  }

  /** `routes[uri][method] = v` on a `defaultdict(dict)`. */
  function WithRoute<V>(routes: map<string, map<string, V>>, uri: string, verb: string, v: V): (r: map<string, map<string, V>>)
    ensures uri in r && verb in r[uri] && r[uri][verb] == v
    ensures r.Keys == routes.Keys + {uri}
    ensures forall u :: u in routes && u != uri ==> r[u] == routes[u]
    ensures r[uri].Keys == (if uri in routes then routes[uri].Keys else {}) + {verb}
    ensures forall m :: uri in routes && m in routes[uri] && m != verb ==> r[uri][m] == routes[uri][m]
  {
    var methods := if uri in routes then routes[uri] else map[];
    routes[uri := methods[verb := v]]
  }

  /** Registering the same URI and method again replaces the earlier handler. */
  lemma RegisterAgainOverwrites<V>(routes: map<string, map<string, V>>, uri: string, verb: string, v: V, w: V)
    ensures WithRoute(WithRoute(routes, uri, verb, v), uri, verb, w) == WithRoute(routes, uri, verb, w)
  {
    var once := WithRoute(routes, uri, verb, w);
    var twice := WithRoute(WithRoute(routes, uri, verb, v), uri, verb, w);
    assert twice[uri] == once[uri];
  }

  /** Registrations for different URI-method pairs do not interfere: their order does not matter. */
  lemma DistinctRoutesCommute<V>(routes: map<string, map<string, V>>, u1: string, m1: string, v1: V, u2: string, m2: string, v2: V)
    requires u1 != u2 || m1 != m2
    ensures WithRoute(WithRoute(routes, u1, m1, v1), u2, m2, v2) == WithRoute(WithRoute(routes, u2, m2, v2), u1, m1, v1)
  {
    if u1 != u2 {
      DistinctUrisCommute(routes, u1, m1, v1, u2, m2, v2);
    } else {
      SameUriCommutes(routes, u1, m1, v1, m2, v2);
    }
  }

  lemma DistinctUrisCommute<V>(routes: map<string, map<string, V>>, u1: string, m1: string, v1: V, u2: string, m2: string, v2: V)
    requires u1 != u2
    ensures WithRoute(WithRoute(routes, u1, m1, v1), u2, m2, v2) == WithRoute(WithRoute(routes, u2, m2, v2), u1, m1, v1)
  {
    var s1 := (if u1 in routes then routes[u1] else map[])[m1 := v1];
    var s2 := (if u2 in routes then routes[u2] else map[])[m2 := v2];
    UpdatesCommute(routes, u1, s1, u2, s2);
  }

  lemma UpdatesCommute<W>(m: map<string, W>, k1: string, w1: W, k2: string, w2: W)
    requires k1 != k2
    ensures m[k1 := w1][k2 := w2] == m[k2 := w2][k1 := w1]
  {
  }

  lemma SameUriCommutes<V>(routes: map<string, map<string, V>>, u: string, m1: string, v1: V, m2: string, v2: V)
    requires m1 != m2
    ensures WithRoute(WithRoute(routes, u, m1, v1), u, m2, v2) == WithRoute(WithRoute(routes, u, m2, v2), u, m1, v1)
  {
    var s := if u in routes then routes[u] else map[];
    UpdatesCommute(s, m1, v1, m2, v2);
  }

  class CalmApp {
    var config: map<string, ConfigValue>
    var routeMap: map<string, map<string, HandlerDef>>

    constructor ()
      ensures config == DefaultConfig() && routeMap == map[]
    {
      config := DefaultConfig();
      routeMap := map[];
    }

    /** `configure(**kwargs)`: the settings given replace or extend the configuration. */
    method Configure(settings: map<string, ConfigValue>)
      modifies this`config
      ensures config == old(config) + settings
      ensures forall k :: k in settings ==> config[k] == settings[k]
      ensures forall k :: k in old(config) && k !in settings ==> k in config && config[k] == old(config)[k]
    {
      config := config + settings;
    }

    /**
     * `_add_route`: normalise the template, build the handler definition
     * (whose error leaves the route map as it was), let the function's own
     * `consumes`/`produces` win over the decorator's, and register it under
     * the lower-cased method.
     */
    method AddRoute(httpMethod: string, handler: Handler, fragments: seq<string>,
                    consumes: Option<Resource>, produces: Option<Resource>)
      returns (r: Result<HandlerDef, DefinitionError>)
      modifies this`routeMap
      ensures var err := PathArgError(Params(handler.signature), PlaceholderNames(Wrapped(fragments)), handler.name);
        (r.Failure? <==> err.Some?) && (r.Failure? ==> r.error == err.value && routeMap == old(routeMap))
      ensures r.Success? ==> fresh(r.value) && r.value.uri == NormalizedUri(fragments) && r.value.handler == handler
      ensures r.Success? ==> r.value.pathArgs == PlaceholderNames(Wrapped(fragments))
      ensures r.Success? ==> r.value.queryArgs == QueryArgsOf(Params(handler.signature), PlaceholderNames(Wrapped(fragments)))
      ensures r.Success? ==> r.value.consumes == Precedence(handler.consumesAttr, consumes)
      ensures r.Success? ==> r.value.produces == Precedence(handler.producesAttr, produces)
      ensures r.Success? ==> routeMap == WithRoute(old(routeMap), NormalizedUri(fragments), Lower(httpMethod), r.value)
    {
      var uri := NormalizeUri(fragments);
      r := HandlerDef.Create(uri, handler, PlaceholderNames(Wrapped(fragments)));
      if r.Failure? {
        return;
      }
      var handlerDef := r.value;
      handlerDef.consumes := Precedence(handler.consumesAttr, consumes);
      handlerDef.produces := Precedence(handler.producesAttr, produces);
      routeMap := WithRoute(routeMap, uri, Lower(httpMethod), handlerDef);
    }

    /** The `get`, `post`, `put` and `delete` decorators. */
    method Route(verb: Verb, handler: Handler, fragments: seq<string>,
                 consumes: Option<Resource>, produces: Option<Resource>)
      returns (r: Result<HandlerDef, DefinitionError>)
      modifies this`routeMap
      ensures var err := PathArgError(Params(handler.signature), PlaceholderNames(Wrapped(fragments)), handler.name);
        (r.Failure? <==> err.Some?) && (r.Failure? ==> r.error == err.value && routeMap == old(routeMap))
      ensures r.Success? ==> fresh(r.value) && r.value.uri == NormalizedUri(fragments) && r.value.handler == handler
      ensures r.Success? ==> r.value.pathArgs == PlaceholderNames(Wrapped(fragments))
      ensures r.Success? ==> r.value.queryArgs == QueryArgsOf(Params(handler.signature), PlaceholderNames(Wrapped(fragments)))
      ensures r.Success? ==> r.value.consumes == Precedence(handler.consumesAttr, consumes)
      ensures r.Success? ==> r.value.produces == Precedence(handler.producesAttr, produces)
      ensures r.Success? ==> routeMap == WithRoute(old(routeMap), NormalizedUri(fragments), VerbKey(verb), r.value)
    {
      VerbNameLowersToKey(verb);
      r := AddRoute(VerbName(verb), handler, fragments, consumes, produces);
    }
  }
}
