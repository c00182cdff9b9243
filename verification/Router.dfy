/** The static router: which routes fit a request, and in which order they are tried. */
module Router {
  import opened Wrappers

  datatype Api = NoApi | AnthropicMessages | OpenAIResponses | OpenAIChatCompletions | OtherApi(name: string)

  datatype Capabilities = Capabilities(streaming: bool, tools: bool, jsonMode: bool, jsonSchema: bool, reasoning: bool,
                                       vision: bool, audioInput: bool)

  /** What is known of a model's reasoning efforts: a list, mapped values, and the values the parameter takes. */
  datatype Metadata = Metadata(efforts: seq<string>, mapped: map<string, string>, values: Option<seq<string>>)

  /** The answer of a route's model resolver to this request. */
  datatype Resolution = NoResolver | Unavailable | Resolved(native: string, caps: Option<Capabilities>, meta: Option<Metadata>)

  datatype StaticRoute = StaticRoute(
    sourceApi: Api,
    model: string,
    nativeModel: string,
    dynamicModels: bool,
    weight: int,
    priority: int,
    hasClient: bool,
    caps: Capabilities,         // the endpoint's, or what the capability resolver answers
    meta: Option<Metadata>,
    resolution: Resolution)

  datatype Format = NoFormat | Json | JsonSchema | OtherFormat

  datatype PartKind = TextKind | ImageKind | AudioKind | OtherKind

  datatype Request = Request(
    sourceApi: Api,
    model: string,
    stream: bool,
    needsTools: bool,
    format: Format,
    reasoning: Option<string>,  // the effort asked for, "" when reasoning is asked for without one
    messages: seq<seq<PartKind>>)

  // ------------------------------------------------------------------
  // Which routes fit
  // ------------------------------------------------------------------

  predicate SameApi(req: Request, r: StaticRoute) {
    req.sourceApi == NoApi || r.sourceApi == NoApi || r.sourceApi == req.sourceApi
  }

  predicate Exact(req: Request, r: StaticRoute) {
    SameApi(req, r) && (r.model == req.model || r.nativeModel == req.model)
  }

  predicate HasExact(req: Request, routes: seq<StaticRoute>) {
    exists k :: 0 <= k < |routes| && Exact(req, routes[k])
  }

  /** The route is for this request, whatever it can do. */
  predicate Matches(req: Request, routes: seq<StaticRoute>, k: nat)
    requires k < |routes|
  {
    && !(HasExact(req, routes) && routes[k].dynamicModels)
    && SameApi(req, routes[k]) && (routes[k].model == "" || routes[k].model == req.model)
  }

  function CapsOf(r: StaticRoute): Capabilities {
    if r.resolution.Resolved? && r.resolution.caps.Some? then r.resolution.caps.value else r.caps
  }

  function MetaOf(r: StaticRoute): Option<Metadata> {
    if r.resolution.Resolved? && r.resolution.meta.Some? then r.resolution.meta else r.meta
  }

  predicate SupportsEffort(meta: Option<Metadata>, effort: string) {
    || meta.None?
    || effort in meta.value.efforts
    || (effort in meta.value.mapped && meta.value.mapped[effort] != "")
    || meta.value.values.None? || meta.value.values.value == []
    || effort in meta.value.values.value
  }

  predicate Uses(req: Request, kind: PartKind) {
    exists m, p :: 0 <= m < |req.messages| && 0 <= p < |req.messages[m]| && req.messages[m][p] == kind
  }

  /** The capabilities suffice for the request. */
  predicate Satisfies(req: Request, caps: Capabilities, meta: Option<Metadata>) {
    && (req.stream ==> caps.streaming)
    && (req.needsTools ==> caps.tools)
    && (req.format == Json ==> caps.jsonMode) && (req.format == JsonSchema ==> caps.jsonSchema)
    && (req.reasoning.Some? ==> caps.reasoning)
    && (req.reasoning.Some? && req.reasoning.value != "" ==> SupportsEffort(meta, req.reasoning.value))
    && (Uses(req, ImageKind) ==> caps.vision) && (Uses(req, AudioKind) ==> caps.audioInput)
  }

  predicate Eligible(req: Request, routes: seq<StaticRoute>, k: nat)
    requires k < |routes|
  {
    Matches(req, routes, k) && !routes[k].resolution.Unavailable? && Satisfies(req, CapsOf(routes[k]), MetaOf(routes[k]))
  }

  /** Empty when the capabilities suffice, else the first reason they do not. */
  method CapabilityMismatch(req: Request, caps: Capabilities, meta: Option<Metadata>) returns (reason: string)
    ensures reason == "" <==> Satisfies(req, caps, meta)
  {
    if req.stream && !caps.streaming {
      return "streaming required";
    }
    if req.needsTools && !caps.tools {
      return "tools required";
    }
    match req.format {
      case Json =>
        if !caps.jsonMode {
          return "json mode required";
        }
      case JsonSchema =>
        if !caps.jsonSchema {
          return "json schema required";
        }
      case _ =>
    }
    if req.reasoning.Some? && !caps.reasoning {
      return "reasoning required";
    }
    if req.reasoning.Some? && req.reasoning.value != "" && !SupportsEffort(meta, req.reasoning.value) {
      return "reasoning effort unsupported";
    }
    for m := 0 to |req.messages|
      invariant forall i, j | 0 <= i < m && 0 <= j < |req.messages[i]| :: Able(req.messages[i][j], caps)
    {
      for p := 0 to |req.messages[m]|
        invariant forall j | 0 <= j < p :: Able(req.messages[m][j], caps)
      {
        if req.messages[m][p] == ImageKind && !caps.vision {
          assert Uses(req, ImageKind);
          return "vision required";
        }
        if req.messages[m][p] == AudioKind && !caps.audioInput {
          assert Uses(req, AudioKind);
          return "audio input required";
        }
        assert Able(req.messages[m][p], caps);
      }
    }
    return "";
  }

  predicate Able(kind: PartKind, caps: Capabilities) {
    (kind == ImageKind ==> caps.vision) && (kind == AudioKind ==> caps.audioInput)
  }

  // ------------------------------------------------------------------
  // Order
  // ------------------------------------------------------------------

  function SourceAPIRank(api: Api): int {
    match api
    case AnthropicMessages => 0
    case OpenAIResponses => 1
    case OpenAIChatCompletions => 2
    case _ => 10
  }

  /** Positive when a is to be tried before b. */
  function RouteRank(req: Request, a: StaticRoute, b: StaticRoute): int {
    if a.weight != b.weight then a.weight - b.weight
    else if req.sourceApi == NoApi && SourceAPIRank(a.sourceApi) != SourceAPIRank(b.sourceApi) then
      SourceAPIRank(b.sourceApi) - SourceAPIRank(a.sourceApi)
    else a.priority - b.priority
  }

  predicate Better(req: Request, a: StaticRoute, b: StaticRoute) { RouteRank(req, a, b) > 0 }

  /** The order in words: by weight, then by source API when the request names none, then by priority. */
  lemma BetterIsLexicographic(req: Request, a: StaticRoute, b: StaticRoute)
    ensures Better(req, a, b) <==>
      || a.weight > b.weight
      || (a.weight == b.weight
          && var sa, sb := SourceAPIRank(a.sourceApi), SourceAPIRank(b.sourceApi);
             if req.sourceApi == NoApi && sa != sb then sa < sb else a.priority > b.priority)
  {
  }

  /** A strict weak order, as the sort requires. */
  lemma BetterIsStrictWeak(req: Request, a: StaticRoute, b: StaticRoute, c: StaticRoute)
    ensures !Better(req, a, a)
    ensures Better(req, a, b) ==> !Better(req, b, a)
    ensures Better(req, a, b) && Better(req, b, c) ==> Better(req, a, c)
    ensures !Better(req, a, b) && !Better(req, b, a) && !Better(req, b, c) && !Better(req, c, b)
        ==> !Better(req, a, c) && !Better(req, c, a)
  {
  }

  /** Route i is tried before route j: it is better, or as good and declared before. */
  predicate Before(req: Request, routes: seq<StaticRoute>, i: nat, j: nat)
    requires i < |routes| && j < |routes|
  {
    Better(req, routes[i], routes[j]) || (!Better(req, routes[j], routes[i]) && i < j)
  }

  lemma BeforeIsTotal(req: Request, routes: seq<StaticRoute>, i: nat, j: nat, k: nat)
    requires i < |routes| && j < |routes| && k < |routes|
    ensures i == j || Before(req, routes, i, j) || Before(req, routes, j, i)
    ensures !(Before(req, routes, i, j) && Before(req, routes, j, i))
    ensures Before(req, routes, i, j) && Before(req, routes, j, k) ==> Before(req, routes, i, k)
  {
  }

  predicate InRange(order: seq<nat>, n: nat) {
    forall x | 0 <= x < |order| :: order[x] < n
  }

  predicate Sorted(req: Request, routes: seq<StaticRoute>, order: seq<nat>)
    requires InRange(order, |routes|)
  {
    forall x, y | 0 <= x < y < |order| :: Before(req, routes, order[x], order[y])
  }

  /** order lists exactly the routes that fit, each once, the one to be tried first at the front. */
  predicate Answers(req: Request, routes: seq<StaticRoute>, order: seq<nat>) {
    && InRange(order, |routes|) && Sorted(req, routes, order)
    && forall k: nat | k < |routes| :: k in order <==> Eligible(req, routes, k)
  }

  lemma EmptyOrInhabited(order: seq<nat>)
    ensures order == [] || exists k :: k in order
  {
    if order != [] {
      assert order[0] in order;
    }
  }

  /** There is only one such list: the order is decided by the routes and the request. */
  lemma {:induction false} OrderIsUnique(req: Request, routes: seq<StaticRoute>, a: seq<nat>, b: seq<nat>)
    requires InRange(a, |routes|) && InRange(b, |routes|) && Sorted(req, routes, a) && Sorted(req, routes, b)
    requires forall k: nat | k < |routes| :: k in a <==> k in b
    ensures a == b
  {
    if a == [] {
      EmptyOrInhabited(b);
    } else {
      assert a[0] in a;
      FirstIsFirst(req, routes, a, b);
      SameTails(req, routes, a, b);
      OrderIsUnique(req, routes, a[1..], b[1..]);
    }
  }

  lemma FirstIsFirst(req: Request, routes: seq<StaticRoute>, a: seq<nat>, b: seq<nat>)
    requires InRange(a, |routes|) && InRange(b, |routes|) && Sorted(req, routes, a) && Sorted(req, routes, b)
    requires forall k: nat | k < |routes| :: k in a <==> k in b
    requires a != []
    ensures b != [] && a[0] == b[0]
  {
    assert a[0] in a && a[0] in b;
    var x :| 0 <= x < |b| && b[x] == a[0];
    assert b[0] in b && b[0] in a;
    var y :| 0 <= y < |a| && a[y] == b[0];
    if a[0] != b[0] {
      assert Before(req, routes, a[0], a[y]) && Before(req, routes, b[0], b[x]);
      BeforeIsTotal(req, routes, a[0], b[0], a[0]);
    }
  }

  lemma SameTails(req: Request, routes: seq<StaticRoute>, a: seq<nat>, b: seq<nat>)
    requires InRange(a, |routes|) && InRange(b, |routes|) && Sorted(req, routes, a) && Sorted(req, routes, b)
    requires forall k: nat | k < |routes| :: k in a <==> k in b
    requires a != [] && b != [] && a[0] == b[0]
    ensures forall k: nat | k < |routes| :: k in a[1..] <==> k in b[1..]
  {
    OnlyOnce(req, routes, a);
    OnlyOnce(req, routes, b);
    forall k: nat | k < |routes| ensures k in a[1..] <==> k in b[1..] {
      assert k in a <==> k == a[0] || k in a[1..];
      assert k in b <==> k == b[0] || k in b[1..];
    }
  }

  lemma OnlyOnce(req: Request, routes: seq<StaticRoute>, a: seq<nat>)
    requires InRange(a, |routes|) && Sorted(req, routes, a) && a != []
    ensures a[0] !in a[1..]
  {
    forall x | 0 <= x < |a[1..]| ensures a[1..][x] != a[0] {
      assert Before(req, routes, a[0], a[x + 1]);
    }
  }

  // ------------------------------------------------------------------
  // The router as the source has it
  // ------------------------------------------------------------------

  datatype Route = Route(declared: nat, sourceApi: Api, publicModel: string, nativeModel: string, caps: Capabilities,
                         meta: Option<Metadata>)

  function RouteOf(req: Request, r: StaticRoute, k: nat): Route {
    Route(k, if req.sourceApi == NoApi then r.sourceApi else req.sourceApi, req.model,
          if r.resolution.Resolved? && r.resolution.native != "" then r.resolution.native
          else FirstNonEmpty(r.nativeModel, req.model),
          CapsOf(r), MetaOf(r))
  }

  datatype RouteError = NoClient | NoRoute(skipped: nat)

  class StaticRouter {
    const routes: seq<StaticRoute>

    constructor (routes: seq<StaticRoute>)
      ensures this.routes == routes
    {
      this.routes := routes;
    }

    method HasExactRoute(req: Request) returns (r: bool)
      ensures r == HasExact(req, routes)
    {
      for k := 0 to |routes|
        invariant forall i | 0 <= i < k :: !Exact(req, routes[i])
      {
        if req.sourceApi != NoApi && routes[k].sourceApi != NoApi && routes[k].sourceApi != req.sourceApi {
          continue;
        }
        if routes[k].model == req.model || routes[k].nativeModel == req.model {
          assert Exact(req, routes[k]);
          return true;
        }
      }
      return false;
    }

    /** The routes that fit, in declaration order; no answer when one that matches has no client. */
    method Candidates(req: Request) returns (candidates: Option<seq<nat>>, skipped: nat)
      ensures candidates.None? <==> exists k :: 0 <= k < |routes| && Matches(req, routes, k) && !routes[k].hasClient
      ensures candidates.Some? ==>
        && InRange(candidates.value, |routes|)
        && (forall x, y | 0 <= x < y < |candidates.value| :: candidates.value[x] < candidates.value[y])
        && forall k: nat | k < |routes| :: k in candidates.value <==> Eligible(req, routes, k)
    {
      skipped := 0;
      var found: seq<nat> := [];
      var hasExactRoute := HasExactRoute(req);
      for k := 0 to |routes|
        invariant InRange(found, k)
        invariant forall x, y | 0 <= x < y < |found| :: found[x] < found[y]
        invariant forall i: nat | i < k :: i in found <==> Eligible(req, routes, i)
        invariant forall i: nat | i < k :: Matches(req, routes, i) ==> routes[i].hasClient
      {
        var route := routes[k];
        if hasExactRoute && route.dynamicModels {
          continue;
        }
        if req.sourceApi != NoApi && route.sourceApi != NoApi && route.sourceApi != req.sourceApi {
          continue;
        }
        if route.model != "" && route.model != req.model {
          continue;
        }
        assert Matches(req, routes, k);
        if !route.hasClient {
          return None, skipped;
        }
        if route.resolution.Unavailable? {
          skipped := skipped + 1;
          continue;
        }
        var reason := CapabilityMismatch(req, CapsOf(route), MetaOf(route));
        if reason != "" {
          skipped := skipped + 1;
          continue;
        }
        found := found + [k];
      }
      candidates := Some(found);
    }

    /** sort.SliceStable over the candidates. */
    method SortStable(req: Request, candidates: seq<nat>) returns (order: seq<nat>)
      requires InRange(candidates, |routes|)
      requires forall x, y | 0 <= x < y < |candidates| :: candidates[x] < candidates[y]
      ensures InRange(order, |routes|) && Sorted(req, routes, order)
      ensures forall k :: k in order <==> k in candidates
    {
      order := [];
      for n := 0 to |candidates|
        invariant InRange(order, |routes|) && Sorted(req, routes, order)
        invariant forall k :: k in order <==> k in candidates[..n]
      {
        var c := candidates[n];
        var x := |order|;
        while x > 0 && Better(req, routes[c], routes[order[x - 1]])
          invariant 0 <= x <= |order|
          invariant forall y | x <= y < |order| :: Better(req, routes[c], routes[order[y]])
        {
          x := x - 1;
        }
        InsertSorts(req, routes, order, x, c, candidates[..n]);
        order := order[..x] + [c] + order[x..];
        assert candidates[..n + 1] == candidates[..n] + [c];
      }
      assert candidates[..|candidates|] == candidates;
    }

    method Routes(req: Request) returns (result: Result<seq<Route>, RouteError>, ghost order: seq<nat>)
      ensures (exists k :: 0 <= k < |routes| && Matches(req, routes, k) && !routes[k].hasClient) ==> result == Err(NoClient)
      ensures !(exists k :: 0 <= k < |routes| && Matches(req, routes, k) && !routes[k].hasClient) ==>
        && Answers(req, routes, order)
        && (result.Ok? <==> order != [])
        && (result.Ok? ==>
             && |result.value| == |order|
             && forall x | 0 <= x < |order| :: result.value[x] == RouteOf(req, routes[order[x]], order[x]))
    {
      var candidates, skipped := Candidates(req);
      order := [];
      if candidates.None? {
        return Err(NoClient), order;
      }
      if |candidates.value| > 0 {
        var sorted := SortStable(req, candidates.value);
        order := sorted;
        assert candidates.value[0] in sorted;
        var answer: seq<Route> := [];
        for x := 0 to |sorted|
          invariant |answer| == x
          invariant forall y | 0 <= y < x :: answer[y] == RouteOf(req, routes[sorted[y]], sorted[y])
        {
          answer := answer + [RouteOf(req, routes[sorted[x]], sorted[x])];
        }
        return Ok(answer), order;
      }
      return Err(NoRoute(skipped)), order;
    }
  }

  /** A candidate declared after all those sorted so far goes in front of those it is better than. */
  lemma InsertSorts(req: Request, routes: seq<StaticRoute>, order: seq<nat>, x: nat, c: nat, earlier: seq<nat>)
    requires InRange(order, |routes|) && Sorted(req, routes, order) && c < |routes| && x <= |order|
    requires forall k :: k in order <==> k in earlier
    requires forall y | 0 <= y < |earlier| :: earlier[y] < c
    requires forall y | x <= y < |order| :: Better(req, routes[c], routes[order[y]])
    requires x > 0 ==> !Better(req, routes[c], routes[order[x - 1]])
    ensures InRange(order[..x] + [c] + order[x..], |routes|) && Sorted(req, routes, order[..x] + [c] + order[x..])
  {
    var r := order[..x] + [c] + order[x..];
    forall y | 0 <= y < |order| ensures order[y] < c {
      assert order[y] in order;
    }
    forall y | 0 <= y < x ensures Before(req, routes, order[y], c) {
      if y < x - 1 {
        assert Before(req, routes, order[y], order[x - 1]);
      }
    }
    assert InRange(r, |routes|) by {
      forall i | 0 <= i < |r| ensures r[i] < |routes| {
        if i > x {
          assert r[i] == order[i - 1];
        }
      }
    }
    forall i, j | 0 <= i < j < |r| ensures Before(req, routes, r[i], r[j]) {
      if j < x {
        assert Before(req, routes, order[i], order[j]);
      } else if j > x && i < x {
        assert r[j] == order[j - 1] && Before(req, routes, order[i], order[j - 1]);
      } else if j > x && i > x {
        assert r[i] == order[i - 1] && r[j] == order[j - 1] && Before(req, routes, order[i - 1], order[j - 1]);
      }
    }
  }

  /** A dynamic route is never an answer when some route names the model exactly. */
  lemma NoDynamicBesideExact(req: Request, routes: seq<StaticRoute>, order: seq<nat>, x: nat)
    requires Answers(req, routes, order) && x < |order| && HasExact(req, routes)
    ensures !routes[order[x]].dynamicModels
  {
    assert order[x] in order;
  }

  /** The route would do, were it not for the rule on dynamic routes. */
  predicate Usable(req: Request, r: StaticRoute) {
    && SameApi(req, r) && (r.model == "" || r.model == req.model)
    && !r.resolution.Unavailable? && Satisfies(req, CapsOf(r), MetaOf(r))
  }

  /**
   What the rule costs: although some route would do, the answer is empty exactly when
   only dynamic ones would and some route counts as exact, usable or not.
   */
  lemma SuppressionLeavesNoneIff(req: Request, routes: seq<StaticRoute>, order: seq<nat>, d: nat)
    requires Answers(req, routes, order) && d < |routes| && Usable(req, routes[d])
    ensures order == [] <==>
      HasExact(req, routes) && forall k | 0 <= k < |routes| && Usable(req, routes[k]) :: routes[k].dynamicModels
  {
    EmptyOrInhabited(order);
    forall k | 0 <= k < |routes|
      ensures k in order <==> Usable(req, routes[k]) && !(HasExact(req, routes) && routes[k].dynamicModels)
    {
      assert k in order <==> Eligible(req, routes, k);
    }
    if order == [] {
      assert d !in order;
    }
  }

  /** It happens: a route counts as exact for its native model although its own model keeps it from being used. */
  lemma UnusableExactSuppresses(req: Request, r: StaticRoute, d: StaticRoute, order: seq<nat>)
    requires SameApi(req, r) && r.nativeModel == req.model && r.model != "" && r.model != req.model
    requires Usable(req, d) && d.dynamicModels && Answers(req, [r, d], order)
    ensures order == []
  {
    var routes := [r, d];
    assert Exact(req, routes[0]) && !Usable(req, routes[0]);
    SuppressionLeavesNoneIff(req, routes, order, 1);
  }

  /**
   Every route of an answer carries the capabilities and metadata the request was checked
   against: those its resolver gives before the declared ones.  So it is for the native
   model, which is the requested one only when neither gives another.
   */
  lemma AnswersCarryWhatWasChecked(req: Request, routes: seq<StaticRoute>, order: seq<nat>, x: nat)
    requires Answers(req, routes, order) && x < |order|
    ensures
      var r := routes[order[x]];
      var a := RouteOf(req, r, order[x]);
      && Satisfies(req, a.caps, a.meta)
      && (r.resolution.Resolved? && r.resolution.native != "" ==> a.nativeModel == r.resolution.native)
      && (r.resolution.Resolved? && r.resolution.caps.Some? ==> Some(a.caps) == r.resolution.caps)
      && (r.resolution.Resolved? && r.resolution.meta.Some? ==> a.meta == r.resolution.meta)
      && (r.resolution == NoResolver || r.resolution == Resolved("", None, None) ==>
           a.nativeModel == (if r.nativeModel == "" then req.model else r.nativeModel) && a.caps == r.caps && a.meta == r.meta)
      && a.publicModel == req.model && (a.nativeModel == "" ==> req.model == "")
      && a.sourceApi == (if req.sourceApi == NoApi then r.sourceApi else req.sourceApi)
      && (r.sourceApi != NoApi ==> a.sourceApi == r.sourceApi)
  {
    assert order[x] in order;
    assert Eligible(req, routes, order[x]);
  }
}
