/** The route table of `src/routes/index.ts`: two health checks and `POST /api/analyze` behind
    the per-IP gate, in front of the controller. */
module Routes {
  import opened Wrappers
  import opened Http
  import opened Types
  import opened Foreign
  import opened RateLimiter
  import opened AnalyzeController

  datatype Target = Hello | Ping | Analyze | Unrouted

  /** Which handler a request reaches; a path is matched as written. */
  function Route(verb: string, path: string): (t: Target)
    ensures t == Analyze <==> verb == "POST" && path == "/api/analyze"
    ensures t == Hello <==> verb == "GET" && path == "/"
    ensures t == Ping <==> verb == "GET" && path == "/ping"
  {
    if verb == "GET" && path == "/" then Hello
    else if verb == "GET" && path == "/ping" then Ping
    else if verb == "POST" && path == "/api/analyze" then Analyze
    else Unrouted
  }

  datatype HttpRequest = HttpRequest(verb: string, path: string, body: AnalyzeRequest)

  const HelloReply: Reply := Reply(200, MessageOnly("hello"))
  const PingReply: Reply := Reply(200, MessageOnly("Server pinged at Ping"))

  /** What the server does with one request: `None` when no route matches and Express's own
      not-found handler answers. `ipAdmits` is the per-IP gate's decision for this request. */
  datatype Served = Served(reply: Option<Reply>, count: nat, calls: seq<Call>)

  function ServeOutcome(count: nat, genAI: Option<Client>, template: string, platform: Platform, request: HttpRequest,
                        ipAdmits: bool, modelName: Option<string>): Served
  {
    match Route(request.verb, request.path)
    case Hello => Served(Some(HelloReply), count, [])
    case Ping => Served(Some(PingReply), count, [])
    case Unrouted => Served(None, count, [])
    case Analyze =>
      if !ipAdmits then Served(Some(IpRejection(IpLimiter)), count, [])
      else
        var o := ControllerOutcome(count, genAI, template, platform, request.body, modelName);
        Served(Some(o.reply), o.count, o.calls)
  }

  /** The router with the controller it mounts. */
  class Router {
    const controller: Controller

    constructor (controller: Controller)
      ensures this.controller == controller
    {
      this.controller := controller;
    }

    method Serve(platform: Platform, request: HttpRequest, ipAdmits: bool, modelName: Option<string>)
      returns (reply: Option<Reply>, calls: seq<Call>)
      modifies controller.globalLimiter.shared
      ensures ServeOutcome(old(controller.globalLimiter.shared.value), controller.ai.genAI,
                           controller.ai.promptTemplate, platform,
                           request, ipAdmits, modelName)
              == Served(reply, controller.globalLimiter.shared.value, calls)
    {
      match Route(request.verb, request.path)
      case Hello => reply, calls := Some(HelloReply), [];
      case Ping => reply, calls := Some(PingReply), [];
      case Unrouted => reply, calls := None, [];
      case Analyze =>
        if !ipAdmits {
          reply, calls := Some(IpRejection(IpLimiter)), [];
        } else {
          var r;
          r, calls := controller.Handle(platform, request.body, modelName);
          reply := Some(r);
        }
    }
  }

  /** The per-IP gate answers before the global one: a request it rejects gets 429 with the
      per-IP message even when the global count is at the limit, and never reaches the
      controller, so the count is untouched and nothing is called. */
  lemma IpGateComesFirst(count: nat, genAI: Option<Client>, template: string, platform: Platform, request: HttpRequest,
                         modelName: Option<string>)
    requires Route(request.verb, request.path) == Analyze
    ensures var s := ServeOutcome(count, genAI, template, platform, request, false, modelName);
      && s.reply == Some(Reply(429, MessageOnly("Too many requests in a minute, You can make a maximum of 3 requests per minute")))
      && s.count == count && s.calls == []
  {
  }

  /** An admitted `POST /api/analyze` is exactly a run of the controller. */
  lemma AdmittedReachesController(count: nat, genAI: Option<Client>, template: string, platform: Platform, body: AnalyzeRequest,
                                  modelName: Option<string>)
    ensures var s := ServeOutcome(count, genAI, template, platform, HttpRequest("POST", "/api/analyze", body), true, modelName);
      var o := ControllerOutcome(count, genAI, template, platform, body, modelName);
      s == Served(Some(o.reply), o.count, o.calls)
  {
  }

  /** Any other request leaves the global count and the foreign code alone; the health checks
      always give their fixed message, whatever the count. */
  lemma OnlyAnalyzeTouchesState(count: nat, genAI: Option<Client>, template: string, platform: Platform, request: HttpRequest,
                                ipAdmits: bool, modelName: Option<string>)
    requires !(request.verb == "POST" && request.path == "/api/analyze")
    ensures var s := ServeOutcome(count, genAI, template, platform, request, ipAdmits, modelName);
      && s.count == count && s.calls == []
      && (request.verb == "GET" && request.path == "/" ==> s.reply == Some(Reply(200, MessageOnly("hello"))))
      && (request.verb == "GET" && request.path == "/ping" ==>
            s.reply == Some(Reply(200, MessageOnly("Server pinged at Ping"))))
  {
  }

  /** The per-IP gate's configuration: 3 requests per 60 000 ms window. */
  lemma IpLimiterConfiguration()
    ensures IpLimiter.max == 3 && IpLimiter.windowMs == 60000
    ensures IpRejection(IpLimiter).code == 429
  {
  }
}
