// The slash-command HTTP service: a router from request path to handler,
// and the guard chain every slash-command request passes before its handler.

module Service {
  import opened Wrappers
  import opened SlashCommand

  /** A JSON response body: `null`, or an object with no exported fields. */
  datatype JsonBody = Null | EmptyObject

  /** What a request is answered with. */
  datatype Response =
    | JsonReply(status: int, json: JsonBody)
    | TextReply(status: int, body: string)
    | HandlerReply(reply: string)

  /** A registered slash-command handler: what it answers a validated query with. */
  type Handler = QueryValue -> Response

  const NotRouted := JsonReply(405, Null)
  const BadQuery := JsonReply(400, EmptyObject)
  const BadToken := TextReply(403, "Invalid token.")

  /** The outcome of the guard chain: a refusal, or the query to hand to the handler. */
  datatype Decision = Refuse(response: Response) | Accept(query: QueryValue)

  /**
   * The guard chain over the routed paths, the allowed token and the
   * deserialised query: route, then fields, then token.
   */
  function Decide(routed: set<string>, allowed: string, path: string, q: QueryValue,
                  err: Option<string>): Decision
  {
    if path !in routed then Refuse(NotRouted)
    else if err.Some? then Refuse(BadQuery)
    else if |allowed| != 0 && allowed != q.token then Refuse(BadToken)
    else Accept(q)
  }

  /** The guard chain for a request carrying `form`, deserialised into a fresh query. */
  function Gate(routed: set<string>, allowed: string, path: string, form: Form): Decision
  {
    Decide(routed, allowed, path, Filled(EmptyQuery, form), FirstMissing(form, RequiredKeys))
  }

  /**
   * A request reaches its handler exactly when its path is routed, every
   * required field is present and no token is configured; its handler then
   * sees the form's fields and an empty token.
   */
  lemma GateAcceptsIff(routed: set<string>, allowed: string, path: string, form: Form)
    ensures Gate(routed, allowed, path, form).Accept? <==>
              path in routed && allowed == "" &&
              forall k :: k in RequiredKeys ==> FormValue(form, k) != ""
    ensures Gate(routed, allowed, path, form).Accept? ==>
              Gate(routed, allowed, path, form).query == Filled(EmptyQuery, form) &&
              Gate(routed, allowed, path, form).query.token == ""
  {
    FirstMissingNoneIff(form, RequiredKeys);
  }

  /** Since the query's token is never filled in, any configured token refuses every valid request. */
  lemma ConfiguredTokenRefusesAll(routed: set<string>, allowed: string, path: string, form: Form)
    requires path in routed && allowed != ""
    requires forall k :: k in RequiredKeys ==> FormValue(form, k) != ""
    ensures Gate(routed, allowed, path, form) == Refuse(BadToken)
  {
    FirstMissingNoneIff(form, RequiredKeys);
  }

  /** Field validation comes before the token check: a bad form is a 400 whatever the token. */
  lemma FieldsCheckedBeforeToken(routed: set<string>, allowed: string, path: string, form: Form)
    requires path in routed
    requires exists k :: k in RequiredKeys && FormValue(form, k) == ""
    ensures Gate(routed, allowed, path, form) == Refuse(BadQuery)
  {
    FirstMissingNoneIff(form, RequiredKeys);
  }

  /** An unrouted path is a 405 whatever the form and the token. */
  lemma UnroutedIsNotAllowed(routed: set<string>, allowed: string, path: string, form: Form)
    requires path !in routed
    ensures Gate(routed, allowed, path, form) == Refuse(NotRouted)
  {
  }

  /** The service's router, listening port and allowed token. */
  class Service {
    var router: map<string, Handler>
    var port: int
    var token: string

    /** A service with no routes, port 0 and no allowed token. */
    constructor()
      ensures router == map[] && port == 0 && token == ""
    {
      router := map[];
      port := 0;
      token := "";
    }

    method SetPort(p: int)
      modifies this
      ensures port == p
      ensures router == old(router) && token == old(token)
    {
      port := p;
    }

    method SetAllowedToken(t: string)
      modifies this
      ensures token == t
      ensures router == old(router) && port == old(port)
    {
      token := t;
    }

    /** Routes `path` to `h`, replacing any earlier handler for it. */
    method RegisterSlashCommandHandler(path: string, h: Handler)
      modifies this
      ensures router == old(router)[path := h]
      ensures port == old(port) && token == old(token)
    {
      router := router[path := h];
    }

    /**
     * Answers a request for `path` carrying `form`: a refusal from the guard
     * chain, or whatever the path's handler answers the query with.
     */
    method HandleSlashCommand(path: string, form: Form) returns (resp: Response)
      ensures Gate(router.Keys, token, path, form).Refuse? ==>
                resp == Gate(router.Keys, token, path, form).response
      ensures Gate(router.Keys, token, path, form).Accept? ==>
                resp == router[path](Gate(router.Keys, token, path, form).query)
    {
      if path in router {
        var h := router[path];
        var cmd := new Query();
        var err := cmd.Deserialize(form);
        if err.Some? {
          return BadQuery;
        }
        if |token| != 0 && token != cmd.token {
          return BadToken;
        }
        return h(cmd.Value());
      } else {
        return NotRouted;
      }
    }
  }
}
