/** The gateway's request handling (package server, server.go): the routing of
    ServeHTTP and handleClientsAPI, the status decisions of the admin API and the
    rate-limited hand-off to the load balancer. Request bodies arrive already
    decoded (None stands for a body that fails to decode), responses are values,
    and forwarding to a backend is an outcome rather than I/O. */
module Gateway {
  import opened Options
  import opened RateLimitTypes
  import opened Utils
  import opened TokenBuckets
  import opened Clients
  import opened Balancer

  const ClientsPath := "/api/clients"

  const StatusOK := 200
  const StatusCreated := 201
  const StatusNoContent := 204
  const StatusBadRequest := 400
  const StatusNotFound := 404
  const StatusMethodNotAllowed := 405
  const StatusTooManyRequests := 429
  const StatusInternalServerError := 500
  const StatusServiceUnavailable := 503

  /** The optional fields of a PATCH body; an absent field is None. */
  datatype Patch = Patch(capacity: Option<int>, ratePerSec: Option<int>)

  /** A request as the handlers see it: method, path, the client_id query value
      ("" when absent), headers, peer address, and what each handler's body
      decoding yields. */
  datatype Request = Request(
    verb: string,
    path: string,
    clientIDParam: string,
    header: Header,
    remoteAddr: string,
    createBody: Option<ClientConfig>,
    deleteBody: Option<string>,
    patchBody: Option<Patch>)

  datatype Body =
    | Empty
    | ErrorMessage(message: string)
    | OneClient(config: ClientConfig)
    | ClientList(clients: map<string, ClientConfig>)
    | CreatedClient(location: string, config: ClientConfig)
    | Limited(denial: RateLimitResponse)

  /** A response written by the gateway, a request handed to a backend's reverse
      proxy, or a handler that panicked. */
  datatype Response = Reply(status: int, body: Body) | Relayed(backend: nat) | Aborted

  /** WriteErrorResponse. (Not defined in the files modelled here; the
      model takes it to write the status with the message as the body.) */
  function ErrorResponse(status: int, message: string): (r: Response)
    ensures r.Reply? && r.status == status && r.body == ErrorMessage(message)
  {
    Reply(status, ErrorMessage(message))
  }

  // ---------------------------------------------------------------------
  // Routing

  datatype Route = HealthRoute | ListRoute | CreateRoute | DeleteRoute | PatchRoute | NotAllowedRoute | ProxyRoute

  /** The dispatch of ServeHTTP and handleClientsAPI: the health probe first,
      then the four admin methods on the clients path (any other method there is
      refused), and everything else to the proxy. */
  function RouteOf(path: string, verb: string): (r: Route)
    ensures r == HealthRoute <==> path == "/health" && verb == "GET"
    ensures r == ListRoute <==> path == ClientsPath && verb == "GET"
    ensures r == CreateRoute <==> path == ClientsPath && verb == "POST"
    ensures r == DeleteRoute <==> path == ClientsPath && verb == "DELETE"
    ensures r == PatchRoute <==> path == ClientsPath && verb == "PATCH"
    ensures r == NotAllowedRoute <==>
              path == ClientsPath && verb != "GET" && verb != "POST" && verb != "DELETE" && verb != "PATCH"
    ensures r == ProxyRoute <==> path != ClientsPath && !(path == "/health" && verb == "GET")
  {
    if IsHealthCheckRequest(path, verb) then HealthRoute
    else if path == ClientsPath then
      if verb == MethodGet then ListRoute
      else if verb == MethodPost then CreateRoute
      else if verb == MethodDelete then DeleteRoute
      else if verb == MethodPatch then PatchRoute
      else NotAllowedRoute
    else ProxyRoute
  }

  // ---------------------------------------------------------------------
  // Pure parts of the handlers

  /** The id deleteClient acts on: the query value when it is given, else the
      client_id of a body that decodes, else nothing. */
  function DeleteTarget(query: string, body: Option<string>): (id: string)
    ensures query != "" ==> id == query
    ensures query == "" && body.Some? ==> id == body.value
    ensures query == "" && body.None? ==> id == ""
  {
    if query != "" then query
    else match body
         case Some(bodyID) => bodyID
         case None => ""
  }

  /** The field merge of patchClient: each field present in the patch replaces
      the current value; everything else is kept. */
  function MergePatch(c: ClientConfig, p: Patch): (r: ClientConfig)
    ensures r.clientID == c.clientID && r.createdAt == c.createdAt && r.lastUpdated == c.lastUpdated
    ensures p.capacity.None? ==> r.capacity == c.capacity
    ensures p.capacity.Some? ==> r.capacity == p.capacity.value
    ensures p.ratePerSec.None? ==> r.ratePerSec == c.ratePerSec
    ensures p.ratePerSec.Some? ==> r.ratePerSec == p.ratePerSec.value
  {
    var capacity := if p.capacity.Some? then p.capacity.value else c.capacity;
    var rate := if p.ratePerSec.Some? then p.ratePerSec.value else c.ratePerSec;
    c.(capacity := capacity, ratePerSec := rate)
  }

  /** Two patches in a row: the later one's present fields win. */
  function ThenPatch(p: Patch, q: Patch): (combined: Patch)
  {
    Patch(if q.capacity.Some? then q.capacity else p.capacity,
          if q.ratePerSec.Some? then q.ratePerSec else p.ratePerSec)
  }

  /** An empty patch changes nothing, applying a patch twice is applying it once,
      and applying two patches is applying their combination. */
  lemma MergePatchLaws(c: ClientConfig, p: Patch, q: Patch)
    ensures MergePatch(c, Patch(None, None)) == c
    ensures MergePatch(MergePatch(c, p), p) == MergePatch(c, p)
    ensures MergePatch(MergePatch(c, p), q) == MergePatch(c, ThenPatch(p, q))
  {
  }

  /** The denial body: status 429 with a retry hint of one second. */
  const Denial := RateLimitResponse(StatusTooManyRequests, "Rate limit exceeded", 1000)

  /** What the gateway makes of the load balancer's answer. */
  function ProxyResponse(served: Served): (r: Response)
    ensures r.Relayed? <==> served.Forwarded?
    ensures r.Relayed? ==> r.backend == served.index
    ensures r == ErrorResponse(StatusServiceUnavailable, "No available backends") <==> served == ServiceUnavailable
    ensures r == Aborted <==> served == Crashed
  {
    match served
    case Forwarded(i) => Relayed(i)
    case ServiceUnavailable => ErrorResponse(StatusServiceUnavailable, "No available backends")
    case Crashed => Aborted
  }

  /** The bucket the limiter creates for a key it has not seen: from the
      registered config of that key when there is one, else from the defaults. */
  function CreatedBucket(clients: map<string, ClientConfig>, ip: string, defaultCap: int, defaultRate: int, now: int): (b: Bucket)
    ensures ip in clients ==> b == NewBucket(clients[ip].capacity, clients[ip].ratePerSec, now)
    ensures ip !in clients ==> b == NewBucket(defaultCap, defaultRate, now)
  {
    if ip in clients then NewBucket(clients[ip].capacity, clients[ip].ratePerSec, now)
    else NewBucket(defaultCap, defaultRate, now)
  }

  // ---------------------------------------------------------------------
  // What each handler answers, and the state it leaves

  /** The state the handlers read and change: the cached registry, the stored
      records, the limiter's buckets and the round-robin counter. */
  datatype GatewayState = GatewayState(
    clients: map<string, ClientConfig>,
    records: map<string, ClientConfig>,
    buckets: Buckets,
    counter: nat)

  /** getClients: one client by id, 404 for an unknown id, or the whole
      registry; nothing changes. */
  ghost predicate ListOutcome(req: Request, s: GatewayState, t: GatewayState, resp: Response)
  {
    && t == s
    && resp == (if req.clientIDParam == "" then Reply(StatusOK, ClientList(s.clients))
                else if req.clientIDParam in s.clients then Reply(StatusOK, OneClient(s.clients[req.clientIDParam]))
                else ErrorResponse(StatusNotFound, "Client not found"))
  }

  /** createClient: 400 for a body that does not decode or has no id; then
      either 500 with nothing changed, or 201 with the new config registered in
      cache and storage. */
  ghost predicate CreateOutcome(req: Request, now: int, s: GatewayState, t: GatewayState, resp: Response)
  {
    if req.createBody.None? then
      resp == ErrorResponse(StatusBadRequest, "Invalid request body") && t == s
    else if req.createBody.value.clientID == "" then
      resp == ErrorResponse(StatusBadRequest, "client_id is required") && t == s
    else
      var c := req.createBody.value;
      var config := ClientConfig(c.clientID, c.capacity, c.ratePerSec, now, now);
      || (resp == ErrorResponse(StatusInternalServerError, "Failed to create client") && t == s)
      || (&& resp == Reply(StatusCreated, CreatedClient(ClientsPath + "?client_id=" + c.clientID, config))
          && t == s.(clients := s.clients[c.clientID := config], records := s.records[c.clientID := config]))
  }

  /** deleteClient: 400 without an id, 404 for an unknown one; then either 500
      with nothing changed, or 204 with the id dropped from cache and storage,
      and from the buckets when the registry has the limiter attached. */
  ghost predicate DeleteOutcome(req: Request, attached: bool, s: GatewayState, t: GatewayState, resp: Response)
  {
    var id := DeleteTarget(req.clientIDParam, req.deleteBody);
    if id == "" then
      resp == ErrorResponse(StatusBadRequest, "client_id is required either in query params or JSON body") && t == s
    else if id !in s.clients then
      resp == ErrorResponse(StatusNotFound, "client not found") && t == s
    else
      || (resp == ErrorResponse(StatusInternalServerError, "Failed to delete client") && t == s)
      || (&& resp == Reply(StatusNoContent, Empty)
          && t == s.(clients := s.clients - {id}, records := s.records - {id},
                     buckets := if attached then s.buckets - {id} else s.buckets))
  }

  /** The refusals patchClient makes before merging: no id, an unknown id, a
      body that does not decode. */
  predicate PatchRefused(req: Request, clients: map<string, ClientConfig>)
  {
    req.clientIDParam == "" || req.clientIDParam !in clients || req.patchBody.None?
  }

  /** The answer to a refused patch; nothing changes. */
  ghost predicate PatchRefusal(req: Request, s: GatewayState, t: GatewayState, resp: Response)
  {
    && t == s
    && resp == (if req.clientIDParam == "" then ErrorResponse(StatusBadRequest, "client_id parameter is required")
                else if req.clientIDParam !in s.clients then ErrorResponse(StatusNotFound, "Client not found")
                else ErrorResponse(StatusBadRequest, "Invalid patch data"))
  }

  /** patchClient as written: after the refusals, 200 with the merged config in
      cache and storage, or 500 with the merged config in the cache only. */
  ghost predicate PatchOutcomeAsWritten(req: Request, s: GatewayState, t: GatewayState, resp: Response)
  {
    if PatchRefused(req, s.clients) then PatchRefusal(req, s, t, resp)
    else
      var id := req.clientIDParam;
      var merged := MergePatch(s.clients[id], req.patchBody.value);
      || (resp == ErrorResponse(StatusInternalServerError, "Failed to update client")
          && t == s.(clients := s.clients[id := merged]))
      || (resp == Reply(StatusOK, OneClient(merged))
          && t == s.(clients := s.clients[id := merged], records := s.records[id := merged]))
  }

  /** patchClient corrected: the same, except that 500 changes nothing. */
  ghost predicate PatchOutcome(req: Request, s: GatewayState, t: GatewayState, resp: Response)
  {
    if PatchRefused(req, s.clients) then PatchRefusal(req, s, t, resp)
    else
      var id := req.clientIDParam;
      var merged := MergePatch(s.clients[id], req.patchBody.value);
      || (resp == ErrorResponse(StatusInternalServerError, "Failed to update client") && t == s)
      || (resp == Reply(StatusOK, OneClient(merged))
          && t == s.(clients := s.clients[id := merged], records := s.records[id := merged]))
  }

  /** handleProxyRequest: the request is admitted under the bucket of its client
      IP; a denial is answered 429 and leaves the counter alone, an admitted
      request gets the load balancer's answer (with or without the nil check).
      The registry never changes. */
  ghost predicate ProxyOutcome(req: Request, now: int, defaultCap: int, defaultRate: int,
                               kind: StrategyKind, flags: seq<bool>, checked: bool,
                               s: GatewayState, t: GatewayState, resp: Response)
  {
    var ip := GetClientIP(req.header, req.remoteAddr);
    var admission := Admit(s.buckets, ip, CreatedBucket(s.clients, ip, defaultCap, defaultRate, now));
    && t.clients == s.clients && t.records == s.records && t.buckets == admission.buckets
    && if !admission.allowed then
         resp == Reply(StatusTooManyRequests, Limited(Denial)) && t.counter == s.counter
       else
         var r := if checked then SelectChecked(kind, s.counter, flags) else Select(kind, s.counter, flags);
         resp == ProxyResponse(ServeOutcome(r.selection)) && t.counter == r.counter
  }

  /** handleClientsAPI: each admin route gets its handler's answer; any other
      method on the clients path gets 405 and changes nothing. PATCH is the
      handler as written unless `corrected`. */
  ghost predicate AdminOutcome(req: Request, now: int, attached: bool, corrected: bool,
                               s: GatewayState, t: GatewayState, resp: Response)
  {
    match RouteOf(req.path, req.verb)
    case ListRoute => ListOutcome(req, s, t, resp)
    case CreateRoute => CreateOutcome(req, now, s, t, resp)
    case DeleteRoute => DeleteOutcome(req, attached, s, t, resp)
    case PatchRoute =>
      if corrected then PatchOutcome(req, s, t, resp) else PatchOutcomeAsWritten(req, s, t, resp)
    case NotAllowedRoute => resp == ErrorResponse(StatusMethodNotAllowed, "Method not allowed") && t == s
    case _ => false  // not a route of the clients path
  }

  /** ServeHTTP: the health probe gets 200 and changes nothing, the clients path
      its admin answer, everything else the proxy's answer. With `corrected`,
      PATCH is the corrected handler and the balancer has the nil check. */
  ghost predicate RequestOutcome(req: Request, now: int, attached: bool, defaultCap: int, defaultRate: int,
                                 kind: StrategyKind, flags: seq<bool>, corrected: bool,
                                 s: GatewayState, t: GatewayState, resp: Response)
  {
    match RouteOf(req.path, req.verb)
    case HealthRoute => resp == Reply(StatusOK, Empty) && t == s
    case ProxyRoute => ProxyOutcome(req, now, defaultCap, defaultRate, kind, flags, corrected, s, t, resp)
    case _ => AdminOutcome(req, now, attached, corrected, s, t, resp)
  }

  /** Behind the nil-checked balancer, a proxied request over a non-empty pool
      is never aborted. */
  lemma CheckedProxyNeverAborts(req: Request, now: int, defaultCap: int, defaultRate: int,
                                kind: StrategyKind, flags: seq<bool>, s: GatewayState, t: GatewayState, resp: Response)
    requires |flags| > 0
    requires ProxyOutcome(req, now, defaultCap, defaultRate, kind, flags, true, s, t, resp)
    ensures resp != Aborted
  {
    SelectCheckedNilIffNoneAlive(kind, s.counter, flags);
  }

  /** As written, an admitted request under least-connections over a non-empty
      pool with no alive backend is aborted. */
  lemma UncheckedProxyAbortsWhenAllDead(req: Request, now: int, defaultCap: int, defaultRate: int,
                                        flags: seq<bool>, s: GatewayState, t: GatewayState, resp: Response)
    requires |flags| > 0 && forall i :: 0 <= i < |flags| ==> !flags[i]
    requires ProxyOutcome(req, now, defaultCap, defaultRate, LeastConnections, flags, false, s, t, resp)
    requires resp != Reply(StatusTooManyRequests, Limited(Denial))
    ensures resp == Aborted
  {
    LeastConnectionsAllDeadDereferencesNil(s.counter, flags);
  }

  // ---------------------------------------------------------------------
  // The server

  class Server {
    const balancer: LoadBalancer
    const rateLimiter: RateLimiter
    const clientManager: ClientManager

    /** The limiter keeps its bucket invariant, the registry its keying, and the
        registry's limiter, when it has one, is the server's. */
    ghost predicate Valid()
      reads this, rateLimiter, rateLimiter.buckets.Values, clientManager, clientManager.storage
    {
      && rateLimiter.Valid()
      && clientManager.Valid()
      && (clientManager.rateLimiter == null || clientManager.rateLimiter == rateLimiter)
    }

    /** The handlers' state as a value. */
    ghost function Current(): (s: GatewayState)
      reads clientManager, clientManager.storage, rateLimiter, rateLimiter.buckets.Values, balancer.strategy
    {
      GatewayState(clientManager.clients, clientManager.storage.records, rateLimiter.View(), balancer.strategy.counter)
    }

    /** NewServer. */
    constructor (balancer: LoadBalancer, rateLimiter: RateLimiter, clientManager: ClientManager)
      requires rateLimiter.Valid() && clientManager.Valid()
      requires clientManager.rateLimiter == null || clientManager.rateLimiter == rateLimiter
      ensures this.balancer == balancer && this.rateLimiter == rateLimiter && this.clientManager == clientManager
      ensures Valid()
    {
      this.balancer := balancer;
      this.rateLimiter := rateLimiter;
      this.clientManager := clientManager;
    }

    /** getClients: one client by id (404 when unknown), or all of them. Nothing
        changes. */
    method GetClients(req: Request) returns (resp: Response)
      ensures ListOutcome(req, Current(), Current(), resp)
    {
      var clientID := req.clientIDParam;
      if clientID != "" {
        var client := clientManager.GetClientConfig(clientID);
        if client.None? {
          return ErrorResponse(StatusNotFound, "Client not found");
        }
        return Reply(StatusOK, OneClient(client.value));
      }
      var clients := clientManager.GetAllClients();
      assert clients == clientManager.clients;
      resp := Reply(StatusOK, ClientList(clients));
    }

    /** createClient: a body that does not decode or has no client_id is refused
        with 400; a storage error gives 500; otherwise the client is registered
        and returned with 201 and its location. Only a 201 changes anything. */
    method CreateClient(req: Request, now: int) returns (resp: Response)
      requires Valid()
      modifies clientManager, clientManager.storage
      ensures Valid()
      ensures old(clientManager.Coherent()) ==> clientManager.Coherent()
      ensures CreateOutcome(req, now, old(Current()), Current(), resp)
    {
      if req.createBody.None? {
        return ErrorResponse(StatusBadRequest, "Invalid request body");
      }
      var config := req.createBody.value;
      if config.clientID == "" {
        return ErrorResponse(StatusBadRequest, "client_id is required");
      }
      var err := clientManager.AddClient(config.clientID, config.capacity, config.ratePerSec, now);
      if err.Some? {
        return ErrorResponse(StatusInternalServerError, "Failed to create client");
      }
      var client := clientManager.GetClientConfig(config.clientID);
      resp := Reply(StatusCreated, CreatedClient(ClientsPath + "?client_id=" + config.clientID, client.value));
    }

    /** deleteClient: the query id, else the body's; no id gives 400, an unknown
        one 404, a storage error 500, a removal 204. The bucket goes with the
        client only when the registry has the limiter attached. */
    method DeleteClient(req: Request) returns (resp: Response)
      requires Valid()
      modifies clientManager, clientManager.storage, rateLimiter
      ensures Valid()
      ensures old(clientManager.Coherent()) ==> clientManager.Coherent()
      ensures DeleteOutcome(req, clientManager.rateLimiter != null, old(Current()), Current(), resp)
    {
      var clientID := DeleteTarget(req.clientIDParam, req.deleteBody);
      if clientID == "" {
        return ErrorResponse(StatusBadRequest, "client_id is required either in query params or JSON body");
      }
      var err := clientManager.RemoveClient(clientID);
      if err.Some? {
        ErrorTextIdentifiesNotFound(err.value);
        if ErrorText(err.value) == "client not found" {
          return ErrorResponse(StatusNotFound, ErrorText(err.value));
        }
        return ErrorResponse(StatusInternalServerError, "Failed to delete client");
      }
      resp := Reply(StatusNoContent, Empty);
    }

    /** patchClient as written: the merged fields are written into the cached
        config itself (GetClientConfig hands out the cached pointer), and only
        then stored. A storage error is answered with 500 but leaves the cache
        holding the unsaved values. */
    method PatchClientAsWritten(req: Request) returns (resp: Response)
      requires Valid()
      modifies clientManager, clientManager.storage
      ensures Valid()
      ensures PatchOutcomeAsWritten(req, old(Current()), Current(), resp)
      ensures old(clientManager.Coherent()) && resp != ErrorResponse(StatusInternalServerError, "Failed to update client") ==>
                clientManager.Coherent()
      ensures resp == ErrorResponse(StatusInternalServerError, "Failed to update client") && old(clientManager.Coherent())
              && req.clientIDParam in old(clientManager.clients) && req.patchBody.Some?
              && MergePatch(old(clientManager.clients)[req.clientIDParam], req.patchBody.value)
                 != old(clientManager.clients)[req.clientIDParam] ==>
                !clientManager.Coherent()
    {
      var clientID := req.clientIDParam;
      if clientID == "" {
        return ErrorResponse(StatusBadRequest, "client_id parameter is required");
      }
      var current := clientManager.GetClientConfig(clientID);
      if current.None? {
        return ErrorResponse(StatusNotFound, "Client not found");
      }
      if req.patchBody.None? {
        return ErrorResponse(StatusBadRequest, "Invalid patch data");
      }
      var merged := MergePatch(current.value, req.patchBody.value);
      resp := WriteMergedAsWritten(clientID, merged);
    }

    /** The write half of patchClient as written: the cached entry is
        overwritten first, then the merged config is stored. */
    method WriteMergedAsWritten(clientID: string, merged: ClientConfig) returns (resp: Response)
      requires Valid() && clientID in clientManager.clients && merged.clientID == clientID
      modifies clientManager, clientManager.storage
      ensures Valid()
      ensures var s := old(Current());
              || (resp == ErrorResponse(StatusInternalServerError, "Failed to update client")
                  && Current() == s.(clients := s.clients[clientID := merged]))
              || (resp == Reply(StatusOK, OneClient(merged))
                  && Current() == s.(clients := s.clients[clientID := merged], records := s.records[clientID := merged]))
      ensures old(clientManager.Coherent()) && resp == Reply(StatusOK, OneClient(merged)) ==> clientManager.Coherent()
      ensures old(clientManager.Coherent()) && merged != old(clientManager.clients)[clientID]
              && resp == ErrorResponse(StatusInternalServerError, "Failed to update client") ==>
                !clientManager.Coherent()
    {
      ghost var buckets := rateLimiter.View();
      clientManager.OverwriteCached(merged);
      assert rateLimiter.View() == buckets;
      var err := clientManager.UpdateClient(merged);
      assert rateLimiter.View() == buckets;
      if err.Some? {
        assert clientManager.clients[clientID] == merged;
        return ErrorResponse(StatusInternalServerError, "Failed to update client");
      }
      resp := Reply(StatusOK, OneClient(merged));
    }

    /** patchClient with the merge made on a copy: the cache and storage take the
        merged config together or not at all. No id gives 400, an unknown id 404
        (before the body is looked at), a body that does not decode 400, a
        storage error 500, and a stored patch 200 with the merged config. */
    method PatchClient(req: Request) returns (resp: Response)
      requires Valid()
      modifies clientManager, clientManager.storage
      ensures Valid()
      ensures old(clientManager.Coherent()) ==> clientManager.Coherent()
      ensures PatchOutcome(req, old(Current()), Current(), resp)
    {
      var clientID := req.clientIDParam;
      if clientID == "" {
        return ErrorResponse(StatusBadRequest, "client_id parameter is required");
      }
      var current := clientManager.GetClientConfig(clientID);
      if current.None? {
        return ErrorResponse(StatusNotFound, "Client not found");
      }
      if req.patchBody.None? {
        return ErrorResponse(StatusBadRequest, "Invalid patch data");
      }
      var merged := MergePatch(current.value, req.patchBody.value);
      var err := clientManager.UpdateClient(merged);
      if err.Some? {
        return ErrorResponse(StatusInternalServerError, "Failed to update client");
      }
      resp := Reply(StatusOK, OneClient(merged));
    }

    /** The admission step of handleProxyRequest: the registered config of the
        key, when there is one, is what a new bucket is made from. */
    method AdmitClient(clientIP: string, now: int) returns (allowed: bool)
      requires rateLimiter.Valid()
      modifies rateLimiter, rateLimiter.buckets.Values
      ensures rateLimiter.Valid()
      ensures Admission(allowed, rateLimiter.View())
              == Admit(old(rateLimiter.View()), clientIP,
                       CreatedBucket(clientManager.clients, clientIP, rateLimiter.defaultCap, rateLimiter.defaultRate, now))
    {
      var clientConfig := clientManager.GetClientConfig(clientIP);
      if clientConfig.Some? {
        allowed := rateLimiter.AllowWithConfig(clientIP, clientConfig.value, now);
      } else {
        allowed := rateLimiter.Allow(clientIP, now);
      }
    }

    /** handleProxyRequest: the request is admitted under the bucket of its
        client IP (created from the registered config of that IP, else from the
        defaults); a denial is answered with 429 and never reaches the load
        balancer, an admitted request goes to the load balancer as written,
        which aborts when its selection dereferences nil. */
    method HandleProxyRequest(req: Request, now: int) returns (resp: Response)
      requires rateLimiter.Valid()
      modifies rateLimiter, rateLimiter.buckets.Values, balancer.strategy
      ensures rateLimiter.Valid()
      ensures ProxyOutcome(req, now, rateLimiter.defaultCap, rateLimiter.defaultRate, balancer.strategy.kind,
                           AliveFlags(balancer.backends), false, old(Current()), Current(), resp)
    {
      var clientIP := GetClientIP(req.header, req.remoteAddr);
      var allowed := AdmitClient(clientIP, now);
      if !allowed {
        return Reply(StatusTooManyRequests, Limited(Denial));
      }
      ghost var admitted := rateLimiter.View();
      var served := balancer.ServeHTTP();
      assert rateLimiter.View() == admitted;
      resp := ProxyResponse(served);
    }

    /** handleProxyRequest in front of the nil-checked load balancer: the same
        admission, and an admitted request is relayed or answered with 503. */
    method HandleProxyRequestChecked(req: Request, now: int) returns (resp: Response)
      requires rateLimiter.Valid()
      modifies rateLimiter, rateLimiter.buckets.Values, balancer.strategy
      ensures rateLimiter.Valid()
      ensures ProxyOutcome(req, now, rateLimiter.defaultCap, rateLimiter.defaultRate, balancer.strategy.kind,
                           AliveFlags(balancer.backends), true, old(Current()), Current(), resp)
    {
      var clientIP := GetClientIP(req.header, req.remoteAddr);
      var allowed := AdmitClient(clientIP, now);
      if !allowed {
        return Reply(StatusTooManyRequests, Limited(Denial));
      }
      ghost var admitted := rateLimiter.View();
      var served := balancer.ServeHTTPChecked();
      assert rateLimiter.View() == admitted;
      resp := ProxyResponse(served);
    }

    /** handleClientsAPI: the four admin methods, 405 for any other. A read or a
        refusal changes nothing, and no admin request reaches a backend. PATCH
        goes to patchClient as written, so a 500 answer to it is the one case
        where the cache may stop agreeing with storage. */
    method HandleClientsAPI(req: Request, now: int) returns (resp: Response)
      requires Valid() && req.path == ClientsPath
      modifies clientManager, clientManager.storage, rateLimiter
      ensures Valid() && resp.Reply?
      ensures AdminOutcome(req, now, clientManager.rateLimiter != null, false, old(Current()), Current(), resp)
      ensures old(clientManager.Coherent())
              && !(RouteOf(req.path, req.verb) == PatchRoute && resp.status == StatusInternalServerError) ==>
                clientManager.Coherent()
    {
      match RouteOf(req.path, req.verb)
      case ListRoute =>
        resp := GetClients(req);
      case CreateRoute =>
        resp := CreateClient(req, now);
      case DeleteRoute =>
        resp := DeleteClient(req);
      case PatchRoute =>
        resp := PatchClientAsWritten(req);
      case _ =>
        resp := ErrorResponse(StatusMethodNotAllowed, "Method not allowed");
    }

    /** handleClientsAPI with the corrected patchClient: every admin request
        keeps the cache in agreement with storage. */
    method HandleClientsAPICorrected(req: Request, now: int) returns (resp: Response)
      requires Valid() && req.path == ClientsPath
      modifies clientManager, clientManager.storage, rateLimiter
      ensures Valid() && resp.Reply?
      ensures AdminOutcome(req, now, clientManager.rateLimiter != null, true, old(Current()), Current(), resp)
      ensures old(clientManager.Coherent()) ==> clientManager.Coherent()
    {
      match RouteOf(req.path, req.verb)
      case ListRoute =>
        resp := GetClients(req);
      case CreateRoute =>
        resp := CreateClient(req, now);
      case DeleteRoute =>
        resp := DeleteClient(req);
      case PatchRoute =>
        resp := PatchClient(req);
      case _ =>
        resp := ErrorResponse(StatusMethodNotAllowed, "Method not allowed");
    }

    /** ServeHTTP: the health probe is answered 200 before anything else, the
        clients path goes to the admin handlers and everything else to the
        proxy. Admin requests never reach a backend; a proxied request never
        changes the registry. PATCH and the proxy are the handlers as
        written. */
    method ServeHTTP(req: Request, now: int) returns (resp: Response)
      requires Valid()
      modifies clientManager, clientManager.storage, rateLimiter, rateLimiter.buckets.Values, balancer.strategy
      ensures Valid()
      ensures RequestOutcome(req, now, clientManager.rateLimiter != null, rateLimiter.defaultCap, rateLimiter.defaultRate,
                             balancer.strategy.kind, AliveFlags(balancer.backends), false, old(Current()), Current(), resp)
      ensures old(clientManager.Coherent())
              && !(RouteOf(req.path, req.verb) == PatchRoute && resp.Reply? && resp.status == StatusInternalServerError) ==>
                clientManager.Coherent()
    {
      match RouteOf(req.path, req.verb)
      case HealthRoute =>
        resp := Reply(StatusOK, Empty);
      case ProxyRoute =>
        resp := HandleProxyRequest(req, now);
      case _ =>
        resp := HandleClientsAPI(req, now);
    }

    /** ServeHTTP over the corrected patchClient and the nil-checked load
        balancer: the same routing, the cache always agrees with storage, and a
        proxied request is never aborted by a nil backend. */
    method ServeHTTPCorrected(req: Request, now: int) returns (resp: Response)
      requires Valid()
      modifies clientManager, clientManager.storage, rateLimiter, rateLimiter.buckets.Values, balancer.strategy
      ensures Valid()
      ensures RequestOutcome(req, now, clientManager.rateLimiter != null, rateLimiter.defaultCap, rateLimiter.defaultRate,
                             balancer.strategy.kind, AliveFlags(balancer.backends), true, old(Current()), Current(), resp)
      ensures old(clientManager.Coherent()) ==> clientManager.Coherent()
      ensures RouteOf(req.path, req.verb) == ProxyRoute && |balancer.backends| > 0 ==> resp != Aborted
    {
      match RouteOf(req.path, req.verb)
      case HealthRoute =>
        resp := Reply(StatusOK, Empty);
      case ProxyRoute =>
        resp := HandleProxyRequestChecked(req, now);
        if |balancer.backends| > 0 {
          CheckedProxyNeverAborts(req, now, rateLimiter.defaultCap, rateLimiter.defaultRate, balancer.strategy.kind,
                                  AliveFlags(balancer.backends), old(Current()), Current(), resp);
        }
      case _ =>
        resp := HandleClientsAPICorrected(req, now);
    }
  }
}
