/** Materialising a service token from a token response: the services map turned into a
    list, the token record, and the best-effort push registrations that follow it. */
module Tokens {
  import opened AuthTypes

  /** The service types of a list, as a set. */
  function TypesOf(list: seq<SupportedService>): set<string>
  {
    if list == [] then {} else TypesOf(list[..|list| - 1]) + {list[|list| - 1].serviceType}
  }

  /** `list` holds the (type, endpoint) pairs of `services`, each exactly once, in some order. */
  predicate Lists(list: seq<SupportedService>, services: map<string, string>)
  {
    && |list| == |services|
    && TypesOf(list) == services.Keys
    && (forall j :: 0 <= j < |list| ==>
          list[j].serviceType in services && services[list[j].serviceType] == list[j].serviceEndpoint)
    && (forall j, k :: 0 <= j < k < |list| ==> list[j].serviceType != list[k].serviceType)
  }

  lemma {:induction false} InTypesOf(list: seq<SupportedService>, t: string) returns (j: nat)
    requires t in TypesOf(list)
    ensures j < |list| && list[j].serviceType == t
    decreases |list|
  {
    if list[|list| - 1].serviceType == t {
      j := |list| - 1;
    } else {
      j := InTypesOf(list[..|list| - 1], t);
    }
  }

  /** Two listings of one map hold the same entries: only their order may differ. */
  lemma ListingsAgree(a: seq<SupportedService>, b: seq<SupportedService>, services: map<string, string>)
    requires Lists(a, services) && Lists(b, services)
    ensures forall x :: x in a <==> x in b
  {
    forall x | x in a ensures x in b {
      var j := InTypesOf(b, x.serviceType);
      assert b[j] == x;
    }
    forall x | x in b ensures x in a {
      var j := InTypesOf(a, x.serviceType);
      assert a[j] == x;
    }
  }

  /** A response advertising one service yields a one-entry list holding exactly it. */
  lemma SingleServiceListing(list: seq<SupportedService>, serviceType: string, endpoint: string)
    requires Lists(list, map[serviceType := endpoint])
    ensures list == [SupportedService(serviceType, endpoint)]
  {
  }

  /** `done` lists the entries of `services` whose keys are no longer in `rest`. */
  predicate ListsExcept(done: seq<SupportedService>, services: map<string, string>, rest: set<string>)
  {
    && rest <= services.Keys
    && TypesOf(done) == services.Keys - rest
    && (forall j :: 0 <= j < |done| ==>
          done[j].serviceType in services && done[j].serviceType !in rest
          && services[done[j].serviceType] == done[j].serviceEndpoint)
    && (forall j, k :: 0 <= j < k < |done| ==> done[j].serviceType != done[k].serviceType)
  }

  /** One iteration of the services loop keeps ListsExcept. */
  lemma ListsExceptStep(done: seq<SupportedService>, services: map<string, string>,
                        rest: set<string>, key: string)
    requires ListsExcept(done, services, rest) && key in rest
    ensures ListsExcept(done + [SupportedService(key, services[key])], services, rest - {key})
  {
  }

  /** When no key is left, ListsExcept is a full listing. */
  lemma ListsExceptDone(done: seq<SupportedService>, services: map<string, string>)
    requires ListsExcept(done, services, {}) && |done| == |services|
    ensures Lists(done, services)
  {
    assert services.Keys - {} == services.Keys;
  }

  /** The loop that fills a slice of len(services) entries at a running index, visiting the
      map's keys in an order the model does not fix. */
  method ServicesList(services: map<string, string>) returns (list: seq<SupportedService>)
    ensures Lists(list, services)
  {
    var a := new SupportedService[|services|];
    var rest := services.Keys;
    var i := 0;
    while rest != {}
      invariant i + |rest| == |services| == a.Length
      invariant ListsExcept(a[..i], services, rest)
      decreases |rest|
    {
      var k :| k in rest;
      ghost var done := a[..i];
      ListsExceptStep(done, services, rest, k);
      a[i] := SupportedService(k, services[k]);
      assert a[..i + 1] == done + [SupportedService(k, services[k])];
      i := i + 1;
      rest := rest - {k};
    }
    list := a[..];
    assert list == a[..i];
    ListsExceptDone(list, services);
  }

  /** The token record built from a response (or, on the debug path, a request). */
  predicate IssuedToken(t: ServiceToken, accessToken: string, authURL: string,
                        services: map<string, string>)
  {
    && t.token == accessToken
    && t.authenticationURL == authURL
    && t.expiration == NeverExpires
    && Lists(t.supportedServices, services)
  }

  /** Shared by the complete flow and the debug path: list the services, build the token. */
  method MaterializeToken(accessToken: string, authURL: string, services: map<string, string>)
    returns (t: ServiceToken)
    ensures IssuedToken(t, accessToken, authURL, services)
  {
    var list := ServicesList(services);
    t := ServiceToken(accessToken, authURL, list, NeverExpires);
  }

  /** One push registration attempt for one listed service: nothing when the service is not
      the push service; otherwise connect, then fetch the server's key, then register, with
      the first failing step ending the attempt. */
  function PushAttempt(push: PushOracles, pushID: string, token: string, svc: SupportedService)
    : seq<PushStep>
  {
    if svc.serviceType != pushID then []
    else if !push.connect(svc.serviceEndpoint, token) then [ConnectFailed(svc.serviceEndpoint)]
    else
      match push.serverInfo(svc.serviceEndpoint)
      case None => [InfoFailed(svc.serviceEndpoint)]
      case Some(key) =>
        var server := PushServer(key, svc.serviceEndpoint);
        [SetServer(server, push.setServer(server))]
  }

  /** The attempts for a list of services, in list order. */
  function PushTrace(push: PushOracles, pushID: string, token: string, list: seq<SupportedService>)
    : seq<PushStep>
  {
    if list == [] then []
    else PushTrace(push, pushID, token, list[..|list| - 1])
         + PushAttempt(push, pushID, token, list[|list| - 1])
  }

  function StepEndpoint(st: PushStep): string
  {
    match st
    case ConnectFailed(e) => e
    case InfoFailed(e) => e
    case SetServer(server, _) => server.serviceAddr
  }

  /** Number of listed services of the push type. */
  function CountPush(pushID: string, list: seq<SupportedService>): nat
  {
    if list == [] then 0
    else CountPush(pushID, list[..|list| - 1]) + (if list[|list| - 1].serviceType == pushID then 1 else 0)
  }

  /** Endpoints of the listed services of the push type. */
  function PushEndpoints(pushID: string, list: seq<SupportedService>): set<string>
  {
    set j | 0 <= j < |list| && list[j].serviceType == pushID :: list[j].serviceEndpoint
  }

  /** Exactly one attempt per push-type service, each about that service's endpoint; other
      services are never contacted, so a list without a push service leads to no call. */
  lemma {:induction false} PushTraceCoversPushServices(push: PushOracles, pushID: string, token: string,
                                                       list: seq<SupportedService>)
    ensures |PushTrace(push, pushID, token, list)| == CountPush(pushID, list)
    ensures forall j :: 0 <= j < |PushTrace(push, pushID, token, list)| ==>
              StepEndpoint(PushTrace(push, pushID, token, list)[j]) in PushEndpoints(pushID, list)
    ensures (forall j :: 0 <= j < |list| ==> list[j].serviceType != pushID) ==>
              PushTrace(push, pushID, token, list) == []
    decreases |list|
  {
    if list != [] {
      var init := list[..|list| - 1];
      PushTraceCoversPushServices(push, pushID, token, init);
      assert PushEndpoints(pushID, init) <= PushEndpoints(pushID, list) by {
        forall e | e in PushEndpoints(pushID, init) ensures e in PushEndpoints(pushID, list) {
          var j :| 0 <= j < |init| && init[j].serviceType == pushID && init[j].serviceEndpoint == e;
          assert list[j] == init[j];
        }
      }
      var last := list[|list| - 1];
      if last.serviceType == pushID {
        assert last.serviceEndpoint in PushEndpoints(pushID, list);
      }
    }
  }
}
