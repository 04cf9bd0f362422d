/** Four defects of the authorize endpoint as written in lib/session.js,
    each shown on the as-written model, and the endpoint as evidently
    intended, with the implicit-grant round trip proved on it. */
module Fixes {
  import opened Types
  import opened Uri
  import opened Session

  // ---------------------------------------------------------------------
  // The defects, on the as-written model

  /** A request that names its client is refused before any lookup, and the
      answer that follows finds no flow: a named client never gets a ticket. */
  method NamedClientNeverGranted(q: Query, app: Response<Client>, credentials: Ticket, reissue: Response<Ticket>,
                                 encode: string -> string, stringify: Ticket -> string)
    returns (asked: Reply, answered: Reply, trace: seq<Call>)
    requires Truthy(q.clientId)
    ensures asked == ErrorView(Code500, MisconfiguredClientMessage)
    ensures answered == Redirect(LandingPage)
    ensures trace == []
  {
    var store := new SessionStore(Some(credentials));
    var askCalls, answerCalls;
    asked, askCalls := Ask(store, q, app, encode);
    answered, answerCalls := Answer(store, credentials, reissue, stringify);
    trace := askCalls + answerCalls;
  }

  /** With a state supplied, ask shows the consent view but stores the bare
      state in place of the flow record, so the answer that follows lands on
      the home page without reissuing anything. */
  method StatefulFlowStranded(q: Query, client: Client, credentials: Ticket, reissue: Response<Ticket>,
                              encode: string -> string, stringify: Ticket -> string)
    returns (asked: Reply, answered: Reply, trace: seq<Call>)
    requires !Truthy(q.clientId) && q.responseType == Some("token") && OneTarget(client, q)
    requires Truthy(q.state)
    ensures asked == ConsentView(client.title, client.description, Truthy(client.callback))
    ensures answered == Redirect(LandingPage)
    ensures trace == [GetApp(AppPath(q.clientId))]
  {
    var store := new SessionStore(Some(credentials));
    var askCalls, answerCalls;
    asked, askCalls := Ask(store, q, Reply(200, Some(client), None), encode);
    answered, answerCalls := Answer(store, credentials, reissue, stringify);
    trace := askCalls + answerCalls;
  }

  /** The consent warning is raised exactly for the clients whose redirection
      target is pre-registered, and never for a target taken from the request. */
  method WarningMarksTrustedClient(q: Query, client: Client, encode: string -> string)
    returns (asked: Reply)
    requires !Truthy(q.clientId) && q.responseType == Some("token") && OneTarget(client, q)
    ensures asked.ConsentView?
    ensures asked.warning <==> Truthy(client.callback)
    ensures asked.warning <==> !Truthy(q.redirectUri)
  {
    var store := new SessionStore(None);
    var calls;
    asked, calls := Ask(store, q, Reply(200, Some(client), None), encode);
  }

  /** Reading back a URI whose query is followed by a second '?' and two more fields. */
  lemma {:induction false} SecondMarkRead(base: string, query: string, e: string, d: string)
    requires '#' !in base && '?' !in base
    requires '#' !in query && '&' !in query
    requires '#' !in e && '&' !in e && '#' !in d && '&' !in d
    ensures QueryPart(base + "?" + query + "?" + e + "&" + d) == Some(query + "?" + e + "&" + d)
    ensures Fields(query + "?" + e + "&" + d) == [query + "?" + e, d]
  {
    var first := query + "?" + e;
    assert base + "?" + query + "?" + e + "&" + d == base + ['?'] + (first + "&" + d);
    QueryAppended(base, first + "&" + d);
    JoinPair(first, d);
    FieldsJoin([first, d]);
  }

  /** A redirection URI that already has a query gets a second '?', so the
      first field of the error redirect's query is not `error=invalid_request`
      and no field of it is. */
  lemma ErrorFieldLostBehindQuery(base: string, query: string, encode: string -> string)
    requires '#' !in base && '?' !in base
    requires '#' !in query && '&' !in query
    ensures QueryPart(InvalidRequestRedirect(base + "?" + query, None, encode)).Some?
    ensures Fields(QueryPart(InvalidRequestRedirect(base + "?" + query, None, encode)).value)
         == [query + "?" + ErrorField, DescriptionField]
  {
    var redirection := base + "?" + query;
    var plain := redirection + "?" + ErrorField + "&" + DescriptionField;
    assert plain + "" == plain;
    assert InvalidRequestRedirect(redirection, None, encode) == plain;
    PlainFields(None, encode);
    SecondMarkRead(base, query, ErrorField, DescriptionField);
  }

  // ---------------------------------------------------------------------
  // The endpoint as intended

  /** The error redirect as intended: the error fields join the redirection
      URI's own query with '&' when it has one, and start a query otherwise. */
  function InvalidRequestRedirectCorrected(redirection: string, state: Option<string>, encode: string -> string): string {
    redirection + (if '?' in redirection then "&" else "?") + Join(InvalidRequestFields(state, encode))
  }

  /** The corrected error redirect keeps every field of the redirection URI's
      query and appends the error fields, then the echoed state. */
  lemma {:induction false} CorrectedRedirectKeepsQuery(redirection: string, state: Option<string>, encode: string -> string)
    requires '#' !in redirection
    requires Truthy(state) ==> '#' !in encode(state.value) && '&' !in encode(state.value)
    ensures Fragment(InvalidRequestRedirectCorrected(redirection, state, encode)) == None
    ensures QueryPart(InvalidRequestRedirectCorrected(redirection, state, encode)).Some?
    ensures Fields(QueryPart(InvalidRequestRedirectCorrected(redirection, state, encode)).value)
         == (if QueryPart(redirection).Some? then Fields(QueryPart(redirection).value) else [])
            + InvalidRequestFields(state, encode)
  {
    var fields := InvalidRequestFields(state, encode);
    PlainFields(state, encode);
    JoinFree(fields);
    FieldsJoin(fields);
    var joined := Join(fields);
    SplitAtAbsent(redirection, '#');
    if '?' !in redirection {
      QueryAppended(redirection, joined);
    } else {
      QueryExtended(redirection, joined);
      FieldsAppend(QueryPart(redirection).value, joined);
    }
  }

  /** GET /oz/authorize as evidently intended: a request without a client
      identifier is refused, the client named is looked up, the state is kept
      inside the flow record, and the warning marks a redirection target
      that came from the request. */
  method AskCorrected(store: SessionStore, q: Query, app: Response<Client>, encode: string -> string)
    returns (reply: Reply, calls: seq<Call>)
    modifies store
    ensures store.ticket == old(store.ticket) && store.ops == old(store.ops)
    ensures !Truthy(q.clientId) ==> reply == ErrorView(Code500, MisconfiguredClientMessage) && calls == []
    ensures Truthy(q.clientId) ==> calls == [GetApp("/oz/app/" + q.clientId.value)]
    ensures Truthy(q.clientId) && Screen(q, app, encode).Early? ==> reply == Screen(q, app, encode).reply
    ensures reply.ConsentView? <==> Truthy(q.clientId) && Screen(q, app, encode).Accepted?
    ensures !reply.ConsentView? ==> store.oz == old(store.oz)
    ensures reply.ConsentView? ==>
              var c := app.payload.value;
              reply == ConsentView(c.title, c.description, Truthy(q.redirectUri))
              && store.oz == Some(Flow(c, RedirectionUri(c, q), if Truthy(q.state) then q.state else None))
  {
    if !Truthy(q.clientId) {
      return ErrorView(Code500, MisconfiguredClientMessage), [];
    }
    calls := [GetApp(AppPath(q.clientId))];
    var screened := Screen(q, app, encode);
    if screened.Early? {
      return screened.reply, calls;
    }
    var client := screened.client;
    var pending := Flow(client, screened.redirection, None);
    if Truthy(q.state) {
      pending := pending.(state := q.state);
    }
    store.SetOz(pending);
    reply := ConsentView(client.title, client.description, !Truthy(client.callback));
  }

  /** The implicit grant end to end on a fresh session: consent for the named
      client, then one reissue to that client whose ticket, carrying the
      supplied state, is the fragment of the redirect to the client's URI;
      a second answer finds the flow consumed and lands on the home page
      without any upstream call. */
  method GrantRoundTrip(q: Query, client: Client, credentials: Ticket, ticket: Ticket,
                        encode: string -> string, stringify: Ticket -> string)
    returns (asked: Reply, first: Reply, second: Reply, trace: seq<Call>)
    requires Truthy(q.clientId) && q.responseType == Some("token") && OneTarget(client, q)
    requires '#' !in RedirectionUri(client, q)
    ensures asked == ConsentView(client.title, client.description, Truthy(q.redirectUri))
    ensures first.Redirect?
    ensures Truthy(q.state) ==> Fragment(first.location) == Some(stringify(ticket.(state := q.state)))
    ensures !Truthy(q.state) ==> Fragment(first.location) == Some(stringify(ticket))
    ensures QueryPart(first.location) == QueryPart(RedirectionUri(client, q))
    ensures second == Redirect(LandingPage)
    ensures trace == [GetApp("/oz/app/" + q.clientId.value), Reissue(Some(IssueOptions(client.id, [])), credentials)]
  {
    var store := new SessionStore(Some(credentials));
    var askCalls, firstCalls, secondCalls;
    asked, askCalls := AskCorrected(store, q, Reply(200, Some(client), None), encode);
    first, firstCalls := Answer(store, credentials, Reply(200, Some(ticket), None), stringify);
    second, secondCalls := Answer(store, credentials, Reply(200, Some(ticket), None), stringify);
    FragmentRedirectCarriesPayload(RedirectionUri(client, q), stringify(WithState(ticket, q.state)));
    trace := askCalls + firstCalls + secondCalls;
  }
}
