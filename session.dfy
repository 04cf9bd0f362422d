/** The session-ticket lifecycle and the Oz implicit-grant handshake of
    lib/session.js: per-request validation, reissue, restriction, the
    ask/answer consent handshake and the scoped `session` endpoint.

    Upstream requests are not performed: each handler receives the reply it
    gets as a parameter and returns, in `calls`, the requests it issued, in
    order. The clock is the parameter `now`; the minimum accepted terms
    version is the parameter `minimumTos`. */
module Session {
  import opened Types
  import opened Uri

  const FailedLoadingProfile := "Failed loading profile"
  const FailedRefreshingSession := "Failed refreshing session"
  const MissingSessionData := "Session missing rsvp data"
  const UnexpectedApiResponse := "Unexpected API response"
  const InvalidResponseParameters := "Invalid response parameters from API server"
  const CallbackAndRedirect := "Client request includes a redirection URI for a pre-configured callback client"
  const MissingCallback := "Client missing callback"
  const FailedRefresh := "Failed refresh"
  const RestrictedSession := "Restricted session"
  const MisconfiguredClientMessage := "sorry, the application that sent you here messed something up..."
  const UnknownClientMessage := "sorry, we can't find the application that sent you here..."
  const DefaultViewPath := "/view/"
  const LandingPage := "/"
  const ErrorField := "error=invalid_request"
  const DescriptionField := "error_description=Bad%20response_type%20parameter"
  const StateKey := "state="

  /** The per-request session storage: the cookie's ticket slot, the log of
      every write and clear of that slot, and the 'oz' slot of the session bag. */
  class SessionStore {
    var ticket: Option<Ticket>
    var ops: seq<SlotOp>
    var oz: Option<PendingFlow>

    constructor (current: Option<Ticket>)
      ensures ticket == current && ops == [] && oz == None
    {
      ticket := current;
      ops := [];
      oz := None;
    }

    method SetTicket(t: Ticket)
      modifies this
      ensures ticket == Some(t) && ops == old(ops) + [Write(t)] && oz == old(oz)
    {
      ticket := Some(t);
      ops := ops + [Write(t)];
    }

    method ClearTicket()
      modifies this
      ensures ticket == None && ops == old(ops) + [Clear] && oz == old(oz)
    {
      ticket := None;
      ops := ops + [Clear];
    }

    method SetOz(flow: PendingFlow)
      modifies this
      ensures oz == Some(flow) && ticket == old(ticket) && ops == old(ops)
    {
      oz := Some(flow);
    }

    /** Reads the 'oz' slot and clears it in the same step. */
    method TakeOz() returns (flow: Option<PendingFlow>)
      modifies this
      ensures flow == old(oz) && oz == None
      ensures ticket == old(ticket) && ops == old(ops)
    {
      flow := oz;
      oz := None;
    }
  }

  // ---------------------------------------------------------------------
  // Pure pieces

  /** The expiry gate: the ticket carries an expiry that is still ahead of `now`. */
  predicate IsLive(exp: Option<int>, now: nat) {
    exp.Some? && exp.value > now
  }

  /** The restriction derived from a ticket's accepted terms version; an
      absent version is never below the minimum. */
  function RestrictionFor(ext: Ext, minimumTos: int): Option<Restriction> {
    if ext.tos.Some? && ext.tos.value < minimumTos then Some(Tos) else None
  }

  /** Whatever restriction the reissued ticket arrives with is discarded:
      the stored one is recomputed from `ext` alone. */
  lemma RestrictionRecomputed(t: Ticket, arrived: Option<Restriction>, minimumTos: int)
    ensures WithRestriction(t.(restriction := arrived), minimumTos) == WithRestriction(t, minimumTos)
  {
  }

  /** Raising the minimum terms version never lifts a restriction, and a
      ticket whose recorded version meets the raised minimum is unrestricted
      under the lower one too. */
  lemma RestrictionMonotone(ext: Ext, lower: int, higher: int)
    requires lower <= higher
    ensures RestrictionFor(ext, lower).Some? ==> RestrictionFor(ext, higher).Some?
    ensures RestrictionFor(ext, higher).None? ==> RestrictionFor(ext, lower).None?
  {
  }

  /** The ticket with its restriction field (re)computed. */
  function WithRestriction(t: Ticket, minimumTos: int): (r: Ticket)
    ensures r.restriction == RestrictionFor(t.ext, minimumTos)
    ensures r.(restriction := t.restriction) == t
  {
    t.(restriction := RestrictionFor(t.ext, minimumTos))
  }

  /** The credentials with a profile attached whose view falls back to the default path. */
  function Attach(credentials: Ticket, p: Profile): (r: Ticket)
    ensures r.profile.Some? && r.profile.value.user == p.user
    ensures Truthy(p.view) ==> r.profile.value.view == p.view
    ensures !Truthy(p.view) ==> r.profile.value.view == Some(DefaultViewPath)
    ensures r.(profile := credentials.profile) == credentials
  {
    var view := if Truthy(p.view) then p.view else Some(DefaultViewPath);
    credentials.(profile := Some(p.(view := view)))
  }

  /** The path of the client lookup; JavaScript renders an absent id as "undefined". */
  function AppPath(clientId: Option<string>): string {
    "/oz/app/" + (if clientId.None? then "undefined" else clientId.value)
  }

  /** Exactly one redirection target: a pre-configured callback or a supplied redirect_uri. */
  predicate OneTarget(c: Client, q: Query) {
    Truthy(c.callback) != Truthy(q.redirectUri)
  }

  /** The redirection URI: the client's callback when set, else the supplied redirect_uri. */
  function RedirectionUri(c: Client, q: Query): string
    requires Truthy(c.callback) || Truthy(q.redirectUri)
  {
    if Truthy(c.callback) then c.callback.value else q.redirectUri.value
  }

  /** The error redirect for a bad response_type, echoing the state when one was supplied. */
  function InvalidRequestRedirect(redirection: string, state: Option<string>, encode: string -> string): string {
    redirection + "?" + ErrorField + "&" + DescriptionField + (if Truthy(state) then "&" + StateKey + encode(state.value) else "")
  }

  /** The fields of the error redirect's query, in order. */
  function InvalidRequestFields(state: Option<string>, encode: string -> string): seq<string> {
    [ErrorField, DescriptionField] + (if Truthy(state) then [StateKey + encode(state.value)] else [])
  }

  /** The error redirect's fields contain neither a field separator nor a fragment mark. */
  lemma PlainFields(state: Option<string>, encode: string -> string)
    requires Truthy(state) ==> '#' !in encode(state.value) && '&' !in encode(state.value)
    ensures '&' !in ErrorField && '#' !in ErrorField && '&' !in DescriptionField && '#' !in DescriptionField
    ensures var fields := InvalidRequestFields(state, encode);
            forall i :: 0 <= i < |fields| ==> '&' !in fields[i] && '#' !in fields[i]
  {
    assert '&' !in StateKey && '#' !in StateKey;
  }

  /** The error redirect is the redirection URI, a '?', and its fields joined by '&'. */
  lemma InvalidRequestRedirectIsJoin(redirection: string, state: Option<string>, encode: string -> string)
    ensures InvalidRequestRedirect(redirection, state, encode)
         == redirection + ['?'] + Join(InvalidRequestFields(state, encode))
  {
    if Truthy(state) {
      JoinTriple(ErrorField, DescriptionField, StateKey + encode(state.value));
    } else {
      JoinPair(ErrorField, DescriptionField);
    }
  }

  /** Appending a '#'-free query to a URI without query or fragment yields
      that query and no fragment. */
  lemma QueryAppended(base: string, query: string)
    requires '#' !in base && '?' !in base && '#' !in query
    ensures Fragment(base + ['?'] + query) == None
    ensures QueryPart(base + ['?'] + query) == Some(query)
  {
    SplitAtAbsent(base + ['?'] + query, '#');
    SplitAtFirst(base, '?', query);
  }

  /** For a redirection URI without query or fragment, and an echoed state
      whose encoding has no '&' or '#', the error redirect carries no
      fragment and its query reads back as the two error fields, then the
      state when one was supplied. */
  lemma {:induction false} InvalidRequestRedirectFields(redirection: string, state: Option<string>, encode: string -> string)
    requires '#' !in redirection && '?' !in redirection
    requires Truthy(state) ==> '#' !in encode(state.value) && '&' !in encode(state.value)
    ensures Fragment(InvalidRequestRedirect(redirection, state, encode)) == None
    ensures QueryPart(InvalidRequestRedirect(redirection, state, encode)).Some?
    ensures Fields(QueryPart(InvalidRequestRedirect(redirection, state, encode)).value)
         == InvalidRequestFields(state, encode)
  {
    var fields := InvalidRequestFields(state, encode);
    PlainFields(state, encode);
    JoinFree(fields);
    InvalidRequestRedirectIsJoin(redirection, state, encode);
    QueryAppended(redirection, Join(fields));
    FieldsJoin(fields);
  }

  /** The implicit-grant success redirect: the payload after '#'. */
  function FragmentRedirect(redirection: string, payload: string): string {
    redirection + "#" + payload
  }

  /** For a redirection URI without a fragment, the payload is exactly the
      fragment of the redirect and the query is the redirection URI's own:
      the ticket never reaches the query string. */
  lemma {:induction false} FragmentRedirectCarriesPayload(redirection: string, payload: string)
    requires '#' !in redirection
    ensures Fragment(FragmentRedirect(redirection, payload)) == Some(payload)
    ensures QueryPart(FragmentRedirect(redirection, payload)) == QueryPart(redirection)
  {
    SplitAtFirst(redirection, '#', payload);
    SplitAtAbsent(redirection, '#');
  }

  /** The reissued ticket with the pending flow's state attached when it has one. */
  function WithState(t: Ticket, state: Option<string>): (r: Ticket)
    ensures r.state == (if Truthy(state) then state else t.state)
    ensures r.(state := t.state) == t
  {
    if Truthy(state) then t.(state := state) else t
  }

  /** The outcome of screening a client lookup and the query, before anything
      is stored: an early reply, or the accepted client and its redirection URI. */
  datatype Screened = Early(reply: Reply) | Accepted(client: Client, redirection: string)

  /** Checks of the authorize endpoint after the client lookup, in source order. */
  function Screen(q: Query, app: Response<Client>, encode: string -> string): (r: Screened)
    ensures r.Accepted? <==> Delivers(app) && OneTarget(app.payload.value, q) && q.responseType == Some("token")
    ensures r.Accepted? ==> r.client == app.payload.value && r.redirection == RedirectionUri(r.client, q)
    ensures r.Accepted? && Truthy(r.client.callback) ==> r.redirection == r.client.callback.value
    ensures r.Accepted? && !Truthy(r.client.callback) ==> r.redirection == q.redirectUri.value
    ensures r.Early? ==> r.reply.Fail? || r.reply.ErrorView? || r.reply.Redirect?
    ensures r.Early? && r.reply.Redirect? ==>
              Delivers(app) && OneTarget(app.payload.value, q) && q.responseType != Some("token")
              && r.reply.location == InvalidRequestRedirect(RedirectionUri(app.payload.value, q), q.state, encode)
    ensures r.Early? && r.reply.ErrorView? <==>
              app.Reply? && app.code == 404 && app.payload.Some?
    ensures r.Early? && r.reply.ErrorView? ==> r.reply == ErrorView(Unknown, UnknownClientMessage)
    ensures r.Early? && r.reply.Fail? ==>
              (r.reply.error == Internal(UnexpectedApiResponse) <==>
                 app.TransportError? || app.payload.None? || (app.code != 200 && app.code != 404))
    ensures r.Early? && r.reply.Fail? && Delivers(app) ==> !OneTarget(app.payload.value, q)
    ensures Delivers(app) && Truthy(app.payload.value.callback) && Truthy(q.redirectUri) ==>
              r == Early(Fail(Internal(CallbackAndRedirect)))
    ensures Delivers(app) && !Truthy(app.payload.value.callback) && !Truthy(q.redirectUri) ==>
              r == Early(Fail(Internal(MissingCallback)))
  {
    if app.TransportError? || app.payload.None? || (app.code != 200 && app.code != 404) then
      Early(Fail(Internal(UnexpectedApiResponse)))
    else if app.code == 404 then
      Early(ErrorView(Unknown, UnknownClientMessage))
    else
      var client := app.payload.value;
      if Truthy(client.callback) && Truthy(q.redirectUri) then
        Early(Fail(Internal(CallbackAndRedirect)))
      else if !Truthy(client.callback) && !Truthy(q.redirectUri) then
        Early(Fail(Internal(MissingCallback)))
      else
        var redirection := RedirectionUri(client, q);
        if !Truthy(q.responseType) || q.responseType.value != "token" then
          Early(Redirect(InvalidRequestRedirect(redirection, q.state, encode)))
        else
          Accepted(client, redirection)
  }

  // ---------------------------------------------------------------------
  // Handlers

  /** Fetches the profile with `credentials` and attaches it. */
  method LoadProfile(credentials: Ticket, profile: Response<Profile>) returns (result: Result<Ticket>, calls: seq<Call>)
    ensures calls == [GetProfile(credentials)]
    ensures result.Ok? <==> Delivers(profile)
    ensures result.Err? ==> result.error == Internal(FailedLoadingProfile)
    ensures result.Ok? ==> result.value == Attach(credentials, profile.payload.value)
  {
    calls := [GetProfile(credentials)];
    if profile.TransportError? || profile.code != 200 || profile.payload.None? {
      return Err(Internal(FailedLoadingProfile)), calls;
    }
    result := Ok(Attach(credentials, profile.payload.value));
  }

  /** Sets the ticket's restriction and, when there is a request, stores it.
      `updated` is the ticket after its restriction field was written. */
  method Set(store: SessionStore?, ticket: Option<Ticket>, minimumTos: int)
    returns (isValid: bool, restriction: Option<Restriction>, updated: Option<Ticket>)
    modifies store
    ensures isValid <==> ticket.Some?
    ensures !isValid ==> restriction.None? && updated.None?
    ensures isValid ==> updated == Some(WithRestriction(ticket.value, minimumTos))
    ensures isValid ==> restriction == updated.value.restriction
    ensures store != null && isValid ==>
              store.ops == old(store.ops) + [Write(updated.value)] && store.ticket == updated
    ensures store != null && !isValid ==> store.ops == old(store.ops) && store.ticket == old(store.ticket)
    ensures store != null ==> store.oz == old(store.oz)
  {
    if ticket.None? {
      return false, None, None;
    }
    var t := WithRestriction(ticket.value, minimumTos);
    if store != null {
      store.SetTicket(t);
    }
    return true, t.restriction, Some(t);
  }

  /** Reissues `session` upstream and passes the new ticket through Set. */
  method Refresh(store: SessionStore?, session: Option<Ticket>, minimumTos: int, reissue: Response<Ticket>)
    returns (result: Result<Ticket>, calls: seq<Call>)
    modifies store
    ensures session.None? ==> result == Err(Internal(MissingSessionData)) && calls == []
    ensures session.Some? ==> calls == [Reissue(None, session.value)]
    ensures session.Some? && reissue.TransportError? ==> result == Err(Internal(UnexpectedApiResponse))
    ensures session.Some? && reissue.Reply? && reissue.code != 200 ==> result == Err(BadRequest(reissue.message))
    ensures session.Some? && reissue.Reply? && reissue.code == 200 && reissue.payload.None? ==>
              result == Err(Internal(InvalidResponseParameters))
    ensures result.Ok? <==> session.Some? && Delivers(reissue)
    ensures result.Ok? ==> result.value == WithRestriction(reissue.payload.value, minimumTos)
    ensures store != null && result.Ok? ==>
              store.ops == old(store.ops) + [Write(result.value)] && store.ticket == Some(result.value)
    ensures store != null && session.Some? && reissue.Reply? && reissue.code != 200 ==>
              store.ops == old(store.ops) + [Clear] && store.ticket == None
    ensures store != null && result.Err? && !(session.Some? && reissue.Reply? && reissue.code != 200) ==>
              store.ops == old(store.ops) && store.ticket == old(store.ticket)
    ensures store != null ==> store.oz == old(store.oz)
  {
    if session.None? {
      return Err(Internal(MissingSessionData)), [];
    }
    calls := [Reissue(None, session.value)];
    if reissue.TransportError? {
      return Err(Internal(UnexpectedApiResponse)), calls;
    }
    if reissue.code != 200 {
      if store != null {
        store.ClearTicket();
      }
      return Err(BadRequest(reissue.message)), calls;
    }
    var isValid, restriction, updated := Set(store, reissue.payload, minimumTos);
    if !isValid {
      return Err(Internal(InvalidResponseParameters)), calls;
    }
    result := Ok(updated.value);
  }

  /** Validates the cookie's ticket: reissues it when it is not live, then
      attaches the profile. The reissue runs without a request, so the
      store is neither written nor cleared. */
  method Validate(session: Ticket, now: nat, minimumTos: int, reissue: Response<Ticket>, profile: Response<Profile>)
    returns (result: Result<Ticket>, calls: seq<Call>)
    ensures IsLive(session.exp, now) ==> calls == [GetProfile(session)]
    ensures !IsLive(session.exp, now) ==> |calls| >= 1 && calls[0] == Reissue(None, session)
    ensures !IsLive(session.exp, now) && !Delivers(reissue) ==>
              calls == [Reissue(None, session)] && result == Err(Internal(FailedRefreshingSession))
    ensures !IsLive(session.exp, now) && Delivers(reissue) ==>
              calls == [Reissue(None, session), GetProfile(WithRestriction(reissue.payload.value, minimumTos))]
    ensures result.Ok? <==> (IsLive(session.exp, now) || Delivers(reissue)) && Delivers(profile)
    ensures result.Ok? ==>
              |calls| >= 1 && calls[|calls| - 1].GetProfile?
              && result.value == Attach(calls[|calls| - 1].credentials, profile.payload.value)
    ensures (IsLive(session.exp, now) || Delivers(reissue)) && !Delivers(profile) ==>
              result == Err(Internal(FailedLoadingProfile))
    ensures result.Err? ==> result.error in {Internal(FailedLoadingProfile), Internal(FailedRefreshingSession)}
  {
    if IsLive(session.exp, now) {
      result, calls := LoadProfile(session, profile);
      return;
    }
    var refreshed, reissueCalls := Refresh(null, Some(session), minimumTos, reissue);
    if refreshed.Err? {
      return Err(Internal(FailedRefreshingSession)), reissueCalls;
    }
    var profileCalls;
    result, profileCalls := LoadProfile(refreshed.value, profile);
    calls := reissueCalls + profileCalls;
  }

  /** GET /oz/authorize, as written: the request is refused when it names a
      client, the pending state replaces the flow record when a state is
      supplied, and the warning is raised for clients with a callback. */
  method Ask(store: SessionStore, q: Query, app: Response<Client>, encode: string -> string)
    returns (reply: Reply, calls: seq<Call>)
    modifies store
    ensures store.ticket == old(store.ticket) && store.ops == old(store.ops)
    ensures Truthy(q.clientId) ==> reply == ErrorView(Code500, MisconfiguredClientMessage) && calls == []
    ensures !Truthy(q.clientId) ==> calls == [GetApp(AppPath(q.clientId))]
    ensures !Truthy(q.clientId) && Screen(q, app, encode).Early? ==> reply == Screen(q, app, encode).reply
    ensures reply.ConsentView? <==> !Truthy(q.clientId) && Screen(q, app, encode).Accepted?
    ensures !reply.ConsentView? ==> store.oz == old(store.oz)
    ensures reply.ConsentView? ==>
              var c := app.payload.value;
              reply == ConsentView(c.title, c.description, Truthy(c.callback))
              && store.oz == Some(if Truthy(q.state) then RawState(q.state.value)
                                  else Flow(c, RedirectionUri(c, q), None))
  {
    if Truthy(q.clientId) {
      return ErrorView(Code500, MisconfiguredClientMessage), [];
    }
    calls := [GetApp(AppPath(q.clientId))];
    var screened := Screen(q, app, encode);
    if screened.Early? {
      return screened.reply, calls;
    }
    var client := screened.client;
    var pending := Flow(client, screened.redirection, None);
    if Truthy(q.state) {
      pending := RawState(q.state.value);
    }
    store.SetOz(pending);
    reply := ConsentView(client.title, client.description, Truthy(client.callback));
  }

  /** Whether the 'oz' slot holds a flow record, which is what answer needs. */
  predicate HasFlow(slot: Option<PendingFlow>) {
    slot.Some? && slot.value.Flow?
  }

  /** POST /oz/authorize/answer: consumes the 'oz' slot, reissues the caller's
      credentials to the pending client and redirects with the ticket in the
      fragment. */
  method Answer(store: SessionStore, credentials: Ticket, reissue: Response<Ticket>, stringify: Ticket -> string)
    returns (reply: Reply, calls: seq<Call>)
    modifies store
    ensures store.oz == None && store.ticket == old(store.ticket) && store.ops == old(store.ops)
    ensures !HasFlow(old(store.oz)) ==> reply == Redirect(LandingPage) && calls == []
    ensures HasFlow(old(store.oz)) ==>
              calls == [Reissue(Some(IssueOptions(old(store.oz).value.client.id, [])), credentials)]
    ensures HasFlow(old(store.oz)) && (reissue.TransportError? || reissue.code != 200) ==>
              reply == Fail(Internal(UnexpectedApiResponse))
    ensures HasFlow(old(store.oz)) && Delivers(reissue) ==>
              var flow := old(store.oz).value;
              reply == Redirect(FragmentRedirect(flow.redirection, stringify(WithState(reissue.payload.value, flow.state))))
    ensures HasFlow(old(store.oz)) && reissue.Reply? && reissue.code == 200 && reissue.payload.None? ==>
              var flow := old(store.oz).value;
              reply == if Truthy(flow.state) then Crash else Redirect(FragmentRedirect(flow.redirection, ""))
  {
    var slot := store.TakeOz();
    if !HasFlow(slot) {
      return Redirect(LandingPage), [];
    }
    var flow := slot.value;
    calls := [Reissue(Some(IssueOptions(flow.client.id, [])), credentials)];
    if reissue.TransportError? || reissue.code != 200 {
      return Fail(Internal(UnexpectedApiResponse)), calls;
    }
    if reissue.payload.None? {
      // `ticket.state = …` on a null ticket throws; stringify(null) is empty
      reply := if Truthy(flow.state) then Crash else Redirect(FragmentRedirect(flow.redirection, ""));
      return;
    }
    var ticket := WithState(reissue.payload.value, flow.state);
    reply := Redirect(FragmentRedirect(flow.redirection, stringify(ticket)));
  }

  /** The pending flow is redeemed at most once: whatever the first answer
      did, a second answer on the same session lands on the home page
      without any upstream call. */
  method AnswerIsOneShot(store: SessionStore, credentials: Ticket, first: Response<Ticket>, second: Response<Ticket>,
                         stringify: Ticket -> string)
    returns (firstReply: Reply, secondReply: Reply, secondCalls: seq<Call>)
    modifies store
    ensures store.oz == None && store.ticket == old(store.ticket) && store.ops == old(store.ops)
    ensures secondReply == Redirect(LandingPage) && secondCalls == []
  {
    var firstCalls;
    firstReply, firstCalls := Answer(store, credentials, first, stringify);
    secondReply, secondCalls := Answer(store, credentials, second, stringify);
  }

  /** GET /session: reissues the caller's credentials to the view client and
      refuses a ticket that would be restricted. */
  method SessionEndpoint(viewClientId: string, credentials: Ticket, minimumTos: int, reissue: Response<Ticket>)
    returns (reply: Reply, calls: seq<Call>)
    ensures calls == [Reissue(Some(IssueOptions(viewClientId, [])), credentials)]
    ensures reissue.TransportError? || reissue.code != 200 ==> reply == Fail(Internal(FailedRefresh))
    ensures reply.TicketReply? <==> Delivers(reissue) && RestrictionFor(reissue.payload.value.ext, minimumTos).None?
    ensures reply.TicketReply? ==> reply.ticket == reissue.payload.value
    ensures Delivers(reissue) && RestrictionFor(reissue.payload.value.ext, minimumTos).Some? ==>
              reply == Fail(BadRequest(Some(RestrictedSession)))
    ensures reissue.Reply? && reissue.code == 200 && reissue.payload.None? ==> reply == Crash
  {
    calls := [Reissue(Some(IssueOptions(viewClientId, [])), credentials)];
    if reissue.TransportError? || reissue.code != 200 {
      return Fail(Internal(FailedRefresh)), calls;
    }
    if reissue.payload.None? {
      // `ticket.ext` on a null ticket throws
      return Crash, calls;
    }
    var ticket := reissue.payload.value;
    if RestrictionFor(ticket.ext, minimumTos).Some? {
      return Fail(BadRequest(Some(RestrictedSession))), calls;
    }
    reply := TicketReply(ticket);
  }
}
