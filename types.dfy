/** Values exchanged by the session layer: tickets, profiles, third-party
    clients, authorize-endpoint queries, upstream replies and handler replies. */
module Types {

  datatype Option<T> = None | Some(value: T)

  /** JavaScript truthiness of an optional string: an absent value and the
      empty string are both falsy. */
  predicate Truthy(s: Option<string>) {
    s.Some? && s.value != ""
  }

  /** The only restriction tag a ticket can carry ('tos'); `None` stands for null. */
  datatype Restriction = Tos

  /** A ticket's `ext` record; `tos` is the accepted terms-of-service version,
      absent when the authorization service did not record one. */
  datatype Ext = Ext(tos: Option<int>)

  /** The user profile returned by GET /profile; `view` is the default landing path. */
  datatype Profile = Profile(user: string, view: Option<string>)

  /** An Oz ticket as the session layer sees it: `id` stands for the opaque
      signed fields, the rest are the fields this layer reads or writes. */
  datatype Ticket = Ticket(
    id: string,
    exp: Option<int>,
    ext: Ext,
    restriction: Option<Restriction>,
    state: Option<string>,
    profile: Option<Profile>)

  /** A registered third-party application, as returned by GET /oz/app/{id}. */
  datatype Client = Client(id: string, title: string, description: string, callback: Option<string>)

  /** The query string of GET /oz/authorize. */
  datatype Query = Query(
    clientId: Option<string>,
    responseType: Option<string>,
    redirectUri: Option<string>,
    state: Option<string>)

  /** The result of one upstream request: a transport error, or a status code
      with the reply body read as the expected record (`None` when the body
      is null) and the body's `message` property. */
  datatype Response<T> =
    | TransportError
    | Reply(code: int, payload: Option<T>, message: Option<string>)

  /** A reply with status 200 whose body is not null. */
  predicate Delivers<T>(r: Response<T>) {
    r.Reply? && r.code == 200 && r.payload.Some?
  }

  /** The `{issueTo, scope}` options of a reissue request. */
  datatype IssueOptions = IssueOptions(issueTo: string, scope: seq<string>)

  /** One upstream request, with the credentials it was signed with. */
  datatype Call =
    | GetProfile(credentials: Ticket)
    | Reissue(options: Option<IssueOptions>, credentials: Ticket)
    | GetApp(path: string)

  /** Boom errors raised by the handlers. */
  datatype Boom = Internal(message: string) | BadRequest(reason: Option<string>)

  datatype Result<T> = Ok(value: T) | Err(error: Boom)

  /** The two `code` values of the error view's locals. */
  datatype ErrorCode = Code500 | Unknown

  /** What a route handler sends back. `Crash` is an uncaught TypeError
      (a property read or write on null), which the framework answers with a 500. */
  datatype Reply =
    | Fail(error: Boom)
    | ErrorView(code: ErrorCode, message: string)
    | ConsentView(title: string, description: string, warning: bool)
    | Redirect(location: string)
    | TicketReply(ticket: Ticket)
    | Crash

  /** The value kept in the session bag's 'oz' slot between ask and answer:
      either a pending-flow record or a bare state string. */
  datatype PendingFlow =
    | Flow(client: Client, redirection: string, state: Option<string>)
    | RawState(value: string)

  /** One operation on the cookie's ticket slot. */
  datatype SlotOp = Write(ticket: Ticket) | Clear
}
