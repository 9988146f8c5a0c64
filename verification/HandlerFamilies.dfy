/**
 The two families of handlers: those that call the server directly (`local_request_`) and those that call
 it over a connection (`request_`, the handlers of the route table). A request served by either family is
 turned away at the same stage, or reaches the same operation with the same message.
 */
module HandlerFamilies {
  import opened Options
  import opened Dispatch
  import opened RouteTable
  import opened RouteDispatch
  import opened RequestAssembly

  function DirectAccounts(e: AccountsEndpoint): Handler {
    match e
    case SessionRefresh | SessionLogout | UpdateAccount =>
      Handler(WholeBody, [], None)
    case DeleteAccount | GetAccount =>
      Handler(NoBody, [], None)
  }

  function DirectAuthentication(e: AuthenticationEndpoint): Handler {
    match e
    case AuthenticateApple | AuthenticateCustom | AuthenticateDevice | AuthenticateEmail | AuthenticateFacebook
         | AuthenticateFacebookInstantGame | AuthenticateGameCenter | AuthenticateGoogle | AuthenticateTelegram
         | AuthenticateEvm | AuthenticateSteam | AuthenticateTwitter =>
      Handler(FieldBody("account"), [], Some(["account"]))
    case SendTelegramAuthOTP | SendEmailAuthOTP | AuthenticateUA =>
      Handler(WholeBody, [], None)
  }

  function DirectLinking(e: LinkingEndpoint): Handler {
    match e
    case LinkApple | LinkEvm | LinkCustom | LinkDevice | LinkEmail | LinkFacebookInstantGame | LinkGameCenter
         | LinkGoogle | LinkSteam =>
      Handler(WholeBody, [], None)
    case LinkFacebook =>
      Handler(FieldBody("account"), [], Some(["account"]))
  }

  function DirectUnlinking(e: UnlinkingEndpoint): Handler {
    match e
    case UnlinkApple | UnlinkCustom | UnlinkDevice | UnlinkEmail | UnlinkFacebook | UnlinkFacebookInstantGame
         | UnlinkGameCenter | UnlinkGoogle | UnlinkSteam =>
      Handler(WholeBody, [], None)
  }

  function DirectSocial(e: SocialEndpoint): Handler {
    match e
    case AddFriends | BlockFriends | DeleteFriends | DeleteNotifications | GetUsers | ListFriends
         | ListFriendsOfFriends | ListGroups | ListNotifications =>
      Handler(NoBody, [], Some([]))
    case AddGroupUsers | BanGroupUsers | KickGroupUsers | ListGroupUsers | PromoteGroupUsers | DemoteGroupUsers =>
      Handler(NoBody, ["group_id"], Some(["group_id"]))
    case CreateGroup =>
      Handler(WholeBody, [], None)
    case DeleteGroup | JoinGroup | LeaveGroup =>
      Handler(NoBody, ["group_id"], None)
    case ImportFacebookFriends | ImportSteamFriends =>
      Handler(FieldBody("account"), [], Some(["account"]))
    case ListChannelMessages =>
      Handler(NoBody, ["channel_id"], Some(["channel_id"]))
    case ListUserGroups =>
      Handler(NoBody, ["user_id"], Some(["user_id"]))
    case UpdateGroup =>
      Handler(WholeBody, ["group_id"], None)
  }

  function DirectRecords(e: RecordsEndpoint): Handler {
    match e
    case DeleteLeaderboardRecord =>
      Handler(NoBody, ["leaderboard_id"], None)
    case DeleteTournamentRecord | JoinTournament =>
      Handler(NoBody, ["tournament_id"], None)
    case ListLeaderboardRecords =>
      Handler(NoBody, ["leaderboard_id"], Some(["leaderboard_id"]))
    case ListLeaderboardRecordsAroundOwner =>
      Handler(NoBody, ["leaderboard_id", "owner_id"], Some(["leaderboard_id", "owner_id"]))
    case ListTournaments =>
      Handler(NoBody, [], Some([]))
    case ListTournamentRecords =>
      Handler(NoBody, ["tournament_id"], Some(["tournament_id"]))
    case ListTournamentRecordsAroundOwner =>
      Handler(NoBody, ["tournament_id", "owner_id"], Some(["tournament_id", "owner_id"]))
    case WriteLeaderboardRecord =>
      Handler(FieldBody("record"), ["leaderboard_id"], None)
    case WriteTournamentRecord0 | WriteTournamentRecord1 =>
      Handler(FieldBody("record"), ["tournament_id"], None)
  }

  function DirectServices(e: ServicesEndpoint): Handler {
    match e
    case DeleteStorageObjects | Event | ListSubscriptions | ReadStorageObjects | ValidatePurchaseApple
         | ValidateSubscriptionApple | ValidatePurchaseGoogle | ValidateSubscriptionGoogle
         | ValidatePurchaseHuawei | ValidatePurchaseFacebookInstant | WriteStorageObjects =>
      Handler(WholeBody, [], None)
    case GetSubscription =>
      Handler(NoBody, ["product_id"], None)
    case GetMatchmakerStats | Healthcheck =>
      Handler(NoBody, [], None)
    case ListMatches =>
      Handler(NoBody, [], Some([]))
    case ListStorageObjects0 =>
      Handler(NoBody, ["collection"], Some(["collection"]))
    case ListStorageObjects1 =>
      Handler(NoBody, ["collection", "user_id"], Some(["collection", "user_id"]))
    case RpcFunc0 =>
      Handler(FieldBody("payload"), ["id"], Some(["payload", "id"]))
    case RpcFunc1 =>
      Handler(NoBody, ["id"], Some(["id"]))
  }

  function DirectHandler(e: Endpoint): Handler {
    match e
    case Accounts(x) => DirectAccounts(x)
    case Authentication(x) => DirectAuthentication(x)
    case Linking(x) => DirectLinking(x)
    case Unlinking(x) => DirectUnlinking(x)
    case Social(x) => DirectSocial(x)
    case Records(x) => DirectRecords(x)
    case Services(x) => DirectServices(x)
  }

  function RemoteHandler(e: Endpoint): Handler {
    RowOf(e).handler
  }

  /** The two handlers of an endpoint read the same things in the same order. */
  lemma HandlersAlike(e: Endpoint)
    ensures DirectHandler(e) == RemoteHandler(e)
  {
    match e
    case Accounts(x) => assert DirectAccounts(x) == AccountsRow(x).handler;
    case Authentication(x) => assert DirectAuthentication(x) == AuthenticationRow(x).handler;
    case Linking(x) => assert DirectLinking(x) == LinkingRow(x).handler;
    case Unlinking(x) => assert DirectUnlinking(x) == UnlinkingRow(x).handler;
    case Social(x) => assert DirectSocial(x) == SocialRow(x).handler;
    case Records(x) => assert DirectRecords(x) == RecordsRow(x).handler;
    case Services(x) => assert DirectServices(x) == ServicesRow(x).handler;
  }

  /** What becomes of a request: no route, or the endpoint it is for and what that endpoint's handler makes of it. */
  datatype Reply = NotFound | Handled(endpoint: Endpoint, outcome: Outcome)

  function Answer(table: seq<Route<Endpoint>>, handlers: Endpoint -> Handler, verb: Verb, path: seq<string>,
                  body: Option<Message>, form: Option<seq<Entry>>, schema: Schema): Reply
  {
    match Serve(table, verb, path)
    case None => NotFound
    case Some(hit) =>
      var e := hit.route.handler;
      Handled(e, Assemble(handlers(e), Request(body, hit.params, form), schema))
  }

  /** One form, read in any two orders. */
  ghost predicate SameForm(f: Option<seq<Entry>>, g: Option<seq<Entry>>) {
    || (f.None? && g.None?)
    || (&& f.Some? && g.Some? && DistinctKeys(f.value) && DistinctKeys(g.value)
        && forall en :: en in f.value <==> en in g.value)
  }

  /** The families simulate each other: whatever order the routes were registered in and whatever order the form
      is iterated in on either side, every request gets the same reply, error or message. */
  lemma FamiliesSimulate(servers: seq<Route<Endpoint>>, clients: seq<Route<Endpoint>>, verb: Verb, path: seq<string>,
                         body: Option<Message>, f: Option<seq<Entry>>, g: Option<seq<Entry>>, schema: Schema)
    requires Registers(servers) && multiset(servers) == multiset(clients) && SameForm(f, g)
    ensures Answer(servers, DirectHandler, verb, path, body, f, schema)
         == Answer(clients, RemoteHandler, verb, path, body, g, schema)
  {
    RegistrationOrderIrrelevant(servers, clients, verb, path);
    var hit := Serve(servers, verb, path);
    if hit.Some? {
      var e, params := hit.value.route.handler, hit.value.params;
      HandlersAlike(e);
      if f.Some? {
        FormOrderIrrelevant(e, Request(body, params, f), Request(body, params, g), schema);
      }
    }
  }

  /** No reply to a dispatched request reports a missing parameter, on either side. */
  lemma NeverMissing(table: seq<Route<Endpoint>>, verb: Verb, path: seq<string>,
                     body: Option<Message>, form: Option<seq<Entry>>, schema: Schema)
    requires Registers(table)
    ensures var r := Answer(table, DirectHandler, verb, path, body, form, schema);
            r.Handled? ==> !r.outcome.MissingParameter?
    ensures var r := Answer(table, RemoteHandler, verb, path, body, form, schema);
            r.Handled? ==> !r.outcome.MissingParameter?
  {
    var hit := Serve(table, verb, path);
    if hit.Some? {
      HandlersAlike(hit.value.route.handler);
      ServedNeverMissing(table, verb, path, Request(body, hit.value.params, form), schema);
    }
  }
}
