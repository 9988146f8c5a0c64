/**
 The gateway's endpoints as registered: verb and path template, the compiled program stored beside the
 template, and what the endpoint's handler reads. The nine template shapes in use are named by their
 segments, L for a literal and V for a variable.
 */
module RouteTable {
  import opened Options
  import opened PathTemplates
  import opened Dispatch

  /** What of the request body a handler decodes. */
  datatype Body = NoBody | WholeBody | FieldBody(field: string)

  /** What a handler reads: body, path parameters in the order it looks them up, and, if it reads the query at
      all, the names its filter lists. */
  datatype Handler = Handler(body: Body, lookups: seq<string>, filter: Option<seq<string>>)

  datatype Row = Row(verb: Verb, template: Template, program: Program, handler: Handler)

  function L(a: string): Template {
    [Lit(a)]
  }

  function LL(a: string, b: string): Template {
    [Lit(a), Lit(b)]
  }

  function LLL(a: string, b: string, c: string): Template {
    [Lit(a), Lit(b), Lit(c)]
  }

  function LLV(a: string, b: string, c: string): Template {
    [Lit(a), Lit(b), Var(c)]
  }

  function LLLL(a: string, b: string, c: string, d: string): Template {
    [Lit(a), Lit(b), Lit(c), Lit(d)]
  }

  function LLVL(a: string, b: string, c: string, d: string): Template {
    [Lit(a), Lit(b), Var(c), Lit(d)]
  }

  function LLLV(a: string, b: string, c: string, d: string): Template {
    [Lit(a), Lit(b), Lit(c), Var(d)]
  }

  function LLVV(a: string, b: string, c: string, d: string): Template {
    [Lit(a), Lit(b), Var(c), Var(d)]
  }

  function LLVLV(a: string, b: string, c: string, d: string, e: string): Template {
    [Lit(a), Lit(b), Var(c), Lit(d), Var(e)]
  }

  const L_OPS := [2, 0]
  const LL_OPS := [2, 0, 2, 1]
  const LLL_OPS := [2, 0, 2, 1, 2, 2]
  const LLV_OPS := [2, 0, 2, 1, 1, 0, 4, 1, 5, 2]
  const LLLL_OPS := [2, 0, 2, 1, 2, 2, 2, 3]
  const LLVL_OPS := [2, 0, 2, 1, 1, 0, 4, 1, 5, 2, 2, 3]
  const LLLV_OPS := [2, 0, 2, 1, 2, 2, 1, 0, 4, 1, 5, 3]
  const LLVV_OPS := [2, 0, 2, 1, 1, 0, 4, 1, 5, 2, 1, 0, 4, 1, 5, 3]
  const LLVLV_OPS := [2, 0, 2, 1, 1, 0, 4, 1, 5, 2, 2, 3, 1, 0, 4, 1, 5, 4]

  datatype AccountsEndpoint =
    | SessionRefresh | SessionLogout | DeleteAccount | GetAccount | UpdateAccount

  datatype AuthenticationEndpoint =
    | AuthenticateApple | AuthenticateCustom | AuthenticateDevice | AuthenticateEmail | AuthenticateFacebook
    | AuthenticateFacebookInstantGame | AuthenticateGameCenter | AuthenticateGoogle | AuthenticateTelegram
    | SendTelegramAuthOTP | SendEmailAuthOTP | AuthenticateUA | AuthenticateEvm | AuthenticateSteam
    | AuthenticateTwitter

  datatype LinkingEndpoint =
    | LinkApple | LinkEvm | LinkCustom | LinkDevice | LinkEmail | LinkFacebook | LinkFacebookInstantGame
    | LinkGameCenter | LinkGoogle | LinkSteam

  datatype UnlinkingEndpoint =
    | UnlinkApple | UnlinkCustom | UnlinkDevice | UnlinkEmail | UnlinkFacebook | UnlinkFacebookInstantGame
    | UnlinkGameCenter | UnlinkGoogle | UnlinkSteam

  datatype SocialEndpoint =
    | AddFriends | AddGroupUsers | BanGroupUsers | BlockFriends | CreateGroup | DeleteFriends | DeleteGroup
    | DeleteNotifications | GetUsers | ImportFacebookFriends | ImportSteamFriends | JoinGroup | KickGroupUsers
    | LeaveGroup | ListChannelMessages | ListFriends | ListFriendsOfFriends | ListGroups | ListGroupUsers
    | ListNotifications | ListUserGroups | PromoteGroupUsers | DemoteGroupUsers | UpdateGroup

  datatype RecordsEndpoint =
    | DeleteLeaderboardRecord | DeleteTournamentRecord | JoinTournament | ListLeaderboardRecords
    | ListLeaderboardRecordsAroundOwner | ListTournaments | ListTournamentRecords
    | ListTournamentRecordsAroundOwner | WriteLeaderboardRecord | WriteTournamentRecord0
    | WriteTournamentRecord1

  datatype ServicesEndpoint =
    | DeleteStorageObjects | Event | GetSubscription | GetMatchmakerStats | Healthcheck | ListMatches
    | ListStorageObjects0 | ListStorageObjects1 | ListSubscriptions | ReadStorageObjects | RpcFunc0 | RpcFunc1
    | ValidatePurchaseApple | ValidateSubscriptionApple | ValidatePurchaseGoogle | ValidateSubscriptionGoogle
    | ValidatePurchaseHuawei | ValidatePurchaseFacebookInstant | WriteStorageObjects

  datatype Endpoint =
    | Accounts(accounts: AccountsEndpoint)
    | Authentication(authentication: AuthenticationEndpoint)
    | Linking(linking: LinkingEndpoint)
    | Unlinking(unlinking: UnlinkingEndpoint)
    | Social(social: SocialEndpoint)
    | Records(records: RecordsEndpoint)
    | Services(services: ServicesEndpoint)

  function AccountsRow(e: AccountsEndpoint): Row {
    match e
    case SessionRefresh =>
      Row(POST, LLLL("v2", "account", "session", "refresh"),
          Program(LLLL_OPS, ["v2", "account", "session", "refresh"]),
          Handler(WholeBody, [], None))
    case SessionLogout =>
      Row(POST, LLL("v2", "session", "logout"),
          Program(LLL_OPS, ["v2", "session", "logout"]),
          Handler(WholeBody, [], None))
    case DeleteAccount =>
      Row(DELETE, LL("v2", "account"),
          Program(LL_OPS, ["v2", "account"]),
          Handler(NoBody, [], None))
    case GetAccount =>
      Row(GET, LL("v2", "account"),
          Program(LL_OPS, ["v2", "account"]),
          Handler(NoBody, [], None))
    case UpdateAccount =>
      Row(PUT, LL("v2", "account"),
          Program(LL_OPS, ["v2", "account"]),
          Handler(WholeBody, [], None))
  }

  function AuthenticationRow(e: AuthenticationEndpoint): Row {
    match e
    case AuthenticateApple =>
      Row(POST, LLLL("v2", "account", "authenticate", "apple"),
          Program(LLLL_OPS, ["v2", "account", "authenticate", "apple"]),
          Handler(FieldBody("account"), [], Some(["account"])))
    case AuthenticateCustom =>
      Row(POST, LLLL("v2", "account", "authenticate", "custom"),
          Program(LLLL_OPS, ["v2", "account", "authenticate", "custom"]),
          Handler(FieldBody("account"), [], Some(["account"])))
    case AuthenticateDevice =>
      Row(POST, LLLL("v2", "account", "authenticate", "device"),
          Program(LLLL_OPS, ["v2", "account", "authenticate", "device"]),
          Handler(FieldBody("account"), [], Some(["account"])))
    case AuthenticateEmail =>
      Row(POST, LLLL("v2", "account", "authenticate", "email"),
          Program(LLLL_OPS, ["v2", "account", "authenticate", "email"]),
          Handler(FieldBody("account"), [], Some(["account"])))
    case AuthenticateFacebook =>
      Row(POST, LLLL("v2", "account", "authenticate", "facebook"),
          Program(LLLL_OPS, ["v2", "account", "authenticate", "facebook"]),
          Handler(FieldBody("account"), [], Some(["account"])))
    case AuthenticateFacebookInstantGame =>
      Row(POST, LLLL("v2", "account", "authenticate", "facebookinstantgame"),
          Program(LLLL_OPS, ["v2", "account", "authenticate", "facebookinstantgame"]),
          Handler(FieldBody("account"), [], Some(["account"])))
    case AuthenticateGameCenter =>
      Row(POST, LLLL("v2", "account", "authenticate", "gamecenter"),
          Program(LLLL_OPS, ["v2", "account", "authenticate", "gamecenter"]),
          Handler(FieldBody("account"), [], Some(["account"])))
    case AuthenticateGoogle =>
      Row(POST, LLLL("v2", "account", "authenticate", "google"),
          Program(LLLL_OPS, ["v2", "account", "authenticate", "google"]),
          Handler(FieldBody("account"), [], Some(["account"])))
    case AuthenticateTelegram =>
      Row(POST, LLLL("v2", "account", "authenticate", "telegram"),
          Program(LLLL_OPS, ["v2", "account", "authenticate", "telegram"]),
          Handler(FieldBody("account"), [], Some(["account"])))
    case SendTelegramAuthOTP =>
      Row(POST, LLLL("v2", "account", "authenticate-ua", "telegram-otp"),
          Program(LLLL_OPS, ["v2", "account", "authenticate-ua", "telegram-otp"]),
          Handler(WholeBody, [], None))
    case SendEmailAuthOTP =>
      Row(POST, LLLL("v2", "account", "authenticate-ua", "email-otp"),
          Program(LLLL_OPS, ["v2", "account", "authenticate-ua", "email-otp"]),
          Handler(WholeBody, [], None))
    case AuthenticateUA =>
      Row(POST, LLLL("v2", "account", "authenticate", "ua"),
          Program(LLLL_OPS, ["v2", "account", "authenticate", "ua"]),
          Handler(WholeBody, [], None))
    case AuthenticateEvm =>
      Row(POST, LLLL("v2", "account", "authenticate", "evm"),
          Program(LLLL_OPS, ["v2", "account", "authenticate", "evm"]),
          Handler(FieldBody("account"), [], Some(["account"])))
    case AuthenticateSteam =>
      Row(POST, LLLL("v2", "account", "authenticate", "steam"),
          Program(LLLL_OPS, ["v2", "account", "authenticate", "steam"]),
          Handler(FieldBody("account"), [], Some(["account"])))
    case AuthenticateTwitter =>
      Row(POST, LLLL("v2", "account", "authenticate", "twitter"),
          Program(LLLL_OPS, ["v2", "account", "authenticate", "twitter"]),
          Handler(FieldBody("account"), [], Some(["account"])))
  }

  function LinkingRow(e: LinkingEndpoint): Row {
    match e
    case LinkApple =>
      Row(POST, LLLL("v2", "account", "link", "apple"),
          Program(LLLL_OPS, ["v2", "account", "link", "apple"]),
          Handler(WholeBody, [], None))
    case LinkEvm =>
      Row(POST, LLLL("v2", "account", "link", "evm"),
          Program(LLLL_OPS, ["v2", "account", "link", "evm"]),
          Handler(WholeBody, [], None))
    case LinkCustom =>
      Row(POST, LLLL("v2", "account", "link", "custom"),
          Program(LLLL_OPS, ["v2", "account", "link", "custom"]),
          Handler(WholeBody, [], None))
    case LinkDevice =>
      Row(POST, LLLL("v2", "account", "link", "device"),
          Program(LLLL_OPS, ["v2", "account", "link", "device"]),
          Handler(WholeBody, [], None))
    case LinkEmail =>
      Row(POST, LLLL("v2", "account", "link", "email"),
          Program(LLLL_OPS, ["v2", "account", "link", "email"]),
          Handler(WholeBody, [], None))
    case LinkFacebook =>
      Row(POST, LLLL("v2", "account", "link", "facebook"),
          Program(LLLL_OPS, ["v2", "account", "link", "facebook"]),
          Handler(FieldBody("account"), [], Some(["account"])))
    case LinkFacebookInstantGame =>
      Row(POST, LLLL("v2", "account", "link", "facebookinstantgame"),
          Program(LLLL_OPS, ["v2", "account", "link", "facebookinstantgame"]),
          Handler(WholeBody, [], None))
    case LinkGameCenter =>
      Row(POST, LLLL("v2", "account", "link", "gamecenter"),
          Program(LLLL_OPS, ["v2", "account", "link", "gamecenter"]),
          Handler(WholeBody, [], None))
    case LinkGoogle =>
      Row(POST, LLLL("v2", "account", "link", "google"),
          Program(LLLL_OPS, ["v2", "account", "link", "google"]),
          Handler(WholeBody, [], None))
    case LinkSteam =>
      Row(POST, LLLL("v2", "account", "link", "steam"),
          Program(LLLL_OPS, ["v2", "account", "link", "steam"]),
          Handler(WholeBody, [], None))
  }

  function UnlinkingRow(e: UnlinkingEndpoint): Row {
    match e
    case UnlinkApple =>
      Row(POST, LLLL("v2", "account", "unlink", "apple"),
          Program(LLLL_OPS, ["v2", "account", "unlink", "apple"]),
          Handler(WholeBody, [], None))
    case UnlinkCustom =>
      Row(POST, LLLL("v2", "account", "unlink", "custom"),
          Program(LLLL_OPS, ["v2", "account", "unlink", "custom"]),
          Handler(WholeBody, [], None))
    case UnlinkDevice =>
      Row(POST, LLLL("v2", "account", "unlink", "device"),
          Program(LLLL_OPS, ["v2", "account", "unlink", "device"]),
          Handler(WholeBody, [], None))
    case UnlinkEmail =>
      Row(POST, LLLL("v2", "account", "unlink", "email"),
          Program(LLLL_OPS, ["v2", "account", "unlink", "email"]),
          Handler(WholeBody, [], None))
    case UnlinkFacebook =>
      Row(POST, LLLL("v2", "account", "unlink", "facebook"),
          Program(LLLL_OPS, ["v2", "account", "unlink", "facebook"]),
          Handler(WholeBody, [], None))
    case UnlinkFacebookInstantGame =>
      Row(POST, LLLL("v2", "account", "unlink", "facebookinstantgame"),
          Program(LLLL_OPS, ["v2", "account", "unlink", "facebookinstantgame"]),
          Handler(WholeBody, [], None))
    case UnlinkGameCenter =>
      Row(POST, LLLL("v2", "account", "unlink", "gamecenter"),
          Program(LLLL_OPS, ["v2", "account", "unlink", "gamecenter"]),
          Handler(WholeBody, [], None))
    case UnlinkGoogle =>
      Row(POST, LLLL("v2", "account", "unlink", "google"),
          Program(LLLL_OPS, ["v2", "account", "unlink", "google"]),
          Handler(WholeBody, [], None))
    case UnlinkSteam =>
      Row(POST, LLLL("v2", "account", "unlink", "steam"),
          Program(LLLL_OPS, ["v2", "account", "unlink", "steam"]),
          Handler(WholeBody, [], None))
  }

  function SocialRow(e: SocialEndpoint): Row {
    match e
    case AddFriends =>
      Row(POST, LL("v2", "friend"),
          Program(LL_OPS, ["v2", "friend"]),
          Handler(NoBody, [], Some([])))
    case AddGroupUsers =>
      Row(POST, LLVL("v2", "group", "group_id", "add"),
          Program(LLVL_OPS, ["v2", "group", "group_id", "add"]),
          Handler(NoBody, ["group_id"], Some(["group_id"])))
    case BanGroupUsers =>
      Row(POST, LLVL("v2", "group", "group_id", "ban"),
          Program(LLVL_OPS, ["v2", "group", "group_id", "ban"]),
          Handler(NoBody, ["group_id"], Some(["group_id"])))
    case BlockFriends =>
      Row(POST, LLL("v2", "friend", "block"),
          Program(LLL_OPS, ["v2", "friend", "block"]),
          Handler(NoBody, [], Some([])))
    case CreateGroup =>
      Row(POST, LL("v2", "group"),
          Program(LL_OPS, ["v2", "group"]),
          Handler(WholeBody, [], None))
    case DeleteFriends =>
      Row(DELETE, LL("v2", "friend"),
          Program(LL_OPS, ["v2", "friend"]),
          Handler(NoBody, [], Some([])))
    case DeleteGroup =>
      Row(DELETE, LLV("v2", "group", "group_id"),
          Program(LLV_OPS, ["v2", "group", "group_id"]),
          Handler(NoBody, ["group_id"], None))
    case DeleteNotifications =>
      Row(DELETE, LL("v2", "notification"),
          Program(LL_OPS, ["v2", "notification"]),
          Handler(NoBody, [], Some([])))
    case GetUsers =>
      Row(GET, LL("v2", "user"),
          Program(LL_OPS, ["v2", "user"]),
          Handler(NoBody, [], Some([])))
    case ImportFacebookFriends =>
      Row(POST, LLL("v2", "friend", "facebook"),
          Program(LLL_OPS, ["v2", "friend", "facebook"]),
          Handler(FieldBody("account"), [], Some(["account"])))
    case ImportSteamFriends =>
      Row(POST, LLL("v2", "friend", "steam"),
          Program(LLL_OPS, ["v2", "friend", "steam"]),
          Handler(FieldBody("account"), [], Some(["account"])))
    case JoinGroup =>
      Row(POST, LLVL("v2", "group", "group_id", "join"),
          Program(LLVL_OPS, ["v2", "group", "group_id", "join"]),
          Handler(NoBody, ["group_id"], None))
    case KickGroupUsers =>
      Row(POST, LLVL("v2", "group", "group_id", "kick"),
          Program(LLVL_OPS, ["v2", "group", "group_id", "kick"]),
          Handler(NoBody, ["group_id"], Some(["group_id"])))
    case LeaveGroup =>
      Row(POST, LLVL("v2", "group", "group_id", "leave"),
          Program(LLVL_OPS, ["v2", "group", "group_id", "leave"]),
          Handler(NoBody, ["group_id"], None))
    case ListChannelMessages =>
      Row(GET, LLV("v2", "channel", "channel_id"),
          Program(LLV_OPS, ["v2", "channel", "channel_id"]),
          Handler(NoBody, ["channel_id"], Some(["channel_id"])))
    case ListFriends =>
      Row(GET, LL("v2", "friend"),
          Program(LL_OPS, ["v2", "friend"]),
          Handler(NoBody, [], Some([])))
    case ListFriendsOfFriends =>
      Row(GET, LLL("v2", "friend", "friends"),
          Program(LLL_OPS, ["v2", "friend", "friends"]),
          Handler(NoBody, [], Some([])))
    case ListGroups =>
      Row(GET, LL("v2", "group"),
          Program(LL_OPS, ["v2", "group"]),
          Handler(NoBody, [], Some([])))
    case ListGroupUsers =>
      Row(GET, LLVL("v2", "group", "group_id", "user"),
          Program(LLVL_OPS, ["v2", "group", "group_id", "user"]),
          Handler(NoBody, ["group_id"], Some(["group_id"])))
    case ListNotifications =>
      Row(GET, LL("v2", "notification"),
          Program(LL_OPS, ["v2", "notification"]),
          Handler(NoBody, [], Some([])))
    case ListUserGroups =>
      Row(GET, LLVL("v2", "user", "user_id", "group"),
          Program(LLVL_OPS, ["v2", "user", "user_id", "group"]),
          Handler(NoBody, ["user_id"], Some(["user_id"])))
    case PromoteGroupUsers =>
      Row(POST, LLVL("v2", "group", "group_id", "promote"),
          Program(LLVL_OPS, ["v2", "group", "group_id", "promote"]),
          Handler(NoBody, ["group_id"], Some(["group_id"])))
    case DemoteGroupUsers =>
      Row(POST, LLVL("v2", "group", "group_id", "demote"),
          Program(LLVL_OPS, ["v2", "group", "group_id", "demote"]),
          Handler(NoBody, ["group_id"], Some(["group_id"])))
    case UpdateGroup =>
      Row(PUT, LLV("v2", "group", "group_id"),
          Program(LLV_OPS, ["v2", "group", "group_id"]),
          Handler(WholeBody, ["group_id"], None))
  }

  function RecordsRow(e: RecordsEndpoint): Row {
    match e
    case DeleteLeaderboardRecord =>
      Row(DELETE, LLV("v2", "leaderboard", "leaderboard_id"),
          Program(LLV_OPS, ["v2", "leaderboard", "leaderboard_id"]),
          Handler(NoBody, ["leaderboard_id"], None))
    case DeleteTournamentRecord =>
      Row(DELETE, LLV("v2", "tournament", "tournament_id"),
          Program(LLV_OPS, ["v2", "tournament", "tournament_id"]),
          Handler(NoBody, ["tournament_id"], None))
    case JoinTournament =>
      Row(POST, LLVL("v2", "tournament", "tournament_id", "join"),
          Program(LLVL_OPS, ["v2", "tournament", "tournament_id", "join"]),
          Handler(NoBody, ["tournament_id"], None))
    case ListLeaderboardRecords =>
      Row(GET, LLV("v2", "leaderboard", "leaderboard_id"),
          Program(LLV_OPS, ["v2", "leaderboard", "leaderboard_id"]),
          Handler(NoBody, ["leaderboard_id"], Some(["leaderboard_id"])))
    case ListLeaderboardRecordsAroundOwner =>
      Row(GET, LLVLV("v2", "leaderboard", "leaderboard_id", "owner", "owner_id"),
          Program(LLVLV_OPS, ["v2", "leaderboard", "leaderboard_id", "owner", "owner_id"]),
          Handler(NoBody, ["leaderboard_id", "owner_id"], Some(["leaderboard_id", "owner_id"])))
    case ListTournaments =>
      Row(GET, LL("v2", "tournament"),
          Program(LL_OPS, ["v2", "tournament"]),
          Handler(NoBody, [], Some([])))
    case ListTournamentRecords =>
      Row(GET, LLV("v2", "tournament", "tournament_id"),
          Program(LLV_OPS, ["v2", "tournament", "tournament_id"]),
          Handler(NoBody, ["tournament_id"], Some(["tournament_id"])))
    case ListTournamentRecordsAroundOwner =>
      Row(GET, LLVLV("v2", "tournament", "tournament_id", "owner", "owner_id"),
          Program(LLVLV_OPS, ["v2", "tournament", "tournament_id", "owner", "owner_id"]),
          Handler(NoBody, ["tournament_id", "owner_id"], Some(["tournament_id", "owner_id"])))
    case WriteLeaderboardRecord =>
      Row(POST, LLV("v2", "leaderboard", "leaderboard_id"),
          Program(LLV_OPS, ["v2", "leaderboard", "leaderboard_id"]),
          Handler(FieldBody("record"), ["leaderboard_id"], None))
    case WriteTournamentRecord0 =>
      Row(PUT, LLV("v2", "tournament", "tournament_id"),
          Program(LLV_OPS, ["v2", "tournament", "tournament_id"]),
          Handler(FieldBody("record"), ["tournament_id"], None))
    case WriteTournamentRecord1 =>
      Row(POST, LLV("v2", "tournament", "tournament_id"),
          Program(LLV_OPS, ["v2", "tournament", "tournament_id"]),
          Handler(FieldBody("record"), ["tournament_id"], None))
  }

  function ServicesRow(e: ServicesEndpoint): Row {
    match e
    case DeleteStorageObjects =>
      Row(PUT, LLL("v2", "storage", "delete"),
          Program(LLL_OPS, ["v2", "storage", "delete"]),
          Handler(WholeBody, [], None))
    case Event =>
      Row(POST, LL("v2", "event"),
          Program(LL_OPS, ["v2", "event"]),
          Handler(WholeBody, [], None))
    case GetSubscription =>
      Row(GET, LLLV("v2", "iap", "subscription", "product_id"),
          Program(LLLV_OPS, ["v2", "iap", "subscription", "product_id"]),
          Handler(NoBody, ["product_id"], None))
    case GetMatchmakerStats =>
      Row(GET, LLL("v2", "matchmaker", "stats"),
          Program(LLL_OPS, ["v2", "matchmaker", "stats"]),
          Handler(NoBody, [], None))
    case Healthcheck =>
      Row(GET, L("healthcheck"),
          Program(L_OPS, ["healthcheck"]),
          Handler(NoBody, [], None))
    case ListMatches =>
      Row(GET, LL("v2", "match"),
          Program(LL_OPS, ["v2", "match"]),
          Handler(NoBody, [], Some([])))
    case ListStorageObjects0 =>
      Row(GET, LLV("v2", "storage", "collection"),
          Program(LLV_OPS, ["v2", "storage", "collection"]),
          Handler(NoBody, ["collection"], Some(["collection"])))
    case ListStorageObjects1 =>
      Row(GET, LLVV("v2", "storage", "collection", "user_id"),
          Program(LLVV_OPS, ["v2", "storage", "collection", "user_id"]),
          Handler(NoBody, ["collection", "user_id"], Some(["collection", "user_id"])))
    case ListSubscriptions =>
      Row(POST, LLL("v2", "iap", "subscription"),
          Program(LLL_OPS, ["v2", "iap", "subscription"]),
          Handler(WholeBody, [], None))
    case ReadStorageObjects =>
      Row(POST, LL("v2", "storage"),
          Program(LL_OPS, ["v2", "storage"]),
          Handler(WholeBody, [], None))
    case RpcFunc0 =>
      Row(POST, LLV("v2", "rpc", "id"),
          Program(LLV_OPS, ["v2", "rpc", "id"]),
          Handler(FieldBody("payload"), ["id"], Some(["payload", "id"])))
    case RpcFunc1 =>
      Row(GET, LLV("v2", "rpc", "id"),
          Program(LLV_OPS, ["v2", "rpc", "id"]),
          Handler(NoBody, ["id"], Some(["id"])))
    case ValidatePurchaseApple =>
      Row(POST, LLLL("v2", "iap", "purchase", "apple"),
          Program(LLLL_OPS, ["v2", "iap", "purchase", "apple"]),
          Handler(WholeBody, [], None))
    case ValidateSubscriptionApple =>
      Row(POST, LLLL("v2", "iap", "subscription", "apple"),
          Program(LLLL_OPS, ["v2", "iap", "subscription", "apple"]),
          Handler(WholeBody, [], None))
    case ValidatePurchaseGoogle =>
      Row(POST, LLLL("v2", "iap", "purchase", "google"),
          Program(LLLL_OPS, ["v2", "iap", "purchase", "google"]),
          Handler(WholeBody, [], None))
    case ValidateSubscriptionGoogle =>
      Row(POST, LLLL("v2", "iap", "subscription", "google"),
          Program(LLLL_OPS, ["v2", "iap", "subscription", "google"]),
          Handler(WholeBody, [], None))
    case ValidatePurchaseHuawei =>
      Row(POST, LLLL("v2", "iap", "purchase", "huawei"),
          Program(LLLL_OPS, ["v2", "iap", "purchase", "huawei"]),
          Handler(WholeBody, [], None))
    case ValidatePurchaseFacebookInstant =>
      Row(POST, LLLL("v2", "iap", "purchase", "facebookinstant"),
          Program(LLLL_OPS, ["v2", "iap", "purchase", "facebookinstant"]),
          Handler(WholeBody, [], None))
    case WriteStorageObjects =>
      Row(PUT, LL("v2", "storage"),
          Program(LL_OPS, ["v2", "storage"]),
          Handler(WholeBody, [], None))
  }

  function RowOf(e: Endpoint): Row {
    match e
    case Accounts(x) => AccountsRow(x)
    case Authentication(x) => AuthenticationRow(x)
    case Linking(x) => LinkingRow(x)
    case Unlinking(x) => UnlinkingRow(x)
    case Social(x) => SocialRow(x)
    case Records(x) => RecordsRow(x)
    case Services(x) => ServicesRow(x)
  }
}
