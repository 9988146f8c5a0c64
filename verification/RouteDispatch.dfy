/** Dispatch over the whole table: which endpoint a request can be for, decided on the path's components. */
module RouteDispatch {
  import opened Options
  import opened PathTemplates
  import opened RequestPaths
  import opened Dispatch
  import opened RouteTable
  import opened RouteChecks

  function Authenticate4(path: seq<string>): Option<Endpoint>
    requires |path| == 4
  {
    if path[3] == "apple" then Some(Authentication(AuthenticateApple))
    else if path[3] == "custom" then Some(Authentication(AuthenticateCustom))
    else if path[3] == "device" then Some(Authentication(AuthenticateDevice))
    else if path[3] == "email" then Some(Authentication(AuthenticateEmail))
    else if path[3] == "facebook" then Some(Authentication(AuthenticateFacebook))
    else if path[3] == "facebookinstantgame" then Some(Authentication(AuthenticateFacebookInstantGame))
    else if path[3] == "gamecenter" then Some(Authentication(AuthenticateGameCenter))
    else if path[3] == "google" then Some(Authentication(AuthenticateGoogle))
    else if path[3] == "telegram" then Some(Authentication(AuthenticateTelegram))
    else if path[3] == "ua" then Some(Authentication(AuthenticateUA))
    else if path[3] == "evm" then Some(Authentication(AuthenticateEvm))
    else if path[3] == "steam" then Some(Authentication(AuthenticateSteam))
    else if path[3] == "twitter" then Some(Authentication(AuthenticateTwitter))
    else None
  }

  function Link4(path: seq<string>): Option<Endpoint>
    requires |path| == 4
  {
    if path[3] == "apple" then Some(Linking(LinkApple))
    else if path[3] == "evm" then Some(Linking(LinkEvm))
    else if path[3] == "custom" then Some(Linking(LinkCustom))
    else if path[3] == "device" then Some(Linking(LinkDevice))
    else if path[3] == "email" then Some(Linking(LinkEmail))
    else if path[3] == "facebook" then Some(Linking(LinkFacebook))
    else if path[3] == "facebookinstantgame" then Some(Linking(LinkFacebookInstantGame))
    else if path[3] == "gamecenter" then Some(Linking(LinkGameCenter))
    else if path[3] == "google" then Some(Linking(LinkGoogle))
    else if path[3] == "steam" then Some(Linking(LinkSteam))
    else None
  }

  function Unlink4(path: seq<string>): Option<Endpoint>
    requires |path| == 4
  {
    if path[3] == "apple" then Some(Unlinking(UnlinkApple))
    else if path[3] == "custom" then Some(Unlinking(UnlinkCustom))
    else if path[3] == "device" then Some(Unlinking(UnlinkDevice))
    else if path[3] == "email" then Some(Unlinking(UnlinkEmail))
    else if path[3] == "facebook" then Some(Unlinking(UnlinkFacebook))
    else if path[3] == "facebookinstantgame" then Some(Unlinking(UnlinkFacebookInstantGame))
    else if path[3] == "gamecenter" then Some(Unlinking(UnlinkGameCenter))
    else if path[3] == "google" then Some(Unlinking(UnlinkGoogle))
    else if path[3] == "steam" then Some(Unlinking(UnlinkSteam))
    else None
  }

  function Get1(path: seq<string>): Option<Endpoint>
    requires |path| == 1
  {
    if path[0] == "healthcheck" then Some(Services(Healthcheck))
    else None
  }

  function Get2(path: seq<string>): Option<Endpoint>
    requires |path| == 2
  {
    if path[1] == "account" then Some(Accounts(GetAccount))
    else if path[1] == "user" then Some(Social(GetUsers))
    else if path[1] == "friend" then Some(Social(ListFriends))
    else if path[1] == "group" then Some(Social(ListGroups))
    else if path[1] == "match" then Some(Services(ListMatches))
    else if path[1] == "notification" then Some(Social(ListNotifications))
    else if path[1] == "tournament" then Some(Records(ListTournaments))
    else None
  }

  function Get3(path: seq<string>): Option<Endpoint>
    requires |path| == 3
  {
    if path[1] == "matchmaker" then
      if path[2] == "stats" then Some(Services(GetMatchmakerStats))
      else None
    else if path[1] == "channel" then Some(Social(ListChannelMessages))
    else if path[1] == "friend" then
      if path[2] == "friends" then Some(Social(ListFriendsOfFriends))
      else None
    else if path[1] == "leaderboard" then Some(Records(ListLeaderboardRecords))
    else if path[1] == "storage" then Some(Services(ListStorageObjects0))
    else if path[1] == "tournament" then Some(Records(ListTournamentRecords))
    else if path[1] == "rpc" then Some(Services(RpcFunc1))
    else None
  }

  function Get4(path: seq<string>): Option<Endpoint>
    requires |path| == 4
  {
    if path[1] == "iap" then
      if path[2] == "subscription" then Some(Services(GetSubscription))
      else None
    else if path[1] == "group" then
      if path[3] == "user" then Some(Social(ListGroupUsers))
      else None
    else if path[1] == "storage" then Some(Services(ListStorageObjects1))
    else if path[1] == "user" then
      if path[3] == "group" then Some(Social(ListUserGroups))
      else None
    else None
  }

  function Get5(path: seq<string>): Option<Endpoint>
    requires |path| == 5
  {
    if path[1] == "leaderboard" then
      if path[3] == "owner" then Some(Records(ListLeaderboardRecordsAroundOwner))
      else None
    else if path[1] == "tournament" then
      if path[3] == "owner" then Some(Records(ListTournamentRecordsAroundOwner))
      else None
    else None
  }

  function Post2(path: seq<string>): Option<Endpoint>
    requires |path| == 2
  {
    if path[1] == "friend" then Some(Social(AddFriends))
    else if path[1] == "group" then Some(Social(CreateGroup))
    else if path[1] == "event" then Some(Services(Event))
    else if path[1] == "storage" then Some(Services(ReadStorageObjects))
    else None
  }

  function Post3(path: seq<string>): Option<Endpoint>
    requires |path| == 3
  {
    if path[1] == "session" then
      if path[2] == "logout" then Some(Accounts(SessionLogout))
      else None
    else if path[1] == "friend" then
      if path[2] == "block" then Some(Social(BlockFriends))
      else if path[2] == "facebook" then Some(Social(ImportFacebookFriends))
      else if path[2] == "steam" then Some(Social(ImportSteamFriends))
      else None
    else if path[1] == "iap" then
      if path[2] == "subscription" then Some(Services(ListSubscriptions))
      else None
    else if path[1] == "rpc" then Some(Services(RpcFunc0))
    else if path[1] == "leaderboard" then Some(Records(WriteLeaderboardRecord))
    else if path[1] == "tournament" then Some(Records(WriteTournamentRecord1))
    else None
  }

  function Post4(path: seq<string>): Option<Endpoint>
    requires |path| == 4
  {
    if path[1] == "group" then
      if path[3] == "add" then Some(Social(AddGroupUsers))
      else if path[3] == "ban" then Some(Social(BanGroupUsers))
      else if path[3] == "join" then Some(Social(JoinGroup))
      else if path[3] == "kick" then Some(Social(KickGroupUsers))
      else if path[3] == "leave" then Some(Social(LeaveGroup))
      else if path[3] == "promote" then Some(Social(PromoteGroupUsers))
      else if path[3] == "demote" then Some(Social(DemoteGroupUsers))
      else None
    else if path[1] == "account" then
      if path[2] == "session" then
        if path[3] == "refresh" then Some(Accounts(SessionRefresh))
        else None
      else if path[2] == "authenticate" then Authenticate4(path)
      else if path[2] == "authenticate-ua" then
        if path[3] == "telegram-otp" then Some(Authentication(SendTelegramAuthOTP))
        else if path[3] == "email-otp" then Some(Authentication(SendEmailAuthOTP))
        else None
      else if path[2] == "link" then Link4(path)
      else if path[2] == "unlink" then Unlink4(path)
      else None
    else if path[1] == "tournament" then
      if path[3] == "join" then Some(Records(JoinTournament))
      else None
    else if path[1] == "iap" then
      if path[2] == "purchase" then
        if path[3] == "apple" then Some(Services(ValidatePurchaseApple))
        else if path[3] == "google" then Some(Services(ValidatePurchaseGoogle))
        else if path[3] == "huawei" then Some(Services(ValidatePurchaseHuawei))
        else if path[3] == "facebookinstant" then Some(Services(ValidatePurchaseFacebookInstant))
        else None
      else if path[2] == "subscription" then
        if path[3] == "apple" then Some(Services(ValidateSubscriptionApple))
        else if path[3] == "google" then Some(Services(ValidateSubscriptionGoogle))
        else None
      else None
    else None
  }

  function Put2(path: seq<string>): Option<Endpoint>
    requires |path| == 2
  {
    if path[1] == "account" then Some(Accounts(UpdateAccount))
    else if path[1] == "storage" then Some(Services(WriteStorageObjects))
    else None
  }

  function Put3(path: seq<string>): Option<Endpoint>
    requires |path| == 3
  {
    if path[1] == "storage" then
      if path[2] == "delete" then Some(Services(DeleteStorageObjects))
      else None
    else if path[1] == "group" then Some(Social(UpdateGroup))
    else if path[1] == "tournament" then Some(Records(WriteTournamentRecord0))
    else None
  }

  function Delete2(path: seq<string>): Option<Endpoint>
    requires |path| == 2
  {
    if path[1] == "account" then Some(Accounts(DeleteAccount))
    else if path[1] == "friend" then Some(Social(DeleteFriends))
    else if path[1] == "notification" then Some(Social(DeleteNotifications))
    else None
  }

  function Delete3(path: seq<string>): Option<Endpoint>
    requires |path| == 3
  {
    if path[1] == "group" then Some(Social(DeleteGroup))
    else if path[1] == "leaderboard" then Some(Records(DeleteLeaderboardRecord))
    else if path[1] == "tournament" then Some(Records(DeleteTournamentRecord))
    else None
  }

  function Classify(verb: Verb, path: seq<string>): Option<Endpoint> {
    if verb == GET && |path| == 1 then Get1(path)
    else if verb == GET && |path| == 2 then Get2(path)
    else if verb == GET && |path| == 3 then Get3(path)
    else if verb == GET && |path| == 4 then Get4(path)
    else if verb == GET && |path| == 5 then Get5(path)
    else if verb == POST && |path| == 2 then Post2(path)
    else if verb == POST && |path| == 3 then Post3(path)
    else if verb == POST && |path| == 4 then Post4(path)
    else if verb == PUT && |path| == 2 then Put2(path)
    else if verb == PUT && |path| == 3 then Put3(path)
    else if verb == DELETE && |path| == 2 then Delete2(path)
    else if verb == DELETE && |path| == 3 then Delete3(path)
    else None
  }

  lemma LMatches(a: string, path: seq<string>)
    requires Matches(L(a), path)
    ensures |path| == 1 && path[0] == a
  {
    var t := L(a);
    assert t[0] == Lit(a);
  }

  lemma LLMatches(a: string, b: string, path: seq<string>)
    requires Matches(LL(a, b), path)
    ensures |path| == 2 && path[0] == a && path[1] == b
  {
    var t := LL(a, b);
    assert t[0] == Lit(a) && t[1] == Lit(b);
  }

  lemma LLLMatches(a: string, b: string, c: string, path: seq<string>)
    requires Matches(LLL(a, b, c), path)
    ensures |path| == 3 && path[0] == a && path[1] == b && path[2] == c
  {
    var t := LLL(a, b, c);
    assert t[0] == Lit(a) && t[1] == Lit(b) && t[2] == Lit(c);
  }

  lemma LLVMatches(a: string, b: string, c: string, path: seq<string>)
    requires Matches(LLV(a, b, c), path)
    ensures |path| == 3 && path[0] == a && path[1] == b
  {
    var t := LLV(a, b, c);
    assert t[0] == Lit(a) && t[1] == Lit(b);
  }

  lemma LLLLMatches(a: string, b: string, c: string, d: string, path: seq<string>)
    requires Matches(LLLL(a, b, c, d), path)
    ensures |path| == 4 && path[0] == a && path[1] == b && path[2] == c && path[3] == d
  {
    var t := LLLL(a, b, c, d);
    assert t[0] == Lit(a) && t[1] == Lit(b) && t[2] == Lit(c) && t[3] == Lit(d);
  }

  lemma LLVLMatches(a: string, b: string, c: string, d: string, path: seq<string>)
    requires Matches(LLVL(a, b, c, d), path)
    ensures |path| == 4 && path[0] == a && path[1] == b && path[3] == d
  {
    var t := LLVL(a, b, c, d);
    assert t[0] == Lit(a) && t[1] == Lit(b) && t[3] == Lit(d);
  }

  lemma LLLVMatches(a: string, b: string, c: string, d: string, path: seq<string>)
    requires Matches(LLLV(a, b, c, d), path)
    ensures |path| == 4 && path[0] == a && path[1] == b && path[2] == c
  {
    var t := LLLV(a, b, c, d);
    assert t[0] == Lit(a) && t[1] == Lit(b) && t[2] == Lit(c);
  }

  lemma LLVVMatches(a: string, b: string, c: string, d: string, path: seq<string>)
    requires Matches(LLVV(a, b, c, d), path)
    ensures |path| == 4 && path[0] == a && path[1] == b
  {
    var t := LLVV(a, b, c, d);
    assert t[0] == Lit(a) && t[1] == Lit(b);
  }

  lemma LLVLVMatches(a: string, b: string, c: string, d: string, e: string, path: seq<string>)
    requires Matches(LLVLV(a, b, c, d, e), path)
    ensures |path| == 5 && path[0] == a && path[1] == b && path[3] == d
  {
    var t := LLVLV(a, b, c, d, e);
    assert t[0] == Lit(a) && t[1] == Lit(b) && t[3] == Lit(d);
  }

  lemma AccountsFinds(e: AccountsEndpoint, path: seq<string>)
    requires Matches(AccountsRow(e).template, path)
    ensures Classify(AccountsRow(e).verb, path) == Some(Accounts(e))
  {
    match e
    case SessionRefresh => LLLLMatches("v2", "account", "session", "refresh", path);
    case SessionLogout => LLLMatches("v2", "session", "logout", path);
    case DeleteAccount => LLMatches("v2", "account", path);
    case GetAccount => LLMatches("v2", "account", path);
    case UpdateAccount => LLMatches("v2", "account", path);
  }

  lemma NewerFinds(e: AuthenticationEndpoint, path: seq<string>)
    requires IsNewer(e) && Matches(AuthenticationRow(e).template, path)
    ensures Classify(AuthenticationRow(e).verb, path) == Some(Authentication(e))
  {
    match e
    case AuthenticateTelegram => LLLLMatches("v2", "account", "authenticate", "telegram", path);
    case SendTelegramAuthOTP => LLLLMatches("v2", "account", "authenticate-ua", "telegram-otp", path);
    case SendEmailAuthOTP => LLLLMatches("v2", "account", "authenticate-ua", "email-otp", path);
    case AuthenticateUA => LLLLMatches("v2", "account", "authenticate", "ua", path);
    case AuthenticateEvm => LLLLMatches("v2", "account", "authenticate", "evm", path);
    case AuthenticateSteam => LLLLMatches("v2", "account", "authenticate", "steam", path);
    case AuthenticateTwitter => LLLLMatches("v2", "account", "authenticate", "twitter", path);
    case _ =>
  }

  lemma AuthenticationFinds(e: AuthenticationEndpoint, path: seq<string>)
    requires Matches(AuthenticationRow(e).template, path)
    ensures Classify(AuthenticationRow(e).verb, path) == Some(Authentication(e))
  {
    match e
    case AuthenticateApple => LLLLMatches("v2", "account", "authenticate", "apple", path);
    case AuthenticateCustom => LLLLMatches("v2", "account", "authenticate", "custom", path);
    case AuthenticateDevice => LLLLMatches("v2", "account", "authenticate", "device", path);
    case AuthenticateEmail => LLLLMatches("v2", "account", "authenticate", "email", path);
    case AuthenticateFacebook => LLLLMatches("v2", "account", "authenticate", "facebook", path);
    case AuthenticateFacebookInstantGame => LLLLMatches("v2", "account", "authenticate", "facebookinstantgame", path);
    case AuthenticateGameCenter => LLLLMatches("v2", "account", "authenticate", "gamecenter", path);
    case AuthenticateGoogle => LLLLMatches("v2", "account", "authenticate", "google", path);
    case _ => NewerFinds(e, path);
  }

  lemma LinkingFinds(e: LinkingEndpoint, path: seq<string>)
    requires Matches(LinkingRow(e).template, path)
    ensures Classify(LinkingRow(e).verb, path) == Some(Linking(e))
  {
    match e
    case LinkApple => LLLLMatches("v2", "account", "link", "apple", path);
    case LinkEvm => LLLLMatches("v2", "account", "link", "evm", path);
    case LinkCustom => LLLLMatches("v2", "account", "link", "custom", path);
    case LinkDevice => LLLLMatches("v2", "account", "link", "device", path);
    case LinkEmail => LLLLMatches("v2", "account", "link", "email", path);
    case LinkFacebook => LLLLMatches("v2", "account", "link", "facebook", path);
    case LinkFacebookInstantGame => LLLLMatches("v2", "account", "link", "facebookinstantgame", path);
    case LinkGameCenter => LLLLMatches("v2", "account", "link", "gamecenter", path);
    case LinkGoogle => LLLLMatches("v2", "account", "link", "google", path);
    case LinkSteam => LLLLMatches("v2", "account", "link", "steam", path);
  }

  lemma UnlinkingFinds(e: UnlinkingEndpoint, path: seq<string>)
    requires Matches(UnlinkingRow(e).template, path)
    ensures Classify(UnlinkingRow(e).verb, path) == Some(Unlinking(e))
  {
    match e
    case UnlinkApple => LLLLMatches("v2", "account", "unlink", "apple", path);
    case UnlinkCustom => LLLLMatches("v2", "account", "unlink", "custom", path);
    case UnlinkDevice => LLLLMatches("v2", "account", "unlink", "device", path);
    case UnlinkEmail => LLLLMatches("v2", "account", "unlink", "email", path);
    case UnlinkFacebook => LLLLMatches("v2", "account", "unlink", "facebook", path);
    case UnlinkFacebookInstantGame => LLLLMatches("v2", "account", "unlink", "facebookinstantgame", path);
    case UnlinkGameCenter => LLLLMatches("v2", "account", "unlink", "gamecenter", path);
    case UnlinkGoogle => LLLLMatches("v2", "account", "unlink", "google", path);
    case UnlinkSteam => LLLLMatches("v2", "account", "unlink", "steam", path);
  }

  lemma GroupFinds(e: SocialEndpoint, path: seq<string>)
    requires IsGroup(e) && Matches(SocialRow(e).template, path)
    ensures Classify(SocialRow(e).verb, path) == Some(Social(e))
  {
    match e
    case AddGroupUsers => LLVLMatches("v2", "group", "group_id", "add", path);
    case BanGroupUsers => LLVLMatches("v2", "group", "group_id", "ban", path);
    case CreateGroup => LLMatches("v2", "group", path);
    case DeleteGroup => LLVMatches("v2", "group", "group_id", path);
    case JoinGroup => LLVLMatches("v2", "group", "group_id", "join", path);
    case KickGroupUsers => LLVLMatches("v2", "group", "group_id", "kick", path);
    case LeaveGroup => LLVLMatches("v2", "group", "group_id", "leave", path);
    case ListGroups => LLMatches("v2", "group", path);
    case ListGroupUsers => LLVLMatches("v2", "group", "group_id", "user", path);
    case ListUserGroups => LLVLMatches("v2", "user", "user_id", "group", path);
    case PromoteGroupUsers => LLVLMatches("v2", "group", "group_id", "promote", path);
    case DemoteGroupUsers => LLVLMatches("v2", "group", "group_id", "demote", path);
    case UpdateGroup => LLVMatches("v2", "group", "group_id", path);
    case _ =>
  }

  lemma SocialFinds(e: SocialEndpoint, path: seq<string>)
    requires Matches(SocialRow(e).template, path)
    ensures Classify(SocialRow(e).verb, path) == Some(Social(e))
  {
    match e
    case AddFriends => LLMatches("v2", "friend", path);
    case BlockFriends => LLLMatches("v2", "friend", "block", path);
    case DeleteFriends => LLMatches("v2", "friend", path);
    case DeleteNotifications => LLMatches("v2", "notification", path);
    case GetUsers => LLMatches("v2", "user", path);
    case ImportFacebookFriends => LLLMatches("v2", "friend", "facebook", path);
    case ImportSteamFriends => LLLMatches("v2", "friend", "steam", path);
    case ListChannelMessages => LLVMatches("v2", "channel", "channel_id", path);
    case ListFriends => LLMatches("v2", "friend", path);
    case ListFriendsOfFriends => LLLMatches("v2", "friend", "friends", path);
    case ListNotifications => LLMatches("v2", "notification", path);
    case _ => GroupFinds(e, path);
  }

  lemma RecordsFinds(e: RecordsEndpoint, path: seq<string>)
    requires Matches(RecordsRow(e).template, path)
    ensures Classify(RecordsRow(e).verb, path) == Some(Records(e))
  {
    match e
    case DeleteLeaderboardRecord => LLVMatches("v2", "leaderboard", "leaderboard_id", path);
    case DeleteTournamentRecord => LLVMatches("v2", "tournament", "tournament_id", path);
    case JoinTournament => LLVLMatches("v2", "tournament", "tournament_id", "join", path);
    case ListLeaderboardRecords => LLVMatches("v2", "leaderboard", "leaderboard_id", path);
    case ListLeaderboardRecordsAroundOwner =>
      LLVLVMatches("v2", "leaderboard", "leaderboard_id", "owner", "owner_id", path);
    case ListTournaments => LLMatches("v2", "tournament", path);
    case ListTournamentRecords => LLVMatches("v2", "tournament", "tournament_id", path);
    case ListTournamentRecordsAroundOwner =>
      LLVLVMatches("v2", "tournament", "tournament_id", "owner", "owner_id", path);
    case WriteLeaderboardRecord => LLVMatches("v2", "leaderboard", "leaderboard_id", path);
    case WriteTournamentRecord0 => LLVMatches("v2", "tournament", "tournament_id", path);
    case WriteTournamentRecord1 => LLVMatches("v2", "tournament", "tournament_id", path);
  }

  lemma PurchaseFinds(e: ServicesEndpoint, path: seq<string>)
    requires IsPurchase(e) && Matches(ServicesRow(e).template, path)
    ensures Classify(ServicesRow(e).verb, path) == Some(Services(e))
  {
    match e
    case GetSubscription => LLLVMatches("v2", "iap", "subscription", "product_id", path);
    case ListSubscriptions => LLLMatches("v2", "iap", "subscription", path);
    case ValidatePurchaseApple => LLLLMatches("v2", "iap", "purchase", "apple", path);
    case ValidateSubscriptionApple => LLLLMatches("v2", "iap", "subscription", "apple", path);
    case ValidatePurchaseGoogle => LLLLMatches("v2", "iap", "purchase", "google", path);
    case ValidateSubscriptionGoogle => LLLLMatches("v2", "iap", "subscription", "google", path);
    case ValidatePurchaseHuawei => LLLLMatches("v2", "iap", "purchase", "huawei", path);
    case ValidatePurchaseFacebookInstant => LLLLMatches("v2", "iap", "purchase", "facebookinstant", path);
    case _ =>
  }

  lemma ServicesFinds(e: ServicesEndpoint, path: seq<string>)
    requires Matches(ServicesRow(e).template, path)
    ensures Classify(ServicesRow(e).verb, path) == Some(Services(e))
  {
    match e
    case DeleteStorageObjects => LLLMatches("v2", "storage", "delete", path);
    case Event => LLMatches("v2", "event", path);
    case GetMatchmakerStats => LLLMatches("v2", "matchmaker", "stats", path);
    case Healthcheck => LMatches("healthcheck", path);
    case ListMatches => LLMatches("v2", "match", path);
    case ListStorageObjects0 => LLVMatches("v2", "storage", "collection", path);
    case ListStorageObjects1 => LLVVMatches("v2", "storage", "collection", "user_id", path);
    case ReadStorageObjects => LLMatches("v2", "storage", path);
    case RpcFunc0 => LLVMatches("v2", "rpc", "id", path);
    case RpcFunc1 => LLVMatches("v2", "rpc", "id", path);
    case WriteStorageObjects => LLMatches("v2", "storage", path);
    case _ => PurchaseFinds(e, path);
  }

  /** Whatever path an endpoint's template matches is that endpoint's alone. */
  lemma ClassifyFinds(e: Endpoint, path: seq<string>)
    requires Matches(RowOf(e).template, path)
    ensures Classify(RowOf(e).verb, path) == Some(e)
  {
    match e
    case Accounts(x) => AccountsFinds(x, path);
    case Authentication(x) => AuthenticationFinds(x, path);
    case Linking(x) => LinkingFinds(x, path);
    case Unlinking(x) => UnlinkingFinds(x, path);
    case Social(x) => SocialFinds(x, path);
    case Records(x) => RecordsFinds(x, path);
    case Services(x) => ServicesFinds(x, path);
  }

  /** What `mux.Handle` is given for an endpoint. */
  function RouteFor(e: Endpoint): Route<Endpoint> {
    Route(RowOf(e).verb, RowOf(e).template, e)
  }

  /** A table of registered endpoints, in any order. */
  ghost predicate Registers(table: seq<Route<Endpoint>>) {
    forall r | r in table :: r == RouteFor(r.handler)
  }

  /** Over all paths of any length, no two endpoints answer the same request. */
  lemma EndpointsDisjoint(e: Endpoint, f: Endpoint)
    requires e != f && RowOf(e).verb == RowOf(f).verb
    ensures !Overlap(RowOf(e).template, RowOf(f).template)
  {
    OverlapIsCommonPath(RowOf(e).template, RowOf(f).template);
    if path :| Matches(RowOf(e).template, path) && Matches(RowOf(f).template, path) {
      ClassifyFinds(e, path);
      ClassifyFinds(f, path);
    }
  }

  /** Every reordering of the registrations serves every request alike. */
  lemma RegistrationOrderIrrelevant(table: seq<Route<Endpoint>>, other: seq<Route<Endpoint>>, verb: Verb,
                                    path: seq<string>)
    requires Registers(table) && multiset(table) == multiset(other)
    ensures Serve(table, verb, path) == Serve(other, verb, path)
  {
    forall r, s | r in table && s in table && r != s && r.verb == s.verb
      ensures !Overlap(r.template, s.template)
    {
      EndpointsDisjoint(r.handler, s.handler);
    }
    OrderIrrelevant(table, other, verb, path);
  }

  /** The pattern an endpoint is registered under is its stored program, and it captures every parameter the
      endpoint's handler looks up: the handlers' missing-parameter exits cannot be reached by dispatch. */
  lemma ServedParametersPresent(table: seq<Route<Endpoint>>, verb: Verb, path: seq<string>)
    requires Registers(table) && Serve(table, verb, path).Some?
    ensures var hit := Serve(table, verb, path).value;
            && NewPattern(RowOf(hit.route.handler).program).Some?
            && Match(NewPattern(RowOf(hit.route.handler).program).value, path) == Bound(hit.params)
            && forall x | x in RowOf(hit.route.handler).handler.lookups :: x in hit.params
  {
    ServeFinds(table, verb, path);
    var hit := Serve(table, verb, path).value;
    var row := RowOf(hit.route.handler);
    TableChecked(hit.route.handler);
    CompileCorrect(row.template, path);
    forall x | x in row.handler.lookups ensures x in hit.params {
      BindKeys(Variables(row.template), Captures(row.template, path), x);
    }
  }
}
