/** The facts about the route table that come from looking at its rows. */
module RouteChecks {
  import opened Sequences
  import opened PathTemplates
  import opened RouteTable

  function Names(t: Template): seq<string> {
    if t == [] then [] else [t[0].name] + Names(t[1..])
  }

  /** The operations of a template whose names are all different: the k-th segment refers to the k-th name. */
  function PlainOps(t: Template, k: nat): seq<int> {
    if t == [] then [] else SegmentOps(t[0], k) + PlainOps(t[1..], k + 1)
  }

  ghost predicate NewNames(t: Template, pool: seq<string>)
    decreases |t|
  {
    t != [] ==> t[0].name !in pool && NewNames(t[1..], pool + [t[0].name])
  }

  /** A template whose names are all different compiles to the plain operations over the list of its names. */
  lemma {:induction false} CompileNewNames(t: Template, pool: seq<string>)
    requires NewNames(t, pool)
    ensures CompileFrom(t, pool) == Program(PlainOps(t, |pool|), pool + Names(t))
    decreases |t|
  {
    if t == [] {
      assert pool + [] == pool;
    } else {
      NotIndexed(pool, t[0].name);
      CompileNewNames(t[1..], pool + [t[0].name]);
      Regroup(pool, [t[0].name], Names(t[1..]));
    }
  }

  lemma {:induction false} NotIndexed(pool: seq<string>, s: string)
    requires s !in pool
    ensures IndexOf(pool, s) == |pool|
  {
    if pool != [] {
      NotIndexed(pool[1..], s);
    }
  }

  /** What a template reads as over a pool: its names are new, and these are its names, operations and variables. */
  ghost predicate Reads(t: Template, pool: seq<string>, names: seq<string>, ops: seq<int>, vars: seq<string>) {
    NewNames(t, pool) && Names(t) == names && PlainOps(t, |pool|) == ops && Variables(t) == vars
  }

  /** One more segment in front. */
  lemma Unfold(s: Segment, rest: Template, pool: seq<string>, names: seq<string>, ops: seq<int>, vars: seq<string>)
    requires s.name !in pool && Reads(rest, pool + [s.name], names, ops, vars)
    ensures Reads([s] + rest, pool, [s.name] + names, SegmentOps(s, |pool|) + ops,
                  (if s.Var? then [s.name] else []) + vars)
  {
    assert ([s] + rest)[1..] == rest;
  }

  lemma Whole(t: Template, names: seq<string>, ops: seq<int>, vars: seq<string>)
    requires Reads(t, [], names, ops, vars)
    ensures Compile(t) == Program(ops, names) && Variables(t) == vars
  {
    CompileNewNames(t, []);
    assert [] + names == names;
  }

  // The shapes, each a segment in front of a shorter one, over any pool p that holds none of the names.

  lemma LReads(p: seq<string>, a: string)
    requires a !in p
    ensures Reads([Lit(a)], p, [a], [2, |p|], [])
  {
    Unfold(Lit(a), [], p, [], [], []);
  }

  lemma VReads(p: seq<string>, a: string)
    requires a !in p
    ensures Reads([Var(a)], p, [a], [1, 0, 4, 1, 5, |p|], [a])
  {
    Unfold(Var(a), [], p, [], [], []);
  }

  lemma LLReads(p: seq<string>, a: string, b: string)
    requires a !in p && b !in p
    requires a != b
    ensures Reads([Lit(a), Lit(b)], p, [a, b], [2, |p|, 2, |p| + 1], [])
  {
    LReads(p + [a], b);
    Unfold(Lit(a), [Lit(b)], p, [b], [2, |p + [a]|], []);
  }

  lemma LVReads(p: seq<string>, a: string, b: string)
    requires a !in p && b !in p
    requires a != b
    ensures Reads([Lit(a), Var(b)], p, [a, b], [2, |p|, 1, 0, 4, 1, 5, |p| + 1], [b])
  {
    VReads(p + [a], b);
    Unfold(Lit(a), [Var(b)], p, [b], [1, 0, 4, 1, 5, |p + [a]|], [b]);
  }

  lemma VLReads(p: seq<string>, a: string, b: string)
    requires a !in p && b !in p
    requires a != b
    ensures Reads([Var(a), Lit(b)], p, [a, b], [1, 0, 4, 1, 5, |p|, 2, |p| + 1], [a])
  {
    LReads(p + [a], b);
    Unfold(Var(a), [Lit(b)], p, [b], [2, |p + [a]|], []);
  }

  lemma VVReads(p: seq<string>, a: string, b: string)
    requires a !in p && b !in p
    requires a != b
    ensures Reads([Var(a), Var(b)], p, [a, b], [1, 0, 4, 1, 5, |p|, 1, 0, 4, 1, 5, |p| + 1], [a, b])
  {
    VReads(p + [a], b);
    Unfold(Var(a), [Var(b)], p, [b], [1, 0, 4, 1, 5, |p + [a]|], [b]);
  }

  lemma LLLReads(p: seq<string>, a: string, b: string, c: string)
    requires a !in p && b !in p && c !in p
    requires a != b && a != c && b != c
    ensures Reads([Lit(a), Lit(b), Lit(c)], p, [a, b, c], [2, |p|, 2, |p| + 1, 2, |p| + 2], [])
  {
    LLReads(p + [a], b, c);
    Unfold(Lit(a), [Lit(b), Lit(c)], p, [b, c], [2, |p + [a]|, 2, |p + [a]| + 1], []);
  }

  lemma LLVReads(p: seq<string>, a: string, b: string, c: string)
    requires a !in p && b !in p && c !in p
    requires a != b && a != c && b != c
    ensures Reads([Lit(a), Lit(b), Var(c)], p, [a, b, c], [2, |p|, 2, |p| + 1, 1, 0, 4, 1, 5, |p| + 2], [c])
  {
    LVReads(p + [a], b, c);
    Unfold(Lit(a), [Lit(b), Var(c)], p, [b, c], [2, |p + [a]|, 1, 0, 4, 1, 5, |p + [a]| + 1], [c]);
  }

  lemma LVLReads(p: seq<string>, a: string, b: string, c: string)
    requires a !in p && b !in p && c !in p
    requires a != b && a != c && b != c
    ensures Reads([Lit(a), Var(b), Lit(c)], p, [a, b, c], [2, |p|, 1, 0, 4, 1, 5, |p| + 1, 2, |p| + 2], [b])
  {
    VLReads(p + [a], b, c);
    Unfold(Lit(a), [Var(b), Lit(c)], p, [b, c], [1, 0, 4, 1, 5, |p + [a]|, 2, |p + [a]| + 1], [b]);
  }

  lemma LVVReads(p: seq<string>, a: string, b: string, c: string)
    requires a !in p && b !in p && c !in p
    requires a != b && a != c && b != c
    ensures Reads([Lit(a), Var(b), Var(c)], p, [a, b, c], [2, |p|, 1, 0, 4, 1, 5, |p| + 1, 1, 0, 4, 1, 5,
                  |p| + 2], [b, c])
  {
    VVReads(p + [a], b, c);
    Unfold(Lit(a), [Var(b), Var(c)], p, [b, c], [1, 0, 4, 1, 5, |p + [a]|, 1, 0, 4, 1, 5, |p + [a]| + 1], [b, c]);
  }

  lemma VLVReads(p: seq<string>, a: string, b: string, c: string)
    requires a !in p && b !in p && c !in p
    requires a != b && a != c && b != c
    ensures Reads([Var(a), Lit(b), Var(c)], p, [a, b, c], [1, 0, 4, 1, 5, |p|, 2, |p| + 1, 1, 0, 4, 1, 5,
                  |p| + 2], [a, c])
  {
    LVReads(p + [a], b, c);
    Unfold(Var(a), [Lit(b), Var(c)], p, [b, c], [2, |p + [a]|, 1, 0, 4, 1, 5, |p + [a]| + 1], [c]);
  }

  lemma LVLVReads(p: seq<string>, a: string, b: string, c: string, d: string)
    requires a !in p && b !in p && c !in p && d !in p
    requires a != b && a != c && a != d && b != c && b != d && c != d
    ensures Reads([Lit(a), Var(b), Lit(c), Var(d)], p, [a, b, c, d], [2, |p|, 1, 0, 4, 1, 5, |p| + 1, 2, |p| + 2,
                  1, 0, 4, 1, 5, |p| + 3], [b, d])
  {
    VLVReads(p + [a], b, c, d);
    Unfold(Lit(a), [Var(b), Lit(c), Var(d)], p, [b, c, d], [1, 0, 4, 1, 5, |p + [a]|, 2, |p + [a]| + 1, 1, 0, 4,
           1, 5, |p + [a]| + 2], [b, d]);
  }

  lemma LLLLReads(p: seq<string>, a: string, b: string, c: string, d: string)
    requires a !in p && b !in p && c !in p && d !in p
    requires a != b && a != c && a != d && b != c && b != d && c != d
    ensures Reads([Lit(a), Lit(b), Lit(c), Lit(d)], p, [a, b, c, d], [2, |p|, 2, |p| + 1, 2, |p| + 2, 2,
                  |p| + 3], [])
  {
    LLLReads(p + [a], b, c, d);
    Unfold(Lit(a), [Lit(b), Lit(c), Lit(d)], p, [b, c, d], [2, |p + [a]|, 2, |p + [a]| + 1, 2, |p + [a]| + 2], []);
  }

  lemma LLVLReads(p: seq<string>, a: string, b: string, c: string, d: string)
    requires a !in p && b !in p && c !in p && d !in p
    requires a != b && a != c && a != d && b != c && b != d && c != d
    ensures Reads([Lit(a), Lit(b), Var(c), Lit(d)], p, [a, b, c, d], [2, |p|, 2, |p| + 1, 1, 0, 4, 1, 5, |p| + 2,
                  2, |p| + 3], [c])
  {
    LVLReads(p + [a], b, c, d);
    Unfold(Lit(a), [Lit(b), Var(c), Lit(d)], p, [b, c, d], [2, |p + [a]|, 1, 0, 4, 1, 5, |p + [a]| + 1, 2,
           |p + [a]| + 2], [c]);
  }

  lemma LLLVReads(p: seq<string>, a: string, b: string, c: string, d: string)
    requires a !in p && b !in p && c !in p && d !in p
    requires a != b && a != c && a != d && b != c && b != d && c != d
    ensures Reads([Lit(a), Lit(b), Lit(c), Var(d)], p, [a, b, c, d], [2, |p|, 2, |p| + 1, 2, |p| + 2, 1, 0, 4, 1,
                  5, |p| + 3], [d])
  {
    LLVReads(p + [a], b, c, d);
    Unfold(Lit(a), [Lit(b), Lit(c), Var(d)], p, [b, c, d], [2, |p + [a]|, 2, |p + [a]| + 1, 1, 0, 4, 1, 5,
           |p + [a]| + 2], [d]);
  }

  lemma LLVVReads(p: seq<string>, a: string, b: string, c: string, d: string)
    requires a !in p && b !in p && c !in p && d !in p
    requires a != b && a != c && a != d && b != c && b != d && c != d
    ensures Reads([Lit(a), Lit(b), Var(c), Var(d)], p, [a, b, c, d], [2, |p|, 2, |p| + 1, 1, 0, 4, 1, 5, |p| + 2,
                  1, 0, 4, 1, 5, |p| + 3], [c, d])
  {
    LVVReads(p + [a], b, c, d);
    Unfold(Lit(a), [Lit(b), Var(c), Var(d)], p, [b, c, d], [2, |p + [a]|, 1, 0, 4, 1, 5, |p + [a]| + 1, 1, 0, 4,
           1, 5, |p + [a]| + 2], [c, d]);
  }

  lemma LLVLVReads(p: seq<string>, a: string, b: string, c: string, d: string, e: string)
    requires a !in p && b !in p && c !in p && d !in p && e !in p
    requires a != b && a != c && a != d && a != e && b != c && b != d && b != e && c != d && c != e && d != e
    ensures Reads([Lit(a), Lit(b), Var(c), Lit(d), Var(e)], p, [a, b, c, d, e], [2, |p|, 2, |p| + 1, 1, 0, 4, 1,
                  5, |p| + 2, 2, |p| + 3, 1, 0, 4, 1, 5, |p| + 4], [c, e])
  {
    LVLVReads(p + [a], b, c, d, e);
    Unfold(Lit(a), [Lit(b), Var(c), Lit(d), Var(e)], p, [b, c, d, e], [2, |p + [a]|, 1, 0, 4, 1, 5,
           |p + [a]| + 1, 2, |p + [a]| + 2, 1, 0, 4, 1, 5, |p + [a]| + 3], [c, e]);
  }

  lemma LFacts(a: string)
    ensures Compile(L(a)) == Program(L_OPS, [a]) && Variables(L(a)) == []
  {
    LReads([], a);
    Whole(L(a), [a], L_OPS, []);
  }

  lemma LLFacts(a: string, b: string)
    requires a != b
    ensures Compile(LL(a, b)) == Program(LL_OPS, [a, b]) && Variables(LL(a, b)) == []
  {
    LLReads([], a, b);
    Whole(LL(a, b), [a, b], LL_OPS, []);
  }

  lemma LLLFacts(a: string, b: string, c: string)
    requires a != b && a != c && b != c
    ensures Compile(LLL(a, b, c)) == Program(LLL_OPS, [a, b, c]) && Variables(LLL(a, b, c)) == []
  {
    LLLReads([], a, b, c);
    Whole(LLL(a, b, c), [a, b, c], LLL_OPS, []);
  }

  lemma LLVFacts(a: string, b: string, c: string)
    requires a != b && a != c && b != c
    ensures Compile(LLV(a, b, c)) == Program(LLV_OPS, [a, b, c]) && Variables(LLV(a, b, c)) == [c]
  {
    LLVReads([], a, b, c);
    Whole(LLV(a, b, c), [a, b, c], LLV_OPS, [c]);
  }

  lemma LLLLFacts(a: string, b: string, c: string, d: string)
    requires a != b && a != c && a != d && b != c && b != d && c != d
    ensures Compile(LLLL(a, b, c, d)) == Program(LLLL_OPS, [a, b, c, d]) && Variables(LLLL(a, b, c, d)) == []
  {
    LLLLReads([], a, b, c, d);
    Whole(LLLL(a, b, c, d), [a, b, c, d], LLLL_OPS, []);
  }

  lemma LLVLFacts(a: string, b: string, c: string, d: string)
    requires a != b && a != c && a != d && b != c && b != d && c != d
    ensures Compile(LLVL(a, b, c, d)) == Program(LLVL_OPS, [a, b, c, d]) && Variables(LLVL(a, b, c, d)) == [c]
  {
    LLVLReads([], a, b, c, d);
    Whole(LLVL(a, b, c, d), [a, b, c, d], LLVL_OPS, [c]);
  }

  lemma LLLVFacts(a: string, b: string, c: string, d: string)
    requires a != b && a != c && a != d && b != c && b != d && c != d
    ensures Compile(LLLV(a, b, c, d)) == Program(LLLV_OPS, [a, b, c, d]) && Variables(LLLV(a, b, c, d)) == [d]
  {
    LLLVReads([], a, b, c, d);
    Whole(LLLV(a, b, c, d), [a, b, c, d], LLLV_OPS, [d]);
  }

  lemma LLVVFacts(a: string, b: string, c: string, d: string)
    requires a != b && a != c && a != d && b != c && b != d && c != d
    ensures Compile(LLVV(a, b, c, d)) == Program(LLVV_OPS, [a, b, c, d]) && Variables(LLVV(a, b, c, d)) == [c, d]
  {
    LLVVReads([], a, b, c, d);
    Whole(LLVV(a, b, c, d), [a, b, c, d], LLVV_OPS, [c, d]);
  }

  lemma LLVLVFacts(a: string, b: string, c: string, d: string, e: string)
    requires a != b && a != c && a != d && a != e && b != c && b != d && b != e && c != d && c != e && d != e
    ensures Compile(LLVLV(a, b, c, d, e)) == Program(LLVLV_OPS, [a, b, c, d, e]) && Variables(LLVLV(a, b, c, d,
                  e)) == [c, e]
  {
    LLVLVReads([], a, b, c, d, e);
    Whole(LLVLV(a, b, c, d, e), [a, b, c, d, e], LLVLV_OPS, [c, e]);
  }

  /** The fields a handler takes from the body and the path. */
  function Provided(h: Handler): seq<string> {
    (if h.body.FieldBody? then [h.body.field] else []) + h.lookups
  }

  /** The stored program is the compilation of the template; the handler looks up exactly the template's variables;
      and where it reads the query, the body is not the whole message and its filter lists exactly what body and path
      provide. */
  ghost predicate Checked(r: Row) {
    && Compile(r.template) == r.program
    && r.handler.lookups == Variables(r.template)
    && (r.handler.filter.Some? ==> !r.handler.body.WholeBody? && r.handler.filter.value == Provided(r.handler))
    && (|Provided(r.handler)| > 1 ==> Provided(r.handler)[0] != Provided(r.handler)[1])
    && |Provided(r.handler)| <= 2
  }

  lemma AccountsChecked(e: AccountsEndpoint)
    ensures Checked(AccountsRow(e))
  {
    match e
    case SessionRefresh => LLLLFacts("v2", "account", "session", "refresh");
    case SessionLogout => LLLFacts("v2", "session", "logout");
    case DeleteAccount => LLFacts("v2", "account");
    case GetAccount => LLFacts("v2", "account");
    case UpdateAccount => LLFacts("v2", "account");
  }

  predicate IsNewer(e: AuthenticationEndpoint) {
    match e
    case AuthenticateTelegram | SendTelegramAuthOTP | SendEmailAuthOTP | AuthenticateUA | AuthenticateEvm
         | AuthenticateSteam | AuthenticateTwitter => true
    case _ => false
  }

  lemma NewerChecked(e: AuthenticationEndpoint)
    requires IsNewer(e)
    ensures Checked(AuthenticationRow(e))
  {
    match e
    case AuthenticateTelegram => LLLLFacts("v2", "account", "authenticate", "telegram");
    case SendTelegramAuthOTP => LLLLFacts("v2", "account", "authenticate-ua", "telegram-otp");
    case SendEmailAuthOTP => LLLLFacts("v2", "account", "authenticate-ua", "email-otp");
    case AuthenticateUA => LLLLFacts("v2", "account", "authenticate", "ua");
    case AuthenticateEvm => LLLLFacts("v2", "account", "authenticate", "evm");
    case AuthenticateSteam => LLLLFacts("v2", "account", "authenticate", "steam");
    case AuthenticateTwitter => LLLLFacts("v2", "account", "authenticate", "twitter");
    case _ =>
  }

  lemma AuthenticationChecked(e: AuthenticationEndpoint)
    ensures Checked(AuthenticationRow(e))
  {
    match e
    case AuthenticateApple => LLLLFacts("v2", "account", "authenticate", "apple");
    case AuthenticateCustom => LLLLFacts("v2", "account", "authenticate", "custom");
    case AuthenticateDevice => LLLLFacts("v2", "account", "authenticate", "device");
    case AuthenticateEmail => LLLLFacts("v2", "account", "authenticate", "email");
    case AuthenticateFacebook => LLLLFacts("v2", "account", "authenticate", "facebook");
    case AuthenticateFacebookInstantGame => LLLLFacts("v2", "account", "authenticate", "facebookinstantgame");
    case AuthenticateGameCenter => LLLLFacts("v2", "account", "authenticate", "gamecenter");
    case AuthenticateGoogle => LLLLFacts("v2", "account", "authenticate", "google");
    case _ => NewerChecked(e);
  }

  lemma LinkingChecked(e: LinkingEndpoint)
    ensures Checked(LinkingRow(e))
  {
    match e
    case LinkApple => LLLLFacts("v2", "account", "link", "apple");
    case LinkEvm => LLLLFacts("v2", "account", "link", "evm");
    case LinkCustom => LLLLFacts("v2", "account", "link", "custom");
    case LinkDevice => LLLLFacts("v2", "account", "link", "device");
    case LinkEmail => LLLLFacts("v2", "account", "link", "email");
    case LinkFacebook => LLLLFacts("v2", "account", "link", "facebook");
    case LinkFacebookInstantGame => LLLLFacts("v2", "account", "link", "facebookinstantgame");
    case LinkGameCenter => LLLLFacts("v2", "account", "link", "gamecenter");
    case LinkGoogle => LLLLFacts("v2", "account", "link", "google");
    case LinkSteam => LLLLFacts("v2", "account", "link", "steam");
  }

  lemma UnlinkingChecked(e: UnlinkingEndpoint)
    ensures Checked(UnlinkingRow(e))
  {
    match e
    case UnlinkApple => LLLLFacts("v2", "account", "unlink", "apple");
    case UnlinkCustom => LLLLFacts("v2", "account", "unlink", "custom");
    case UnlinkDevice => LLLLFacts("v2", "account", "unlink", "device");
    case UnlinkEmail => LLLLFacts("v2", "account", "unlink", "email");
    case UnlinkFacebook => LLLLFacts("v2", "account", "unlink", "facebook");
    case UnlinkFacebookInstantGame => LLLLFacts("v2", "account", "unlink", "facebookinstantgame");
    case UnlinkGameCenter => LLLLFacts("v2", "account", "unlink", "gamecenter");
    case UnlinkGoogle => LLLLFacts("v2", "account", "unlink", "google");
    case UnlinkSteam => LLLLFacts("v2", "account", "unlink", "steam");
  }

  predicate IsGroup(e: SocialEndpoint) {
    match e
    case AddGroupUsers | BanGroupUsers | CreateGroup | DeleteGroup | JoinGroup | KickGroupUsers | LeaveGroup
         | ListGroups | ListGroupUsers | ListUserGroups | PromoteGroupUsers | DemoteGroupUsers | UpdateGroup => true
    case _ => false
  }

  lemma GroupsChecked(e: SocialEndpoint)
    requires IsGroup(e)
    ensures Checked(SocialRow(e))
  {
    match e
    case AddGroupUsers => LLVLFacts("v2", "group", "group_id", "add");
    case BanGroupUsers => LLVLFacts("v2", "group", "group_id", "ban");
    case CreateGroup => LLFacts("v2", "group");
    case DeleteGroup => LLVFacts("v2", "group", "group_id");
    case JoinGroup => LLVLFacts("v2", "group", "group_id", "join");
    case KickGroupUsers => LLVLFacts("v2", "group", "group_id", "kick");
    case LeaveGroup => LLVLFacts("v2", "group", "group_id", "leave");
    case ListGroups => LLFacts("v2", "group");
    case ListGroupUsers => LLVLFacts("v2", "group", "group_id", "user");
    case ListUserGroups => LLVLFacts("v2", "user", "user_id", "group");
    case PromoteGroupUsers => LLVLFacts("v2", "group", "group_id", "promote");
    case DemoteGroupUsers => LLVLFacts("v2", "group", "group_id", "demote");
    case UpdateGroup => LLVFacts("v2", "group", "group_id");
    case _ =>
  }

  lemma SocialChecked(e: SocialEndpoint)
    ensures Checked(SocialRow(e))
  {
    match e
    case AddFriends => LLFacts("v2", "friend");
    case BlockFriends => LLLFacts("v2", "friend", "block");
    case DeleteFriends => LLFacts("v2", "friend");
    case DeleteNotifications => LLFacts("v2", "notification");
    case GetUsers => LLFacts("v2", "user");
    case ImportFacebookFriends => LLLFacts("v2", "friend", "facebook");
    case ImportSteamFriends => LLLFacts("v2", "friend", "steam");
    case ListChannelMessages => LLVFacts("v2", "channel", "channel_id");
    case ListFriends => LLFacts("v2", "friend");
    case ListFriendsOfFriends => LLLFacts("v2", "friend", "friends");
    case ListNotifications => LLFacts("v2", "notification");
    case _ => GroupsChecked(e);
  }

  lemma RecordsChecked(e: RecordsEndpoint)
    ensures Checked(RecordsRow(e))
  {
    match e
    case DeleteLeaderboardRecord => LLVFacts("v2", "leaderboard", "leaderboard_id");
    case DeleteTournamentRecord => LLVFacts("v2", "tournament", "tournament_id");
    case JoinTournament => LLVLFacts("v2", "tournament", "tournament_id", "join");
    case ListLeaderboardRecords => LLVFacts("v2", "leaderboard", "leaderboard_id");
    case ListLeaderboardRecordsAroundOwner => LLVLVFacts("v2", "leaderboard", "leaderboard_id", "owner",
           "owner_id");
    case ListTournaments => LLFacts("v2", "tournament");
    case ListTournamentRecords => LLVFacts("v2", "tournament", "tournament_id");
    case ListTournamentRecordsAroundOwner => LLVLVFacts("v2", "tournament", "tournament_id", "owner", "owner_id");
    case WriteLeaderboardRecord => LLVFacts("v2", "leaderboard", "leaderboard_id");
    case WriteTournamentRecord0 => LLVFacts("v2", "tournament", "tournament_id");
    case WriteTournamentRecord1 => LLVFacts("v2", "tournament", "tournament_id");
  }

  predicate IsPurchase(e: ServicesEndpoint) {
    match e
    case GetSubscription | ListSubscriptions | ValidatePurchaseApple
         | ValidateSubscriptionApple | ValidatePurchaseGoogle | ValidateSubscriptionGoogle
         | ValidatePurchaseHuawei | ValidatePurchaseFacebookInstant => true
    case _ => false
  }

  lemma PurchasesChecked(e: ServicesEndpoint)
    requires IsPurchase(e)
    ensures Checked(ServicesRow(e))
  {
    match e
    case GetSubscription => LLLVFacts("v2", "iap", "subscription", "product_id");
    case ListSubscriptions => LLLFacts("v2", "iap", "subscription");
    case ValidatePurchaseApple => LLLLFacts("v2", "iap", "purchase", "apple");
    case ValidateSubscriptionApple => LLLLFacts("v2", "iap", "subscription", "apple");
    case ValidatePurchaseGoogle => LLLLFacts("v2", "iap", "purchase", "google");
    case ValidateSubscriptionGoogle => LLLLFacts("v2", "iap", "subscription", "google");
    case ValidatePurchaseHuawei => LLLLFacts("v2", "iap", "purchase", "huawei");
    case ValidatePurchaseFacebookInstant => LLLLFacts("v2", "iap", "purchase", "facebookinstant");
    case _ =>
  }

  lemma ServicesChecked(e: ServicesEndpoint)
    ensures Checked(ServicesRow(e))
  {
    match e
    case DeleteStorageObjects => LLLFacts("v2", "storage", "delete");
    case Event => LLFacts("v2", "event");
    case GetMatchmakerStats => LLLFacts("v2", "matchmaker", "stats");
    case Healthcheck => LFacts("healthcheck");
    case ListMatches => LLFacts("v2", "match");
    case ListStorageObjects0 => LLVFacts("v2", "storage", "collection");
    case ListStorageObjects1 => LLVVFacts("v2", "storage", "collection", "user_id");
    case ReadStorageObjects => LLFacts("v2", "storage");
    case RpcFunc0 => LLVFacts("v2", "rpc", "id");
    case RpcFunc1 => LLVFacts("v2", "rpc", "id");
    case WriteStorageObjects => LLFacts("v2", "storage");
    case _ => PurchasesChecked(e);
  }

  /** Every stored program is the compilation of its template, and every handler is wired to its template. */
  lemma TableChecked(e: Endpoint)
    ensures Checked(RowOf(e))
  {
    match e
    case Accounts(x) => AccountsChecked(x);
    case Authentication(x) => AuthenticationChecked(x);
    case Linking(x) => LinkingChecked(x);
    case Unlinking(x) => UnlinkingChecked(x);
    case Social(x) => SocialChecked(x);
    case Records(x) => RecordsChecked(x);
    case Services(x) => ServicesChecked(x);
  }
}
