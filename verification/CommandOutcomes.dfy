/** What each bot command does to the tables, told without the handlers: which route it acts on, and what
    that route, the reveal tokens and the deliveries are afterwards. */
module CommandOutcomes {
  import opened Text
  import opened Activities
  import opened References
  import opened BotAccess
  import opened BotCommands
  import opened BotRoutes
  import opened BotEffects
  import ClientIpAllowlist

  // ----- which route -----

  predicate Earlier(order: seq<nat>, i: nat, j: nat) {
    exists a, b :: 0 <= a < b < |order| && order[a] == i && order[b] == j
  }

  /** Routes of the conversation itself come before those of its channel; each in listing order. */
  predicate Precedes(w: World, ctx: Context, i: nat, j: nat)
    requires i in w.routes && j in w.routes
  {
    var iHere := InConversation(w.routes[i], ctx.org, ctx.captured.conversationId);
    var jHere := InConversation(w.routes[j], ctx.org, ctx.captured.conversationId);
    if iHere != jHere then iHere else Earlier(ctx.order, i, j)
  }

  /** The route a command acts on: with a name the first linked route of that name, without one the only
      linked route. */
  ghost predicate Chosen(w: World, ctx: Context, name: string, i: nat) {
    IsMeant(w, ctx, name, i)
    && forall j :: IsMeant(w, ctx, name, j) && j != i ==> name != "" && Precedes(w, ctx, i, j)
  }

  ghost predicate NoneChosen(w: World, ctx: Context, name: string) {
    forall i :: !Chosen(w, ctx, name, i)
  }

  lemma EarlierOnce(order: seq<nat>, i: nat, j: nat)
    requires NoRepeats(order) && Earlier(order, i, j)
    ensures !Earlier(order, j, i)
  {
    var a, b :| 0 <= a < b < |order| && order[a] == i && order[b] == j;
    forall c, d | 0 <= c < d < |order| ensures !(order[c] == j && order[d] == i) {
      assert order[c] == j ==> c == b;
    }
  }

  lemma EarlierInRest(order: seq<nat>, i: nat, j: nat)
    requires order != [] && Earlier(order[1..], i, j)
    ensures Earlier(order, i, j)
  {
    var a, b :| 0 <= a < b < |order[1..]| && order[1..][a] == i && order[1..][b] == j;
    assert order[a + 1] == i && order[b + 1] == j;
  }

  lemma {:induction false} SelectOrdered(routes: map<nat, Route>, order: seq<nat>, p: Route -> bool, a: nat, b: nat)
    requires a < b < |Select(routes, order, p)|
    ensures Earlier(order, Select(routes, order, p)[a], Select(routes, order, p)[b])
  {
    var ids, rest := Select(routes, order, p), Select(routes, order[1..], p);
    var skip := if order[0] in routes && p(routes[order[0]]) then 1 else 0;
    assert forall k: nat :: skip <= k < |ids| ==> ids[k] == rest[k - skip];
    if a >= skip {
      SelectOrdered(routes, order[1..], p, a - skip, b - skip);
      EarlierInRest(order, ids[a], ids[b]);
    } else {
      assert ids[b] in rest;
      var k :| 0 <= k < |order[1..]| && order[1..][k] == ids[b];
      assert order[0] == ids[a] && order[k + 1] == ids[b];
    }
  }

  lemma SelectedAt(routes: map<nat, Route>, order: seq<nat>, p: Route -> bool, k: nat)
    requires k < |Select(routes, order, p)|
    ensures Select(routes, order, p)[k] in routes && p(routes[Select(routes, order, p)[k]])
  {
    assert Select(routes, order, p)[k] in Select(routes, order, p);
  }

  /** Two selections one after the other, the second without what the first looks for. */
  lemma BothOrdered(routes: map<nat, Route>, order: seq<nat>, p: Route -> bool, q: Route -> bool, a: nat, b: nat)
    requires forall r :: q(r) ==> !p(r)
    requires var ids := Select(routes, order, p) + Select(routes, order, q); a < b < |ids|
    ensures var ids := Select(routes, order, p) + Select(routes, order, q);
      && ids[a] in routes && ids[b] in routes
      && (if p(routes[ids[a]]) != p(routes[ids[b]]) then p(routes[ids[a]]) else Earlier(order, ids[a], ids[b]))
  {
    hide Select, Earlier;
    var first, second := Select(routes, order, p), Select(routes, order, q);
    if b < |first| {
      SelectedAt(routes, order, p, a);
      SelectedAt(routes, order, p, b);
      SelectOrdered(routes, order, p, a, b);
    } else if |first| <= a {
      SelectedAt(routes, order, q, a - |first|);
      SelectedAt(routes, order, q, b - |first|);
      SelectOrdered(routes, order, q, a - |first|, b - |first|);
    } else {
      SelectedAt(routes, order, p, a);
      SelectedAt(routes, order, q, b - |first|);
    }
  }

  lemma LinkedOrdered(w: World, ctx: Context, a: nat, b: nat)
    requires var linked := LinkedRoutes(w.routes, ctx.order, ctx.org, ctx.captured); a < b < |linked|
    ensures var linked := LinkedRoutes(w.routes, ctx.order, ctx.org, ctx.captured);
      linked[a] in w.routes && linked[b] in w.routes && Precedes(w, ctx, linked[a], linked[b])
  {
    hide Select, InConversation, InChannel, Earlier;
    var c, org := ctx.captured, ctx.org;
    var here := r => InConversation(r, org, c.conversationId);
    var inChannel := r => InChannel(r, org, c.graphTeamId, c.channelId) && !InConversation(r, org, c.conversationId);
    BothOrdered(w.routes, ctx.order, here, inChannel, a, b);
  }

  lemma {:induction false} FirstNamedAt(routes: map<nat, Route>, ids: seq<nat>, name: string) returns (a: nat)
    requires FirstNamed(routes, ids, name).Some?
    ensures a < |ids| && FirstNamed(routes, ids, name) == Some(ids[a])
    ensures forall b :: 0 <= b < a ==> !(ids[b] in routes && routes[ids[b]].name == name)
  {
    if ids[0] in routes && routes[ids[0]].name == name {
      a := 0;
    } else {
      var k := FirstNamedAt(routes, ids[1..], name);
      a := k + 1;
    }
  }

  lemma ResolvedIsChosen(w: World, ctx: Context, name: string)
    requires NoRepeats(ctx.order) && ResolveLinked(w.routes, ctx, name).Some?
    ensures Chosen(w, ctx, name, ResolveLinked(w.routes, ctx, name).value)
  {
    hide LinkedRoutes, FirstNamed, Linked, Precedes;
    var linked := LinkedRoutes(w.routes, ctx.order, ctx.org, ctx.captured);
    var i := ResolveLinked(w.routes, ctx, name).value;
    ResolvesIff(w, ctx, name);
    LinkedRoutesAreLinked(w.routes, ctx.order, ctx.org, ctx.captured);
    if name != "" {
      var a := FirstNamedAt(w.routes, linked, name);
      forall j | IsMeant(w, ctx, name, j) && j != i ensures Precedes(w, ctx, i, j) {
        assert j in linked;
        var b: nat :| b < |linked| && linked[b] == j;
        assert a < b;
        LinkedOrdered(w, ctx, a, b);
      }
    }
  }

  /** The resolution finds exactly the chosen route. */
  lemma ChosenIff(w: World, ctx: Context, name: string, i: nat)
    requires NoRepeats(ctx.order)
    ensures ResolveLinked(w.routes, ctx, name) == Some(i) <==> Chosen(w, ctx, name, i)
  {
    hide ResolveLinked, Linked;
    ResolvesIff(w, ctx, name);
    if ResolveLinked(w.routes, ctx, name).Some? {
      ResolvedIsChosen(w, ctx, name);
    }
    if Chosen(w, ctx, name, i) {
      var k := ResolveLinked(w.routes, ctx, name).value;
      if k != i {
        OneChosen(w, ctx, name, i, k);
      }
    }
  }

  lemma OneChosen(w: World, ctx: Context, name: string, i: nat, k: nat)
    requires NoRepeats(ctx.order) && Chosen(w, ctx, name, i) && Chosen(w, ctx, name, k)
    ensures i == k
  {
    hide IsMeant, InConversation, Earlier;
    if i != k {
      if Earlier(ctx.order, i, k) {
        EarlierOnce(ctx.order, i, k);
      }
    }
  }

  /** The first listed route of this kind. */
  ghost predicate FirstListed(w: World, order: seq<nat>, kind: Route -> bool, i: nat) {
    && i in order && i in w.routes && kind(w.routes[i])
    && forall j :: j in order && j in w.routes && kind(w.routes[j]) && j != i ==> Earlier(order, i, j)
  }

  ghost predicate NoneListed(w: World, order: seq<nat>, kind: Route -> bool) {
    forall i :: i in order && i in w.routes ==> !kind(w.routes[i])
  }

  lemma FirstListedIff(w: World, order: seq<nat>, kind: Route -> bool, i: nat)
    requires NoRepeats(order)
    ensures Select(w.routes, order, kind) == [] <==> NoneListed(w, order, kind)
    ensures (Select(w.routes, order, kind) != [] && Select(w.routes, order, kind)[0] == i)
       <==> FirstListed(w, order, kind, i)
  {
    hide Earlier;
    var ids := Select(w.routes, order, kind);
    if ids != [] {
      SelectedAt(w.routes, order, kind, 0);
      assert ids[0] in ids;
      forall j | j in order && j in w.routes && kind(w.routes[j]) && j != ids[0] ensures Earlier(order, ids[0], j) {
        var b: nat :| b < |ids| && ids[b] == j;
        SelectOrdered(w.routes, order, kind, 0, b);
      }
      if FirstListed(w, order, kind, i) && i != ids[0] {
        EarlierOnce(order, i, ids[0]);
      }
    }
  }

  // ----- what happens to it -----

  /** Expired tokens are gone, and there is a new one for this route. */
  ghost predicate NewToken(w: World, w': World, ctx: Context, i: nat) {
    forall t :: t in w'.tokens <==>
      (t in w.tokens && t.expiresAt > ctx.now) || t == RevealToken(i, ctx.now + ctx.revealSeconds)
  }

  /** The route is revealed where it has a URL and that is allowed. */
  ghost predicate RevealedWhere(allowed: bool, w: World, w': World, ctx: Context, i: nat) {
    if allowed && i in w'.routes && w'.routes[i].token != "" then NewToken(w, w', ctx, i) else w'.tokens == w.tokens
  }

  predicate MayReveal(ctx: Context) {
    RevealWebhookUrls in ctx.permissions
  }

  /** Enable and disable: the chosen route gets the flag, and only it. */
  ghost predicate StatusSet(w: World, w': World, ctx: Context, name: string, active: bool) {
    if |name| > MAX_NAME || NoneChosen(w, ctx, name) then w' == w
    else forall i :: Chosen(w, ctx, name, i) ==>
      && w'.routes == w.routes[i := w.routes[i].(active := active)] && w'.deliveries == w.deliveries
      && RevealedWhere(MayReveal(ctx), w, w', ctx, i)
  }

  /** Delete, which needs a name: the chosen route goes with its tokens, its deliveries stay without it. */
  ghost predicate RouteDeleted(w: World, w': World, ctx: Context, name: string) {
    if name == "" || |name| > MAX_NAME || NoneChosen(w, ctx, name) then w' == w
    else forall i :: Chosen(w, ctx, name, i) ==>
      && w'.routes == w.routes - {i}
      && (forall t :: t in w'.tokens <==> t in w.tokens && t.routeId != i)
      && |w'.deliveries| == |w.deliveries|
      && (forall k :: 0 <= k < |w.deliveries| ==>
            var routeId := w.deliveries[k].routeId;
            w'.deliveries[k] == Delivery(w.deliveries[k].id, if routeId == Some(i) then None else routeId))
  }

  /** A group chat: not personal, no team, and marked or typed as a group. */
  predicate IsGroupChat(c: Captured) {
    && c.conversationType != "personal" && c.teamId == ""
    && (c.isGroup || Lower(c.conversationType) in {"groupchat", "group", "chat"})
  }

  /** Where a route registered from this conversation delivers to: the group chat, else the channel, else
      the team, else the user. */
  function AimOf(c: Captured, r: Reference): Target {
    var user := Or(r.graphUserId, c.fromId);
    var (kind, id) :=
      if IsGroupChat(c) then ("chat", c.conversationId)
      else if c.channelId != "" then ("channel", c.channelId)
      else if r.graphTeamId != "" then ("team", r.graphTeamId)
      else if user != "" then ("user", user)
      else ("", "");
    Target(c.serviceUrl, c.conversationId, kind, id, r.graphTeamId, if kind == "channel" then c.channelId else "", user)
  }

  /** The reference shows the conversation as it was just captured. */
  predicate Shows(r: Reference, c: Captured) {
    && r.conversationId == c.conversationId && r.serviceUrl == c.serviceUrl && r.tenantId == c.tenantId
    && r.scope == ScopeFor(c) && r.channelId == c.channelId && r.teamId == c.teamId && r.userId == c.fromId
    && r.conversationType == c.conversationType && r.rawActivityType == c.activityType
    && (c.graphTeamId != "" ==> r.graphTeamId == c.graphTeamId)
    && (c.graphUserId != "" ==> r.graphUserId == c.graphUserId)
    && (c.teamName != "" ==> r.teamName == c.teamName) && (c.channelName != "" ==> r.channelName == c.channelName)
    && (c.userName != "" ==> r.userName == c.userName)
  }

  predicate CanAim(ctx: Context, name: string) {
    && name != "" && |name| <= MAX_NAME
    && ctx.captured.conversationId != "" && ctx.captured.serviceUrl != "" && ctx.reference.Some?
  }

  /** Register: the first bot route of that name, or a new one, is active and delivers here. */
  ghost predicate Registered(w: World, w': World, ctx: Context, name: string) {
    var mine := (r: Route) => IsNamed(r, ctx, name);
    if !CanAim(ctx, name) then w' == w
    else
      var aim := AimOf(ctx.captured, ctx.reference.value);
      if NoneListed(w, ctx.order, mine) then
        if ctx.newRouteId in w.routes then w' == w
        else
          && w'.routes == w.routes[ctx.newRouteId := Route(ctx.org, name, BOT_FRAMEWORK, ctx.newToken, true,
                                                           Access(PUBLIC, ""), aim)]
          && w'.deliveries == w.deliveries && RevealedWhere(MayReveal(ctx), w, w', ctx, ctx.newRouteId)
      else forall i :: FirstListed(w, ctx.order, mine, i) ==>
        && w'.routes == w.routes[i := w.routes[i].(active := true, target := aim)]
        && w'.deliveries == w.deliveries && RevealedWhere(MayReveal(ctx), w, w', ctx, i)
  }

  predicate OnlyTokens(w: World, w': World) {
    w'.routes == w.routes && w'.deliveries == w.deliveries
  }

  /** Webhook: a token for the first route of that name in the organization. */
  ghost predicate UrlRevealed(w: World, w': World, ctx: Context, name: string) {
    var named := (r: Route) => r.org == ctx.org && r.name == name;
    if name == "" || |name| > MAX_NAME || NoneListed(w, ctx.order, named) then w' == w
    else OnlyTokens(w, w') && forall i :: FirstListed(w, ctx.order, named, i) ==> RevealedWhere(true, w, w', ctx, i)
  }

  predicate HasUrl(w: World, ctx: Context, i: nat) {
    IsMeant(w, ctx, "", i) && w.routes[i].token != ""
  }

  /** Info: with a name a token for the chosen route, without one a token for every linked route. */
  ghost predicate InfoGiven(w: World, w': World, ctx: Context, name: string) {
    && OnlyTokens(w, w')
    && if |name| > MAX_NAME then w' == w
       else if name != "" then
         if NoneChosen(w, ctx, name) then w' == w
         else forall i :: Chosen(w, ctx, name, i) ==> RevealedWhere(MayReveal(ctx), w, w', ctx, i)
       else if MayReveal(ctx) && exists i :: HasUrl(w, ctx, i) then
         ctx.revealSeconds > 0 ==> forall t :: t in w'.tokens <==>
           || (t in w.tokens && t.expiresAt > ctx.now)
           || (HasUrl(w, ctx, t.routeId) && t.expiresAt == ctx.now + ctx.revealSeconds)
       else w' == w
  }

  /** The written list reads, and is not empty where it restricts. */
  predicate ListReads(mode: string, entries: string) {
    var list := ClientIpAllowlist.Normalize(entries);
    list.Ok? && (mode == RESTRICTED ==> list.value != "")
  }

  /** Allowlist: the chosen route has the asked mode and the written list in canonical form. */
  ghost predicate AccessSet(w: World, w': World, ctx: Context, name: string, mode: string, entries: string) {
    if |name| > MAX_NAME || NoneChosen(w, ctx, name) || !ListReads(mode, entries) then w' == w
    else forall i :: Chosen(w, ctx, name, i) ==>
      var list := if mode == RESTRICTED then ClientIpAllowlist.Normalize(entries).value else "";
      w' == w.(routes := w.routes[i := w.routes[i].(access := Access(mode, list))])
  }

  ghost predicate Achieves(w: World, w': World, ctx: Context, p: Parsed) {
    match p.command
    case Register => Registered(w, w', ctx, p.argument)
    case Webhook => UrlRevealed(w, w', ctx, p.argument)
    case Disable => StatusSet(w, w', ctx, p.argument, false)
    case Enable => StatusSet(w, w', ctx, p.argument, true)
    case Delete => RouteDeleted(w, w', ctx, p.argument)
    case Info => InfoGiven(w, w', ctx, p.argument)
    case Help => w' == w
    case Allowlist =>
      match AllowlistActionOf(p.argument)
      case Show(_) => w' == w
      case SetPublic(name) => AccessSet(w, w', ctx, name, PUBLIC, "")
      case SetRestricted(name, entries) => AccessSet(w, w', ctx, name, RESTRICTED, entries)
  }

  // ----- every command achieves it -----

  lemma RevealIs(w: World, id: nat, ctx: Context)
    ensures OnlyTokens(w, IssueReveal(w, id, ctx)) && RevealedWhere(true, w, IssueReveal(w, id, ctx), ctx, id)
    ensures OnlyTokens(w, RevealIfAllowed(w, id, ctx))
    ensures RevealedWhere(MayReveal(ctx), w, RevealIfAllowed(w, id, ctx), ctx, id)
  {
  }

  lemma ResolvedOrNone(w: World, ctx: Context, name: string)
    requires NoRepeats(ctx.order)
    ensures var id := ResolveLinked(w.routes, ctx, name);
      && (id.None? <==> NoneChosen(w, ctx, name))
      && (forall i: nat :: Chosen(w, ctx, name, i) <==> id == Some(i))
      && (id.Some? ==> id.value in w.routes)
  {
    hide ResolveLinked, IsMeant;
    var id := ResolveLinked(w.routes, ctx, name);
    forall i: nat ensures Chosen(w, ctx, name, i) <==> id == Some(i) {
      ChosenIff(w, ctx, name, i);
    }
    ResolvesIff(w, ctx, name);
    if id.Some? {
      assert Chosen(w, ctx, name, id.value);
      MeantIsThere(w, ctx, name, id.value);
    }
  }

  lemma MeantIsThere(w: World, ctx: Context, name: string, i: nat)
    requires IsMeant(w, ctx, name, i)
    ensures i in w.routes
  {
  }

  lemma StatusDone(w: World, ctx: Context, name: string, active: bool)
    requires NoRepeats(ctx.order)
    ensures StatusSet(w, SetActive(w, ctx, name, active), ctx, name, active)
  {
    hide ResolveLinked, Chosen, NoneChosen, RevealedWhere, RevealIfAllowed;
    ResolvedOrNone(w, ctx, name);
    var id := ResolveLinked(w.routes, ctx, name);
    if |name| <= MAX_NAME && id.Some? {
      var put := w.(routes := w.routes[id.value := w.routes[id.value].(active := active)]);
      RevealIs(put, id.value, ctx);
      SameTokens(MayReveal(ctx), w, put, RevealIfAllowed(put, id.value, ctx), ctx, id.value);
    }
  }

  lemma SameTokens(allowed: bool, w: World, put: World, w': World, ctx: Context, i: nat)
    requires put.tokens == w.tokens && RevealedWhere(allowed, put, w', ctx, i)
    ensures RevealedWhere(allowed, w, w', ctx, i)
  {
  }

  lemma DeleteDone(w: World, ctx: Context, name: string)
    requires NoRepeats(ctx.order)
    ensures RouteDeleted(w, DeleteLinked(w, ctx, name), ctx, name)
  {
    hide ResolveLinked, Chosen, NoneChosen;
    ResolvedOrNone(w, ctx, name);
  }

  lemma AccessDone(w: World, ctx: Context, name: string, mode: string, entries: string)
    requires NoRepeats(ctx.order)
    ensures AccessSet(w, SetAccess(w, ctx, name, mode, entries), ctx, name, mode, entries)
  {
    hide ResolveLinked, Chosen, NoneChosen, ClientIpAllowlist.Normalize;
    ResolvedOrNone(w, ctx, name);
  }

  lemma WebhookDone(w: World, ctx: Context, name: string)
    requires NoRepeats(ctx.order)
    ensures UrlRevealed(w, RevealRoute(w, ctx, name), ctx, name)
  {
    hide FirstListed, NoneListed, RevealedWhere, IssueReveal, Select;
    var named := (r: Route) => r.org == ctx.org && r.name == name;
    var ids := NamedRoutes(w.routes, ctx.order, ctx.org, name);
    assert ids == Select(w.routes, ctx.order, named);
    forall i ensures FirstListed(w, ctx.order, named, i) <==> ids != [] && ids[0] == i {
      FirstListedIff(w, ctx.order, named, i);
    }
    FirstListedIff(w, ctx.order, named, 0);
    if ids != [] {
      RevealIs(w, ids[0], ctx);
    }
  }

  lemma AimIs(ctx: Context)
    requires ctx.captured.conversationId != "" && ctx.captured.serviceUrl != ""
    requires ctx.reference.Some? && Shows(ctx.reference.value, ctx.captured)
    ensures RegisteredTarget(ctx) == AimOf(ctx.captured, ctx.reference.value)
  {
    hide Lower;
    var c, r := ctx.captured, ctx.reference.value;
    var merged := Merged(c, r);
    assert ScopeFor(merged) == ScopeFor(c);
    assert ScopeFor(c) == "chat" <==> IsGroupChat(c);
  }

  lemma RegisterDone(w: World, ctx: Context, name: string)
    requires NoRepeats(ctx.order) && (ctx.reference.Some? ==> Shows(ctx.reference.value, ctx.captured))
    ensures Registered(w, RegisterRoute(w, ctx, name), ctx, name)
  {
    hide FirstListed, NoneListed, RevealedWhere, RevealIfAllowed, Select, AimOf, Shows, TargetOf, Merged;
    if CanAim(ctx, name) {
      AimIs(ctx);
      var aim := AimOf(ctx.captured, ctx.reference.value);
      var mine := (r: Route) => IsNamed(r, ctx, name);
      var ids := BotRoutesNamed(w.routes, ctx.order, ctx.org, name);
      NamedSame(w, ctx, name);
      assert ids == Select(w.routes, ctx.order, mine);
      forall i: nat ensures FirstListed(w, ctx.order, mine, i) <==> ids != [] && ids[0] == i {
        FirstListedIff(w, ctx.order, mine, i);
      }
      FirstListedIff(w, ctx.order, mine, 0);
      if ids != [] {
        SelectedAt(w.routes, ctx.order, mine, 0);
        var put := w.(routes := w.routes[ids[0] := w.routes[ids[0]].(active := true, target := aim)]);
        RevealIs(put, ids[0], ctx);
        SameTokens(MayReveal(ctx), w, put, RevealIfAllowed(put, ids[0], ctx), ctx, ids[0]);
      } else if ctx.newRouteId !in w.routes {
        var put := w.(routes := w.routes[ctx.newRouteId :=
          Route(ctx.org, name, BOT_FRAMEWORK, ctx.newToken, true, Access(PUBLIC, ""), aim)]);
        RevealIs(put, ctx.newRouteId, ctx);
        SameTokens(MayReveal(ctx), w, put, RevealIfAllowed(put, ctx.newRouteId, ctx), ctx, ctx.newRouteId);
      }
    }
  }

  lemma NamedSame(w: World, ctx: Context, name: string)
    ensures BotRoutesNamed(w.routes, ctx.order, ctx.org, name)
         == Select(w.routes, ctx.order, (r: Route) => IsNamed(r, ctx, name))
  {
    SelectAlike(w.routes, ctx.order, (r: Route) => r.org == ctx.org && r.name == name && r.backend == BOT_FRAMEWORK,
                (r: Route) => IsNamed(r, ctx, name));
  }

  lemma {:induction false} SelectAlike(routes: map<nat, Route>, order: seq<nat>, p: Route -> bool, q: Route -> bool)
    requires forall r :: p(r) == q(r)
    ensures Select(routes, order, p) == Select(routes, order, q)
  {
    if order != [] {
      SelectAlike(routes, order[1..], p, q);
    }
  }

  // ----- info without a name -----

  predicate Shown(w: World, ids: seq<nat>, i: nat) {
    i in ids && i in w.routes && w.routes[i].token != ""
  }

  lemma {:induction false} RevealEachTokens(w: World, ids: seq<nat>, ctx: Context)
    requires MayReveal(ctx) && ctx.revealSeconds > 0
    ensures var w' := RevealEach(w, ids, ctx);
      && OnlyTokens(w, w')
      && (if exists i :: Shown(w, ids, i) then
            forall t :: t in w'.tokens <==>
              || (t in w.tokens && t.expiresAt > ctx.now)
              || (Shown(w, ids, t.routeId) && t.expiresAt == ctx.now + ctx.revealSeconds)
          else w'.tokens == w.tokens)
  {
    if ids != [] {
      var init, last := ids[..|ids| - 1], ids[|ids| - 1];
      RevealEachTokens(w, init, ctx);
      assert ids == init + [last];
      assert forall i :: Shown(w, ids, i) <==> Shown(w, init, i) || (i == last && Shown(w, ids, last));
      assert Shown(w, ids, last) <==> last in w.routes && w.routes[last].token != "";
    }
  }

  lemma {:induction false} RevealEachNothing(w: World, ids: seq<nat>, ctx: Context)
    ensures OnlyTokens(w, RevealEach(w, ids, ctx))
    ensures !MayReveal(ctx) || (forall i :: !Shown(w, ids, i)) ==> RevealEach(w, ids, ctx) == w
  {
    if ids != [] {
      var init := ids[..|ids| - 1];
      RevealEachNothing(w, init, ctx);
      assert forall i :: Shown(w, init, i) ==> Shown(w, ids, i);
      if !Shown(w, ids, ids[|ids| - 1]) {
        RevealIs(RevealEach(w, init, ctx), ids[|ids| - 1], ctx);
      }
    }
  }

  lemma InfoAllDone(w: World, ctx: Context)
    requires NoRepeats(ctx.order)
    ensures InfoGiven(w, InfoRoutes(w, ctx, ""), ctx, "")
  {
    hide RevealEach, Linked, LinkedRoutes;
    var linked := LinkedRoutes(w.routes, ctx.order, ctx.org, ctx.captured);
    LinkedRoutesAreLinked(w.routes, ctx.order, ctx.org, ctx.captured);
    assert forall i :: Shown(w, linked, i) <==> HasUrl(w, ctx, i);
    RevealEachNothing(w, linked, ctx);
    if MayReveal(ctx) && ctx.revealSeconds > 0 {
      RevealEachTokens(w, linked, ctx);
    }
  }

  lemma InfoDone(w: World, ctx: Context, name: string)
    requires NoRepeats(ctx.order)
    ensures InfoGiven(w, InfoRoutes(w, ctx, name), ctx, name)
  {
    if name == "" {
      InfoAllDone(w, ctx);
    } else {
      hide Chosen, NoneChosen, RevealedWhere, RevealIfAllowed, LinkedRoutes, FirstNamed;
      ResolvedOrNone(w, ctx, name);
      var id := ResolveLinked(w.routes, ctx, name);
      if id.Some? {
        RevealIs(w, id.value, ctx);
      }
    }
  }

  /** Every command does what it says, whatever the tables: the outcome is fixed by the tables before, the
      conversation and the permissions. */
  lemma HandleAchieves(w: World, ctx: Context, p: Parsed)
    requires NoRepeats(ctx.order) && (ctx.reference.Some? ==> Shows(ctx.reference.value, ctx.captured))
    ensures Achieves(w, Handle(w, ctx, p), ctx, p)
  {
    hide Registered, UrlRevealed, StatusSet, RouteDeleted, InfoGiven, AccessSet, Shows;
    hide RegisterRoute, RevealRoute, SetActive, DeleteLinked, InfoRoutes, SetAccess, AllowlistActionOf;
    match p.command
    case Register => RegisterDone(w, ctx, p.argument);
    case Webhook => WebhookDone(w, ctx, p.argument);
    case Disable => StatusDone(w, ctx, p.argument, false);
    case Enable => StatusDone(w, ctx, p.argument, true);
    case Delete => DeleteDone(w, ctx, p.argument);
    case Info => InfoDone(w, ctx, p.argument);
    case Help =>
    case Allowlist =>
      match AllowlistActionOf(p.argument) {
        case Show(_) =>
        case SetPublic(name) => AccessDone(w, ctx, name, PUBLIC, "");
        case SetRestricted(name, entries) => AccessDone(w, ctx, name, RESTRICTED, entries);
      }
  }
}
