/** Webhook routes as bot commands see and change them: linking, dispatch, and what a message may
    do to the tables. */
module BotRoutes {
  import opened Text
  import opened Activities
  import opened References
  import opened BotAccess
  import opened BotCommands
  import AddressLists
  import ClientIpAllowlist

  const BOT_FRAMEWORK := "bot_framework"
  const MAX_NAME := 200

  /** Where a route delivers to. */
  datatype Target = Target(
    serviceUrl: string,
    conversationId: string,
    graphKind: string,
    graphTargetId: string,
    graphTeamId: string,
    graphChannelId: string,
    registeredBy: string)

  datatype Access = Access(mode: string, allowlist: string)

  datatype Route = Route(
    org: string,
    name: string,
    backend: string,
    token: string,
    active: bool,
    access: Access,
    target: Target)

  datatype RevealToken = RevealToken(routeId: nat, expiresAt: int)

  /** Deliveries keep a reference to their route until it is deleted. */
  datatype Delivery = Delivery(id: nat, routeId: Option<nat>)

  datatype World = World(routes: map<nat, Route>, tokens: seq<RevealToken>, deliveries: seq<Delivery>)

  /** What a command is run with: the sender's permissions, the captured conversation, the clock,
      the order in which the database lists routes, and values for rows it may add. */
  datatype Context = Context(
    org: string,
    captured: Captured,
    reference: Option<Reference>,
    permissions: set<Permission>,
    now: int,
    revealSeconds: nat,
    order: seq<nat>,
    newRouteId: nat,
    newToken: string)

  // ----- which routes a conversation is linked to -----

  predicate InConversation(r: Route, org: string, conversationId: string) {
    conversationId != "" && r.org == org && r.target.conversationId == conversationId
  }

  predicate InChannel(r: Route, org: string, graphTeamId: string, channelId: string) {
    && graphTeamId != "" && channelId != ""
    && r.org == org && r.target.graphTeamId == graphTeamId && r.target.graphChannelId == channelId
  }

  /** The listed ids whose routes satisfy `p`, in listing order. */
  function Select(routes: map<nat, Route>, order: seq<nat>, p: Route -> bool): (ids: seq<nat>)
    ensures forall i :: i in ids <==> i in order && i in routes && p(routes[i])
    ensures |ids| <= |order|
  {
    if order == [] then []
    else
      (if order[0] in routes && p(routes[order[0]]) then [order[0]] else []) + Select(routes, order[1..], p)
  }

  predicate NoRepeats(ids: seq<nat>) {
    forall i, j :: 0 <= i < j < |ids| ==> ids[i] != ids[j]
  }

  /** `_find_routes_for_reference`: by conversation first, then by channel. */
  function LinkedRoutes(routes: map<nat, Route>, order: seq<nat>, org: string, c: Captured): seq<nat> {
    var here := r => InConversation(r, org, c.conversationId);
    var inChannel := r => InChannel(r, org, c.graphTeamId, c.channelId) && !InConversation(r, org, c.conversationId);
    Select(routes, order, here) + Select(routes, order, inChannel)
  }

  predicate Linked(r: Route, org: string, c: Captured) {
    InConversation(r, org, c.conversationId) || InChannel(r, org, c.graphTeamId, c.channelId)
  }

  function NamedRoutes(routes: map<nat, Route>, order: seq<nat>, org: string, name: string): seq<nat> {
    Select(routes, order, (r: Route) => r.org == org && r.name == name)
  }

  function BotRoutesNamed(routes: map<nat, Route>, order: seq<nat>, org: string, name: string): seq<nat> {
    Select(routes, order, (r: Route) => r.org == org && r.name == name && r.backend == BOT_FRAMEWORK)
  }

  /** What `_find_routes_for_conversation_reference` matches, for the administrator's inspector. */
  predicate Inspected(r: Route, org: string, reference: Reference) {
    || InConversation(r, org, reference.conversationId)
    || (reference.conversationId != "" && r.org == org && r.target.graphKind == "chat"
        && r.target.graphTargetId == reference.conversationId)
    || InChannel(r, org, reference.graphTeamId, reference.channelId)
  }

  function InspectedRoutes(routes: map<nat, Route>, order: seq<nat>, org: string, reference: Reference): seq<nat> {
    Select(routes, order, r => Inspected(r, org, reference))
  }

  /** `_resolve_linked_route`: by name, or the only linked route. */
  function ResolveLinked(routes: map<nat, Route>, ctx: Context, name: string): (id: Option<nat>)
    ensures id.Some? ==> id.value in LinkedRoutes(routes, ctx.order, ctx.org, ctx.captured)
  {
    var linked := LinkedRoutes(routes, ctx.order, ctx.org, ctx.captured);
    if name != "" then FirstNamed(routes, linked, name)
    else if |linked| == 1 then Some(linked[0])
    else None
  }

  function FirstNamed(routes: map<nat, Route>, ids: seq<nat>, name: string): (id: Option<nat>)
    ensures id.Some? ==> id.value in ids && id.value in routes && routes[id.value].name == name
    ensures id.None? ==> forall i :: i in ids && i in routes ==> routes[i].name != name
  {
    if ids == [] then None
    else if ids[0] in routes && routes[ids[0]].name == name then Some(ids[0])
    else FirstNamed(routes, ids[1..], name)
  }

  // ----- effects -----

  function Unexpired(tokens: seq<RevealToken>, now: int): (kept: seq<RevealToken>)
    ensures forall t :: t in kept <==> t in tokens && t.expiresAt > now
  {
    if tokens == [] then []
    else (if tokens[0].expiresAt > now then [tokens[0]] else []) + Unexpired(tokens[1..], now)
  }

  /** `_issue_webhook_reveal_url`: expired tokens go, one new token comes, if the route has a URL. */
  function IssueReveal(w: World, id: nat, ctx: Context): World {
    if id !in w.routes || w.routes[id].token == "" then w
    else w.(tokens := Unexpired(w.tokens, ctx.now) + [RevealToken(id, ctx.now + ctx.revealSeconds)])
  }

  function RevealIfAllowed(w: World, id: nat, ctx: Context): World {
    if RevealWebhookUrls in ctx.permissions then IssueReveal(w, id, ctx) else w
  }

  function RevealEach(w: World, ids: seq<nat>, ctx: Context): World {
    if ids == [] then w else RevealIfAllowed(RevealEach(w, ids[..|ids| - 1], ctx), ids[|ids| - 1], ctx)
  }

  function Detached(deliveries: seq<Delivery>, id: nat): (r: seq<Delivery>)
    ensures |r| == |deliveries|
    ensures forall k :: 0 <= k < |r| ==>
              r[k] == if deliveries[k].routeId == Some(id) then deliveries[k].(routeId := None) else deliveries[k]
  {
    if deliveries == [] then []
    else
      [if deliveries[0].routeId == Some(id) then deliveries[0].(routeId := None) else deliveries[0]]
      + Detached(deliveries[1..], id)
  }

  function WithoutRoute(tokens: seq<RevealToken>, id: nat): (kept: seq<RevealToken>)
    ensures forall t :: t in kept <==> t in tokens && t.routeId != id
  {
    if tokens == [] then []
    else (if tokens[0].routeId != id then [tokens[0]] else []) + WithoutRoute(tokens[1..], id)
  }

  /** A route goes with its reveal tokens; its deliveries stay, detached. */
  function DropRoute(w: World, id: nat): World {
    World(w.routes - {id}, WithoutRoute(w.tokens, id), Detached(w.deliveries, id))
  }

  // ----- commands -----

  /** `_captured_with_reference`: blank captured fields filled from the reference. */
  function Merged(c: Captured, r: Reference): Captured {
    c.(serviceUrl := Or(c.serviceUrl, r.serviceUrl),
       conversationId := Or(c.conversationId, r.conversationId),
       tenantId := Or(c.tenantId, r.tenantId),
       teamId := Or(c.teamId, r.teamId),
       graphTeamId := Or(c.graphTeamId, r.graphTeamId),
       channelId := Or(c.channelId, r.channelId),
       conversationType := Or(c.conversationType, r.conversationType),
       isGroup := c.isGroup || r.scope == "chat",
       teamName := Or(c.teamName, r.teamName),
       channelName := Or(c.channelName, r.channelName),
       fromId := Or(c.fromId, r.userId),
       userName := Or(c.userName, r.userName),
       graphUserId := Or(c.graphUserId, r.graphUserId))
  }

  function GraphKind(c: Captured): string {
    if ScopeFor(c) == "chat" then "chat"
    else if c.channelId != "" then "channel"
    else if c.graphTeamId != "" then "team"
    else if c.graphUserId != "" || c.fromId != "" then "user"
    else ""
  }

  function GraphTargetId(c: Captured): string {
    var kind := GraphKind(c);
    if kind == "channel" then c.channelId
    else if kind == "team" then c.graphTeamId
    else if kind == "chat" then c.conversationId
    else if kind == "user" then Or(c.graphUserId, c.fromId)
    else ""
  }

  function TargetOf(c: Captured): Target {
    Target(c.serviceUrl, c.conversationId, GraphKind(c), GraphTargetId(c), c.graphTeamId,
           if GraphKind(c) == "channel" then c.channelId else "",
           Or(c.graphUserId, c.fromId))
  }

  /** `_register_route_from_command`. */
  function RegisterRoute(w: World, ctx: Context, name: string): World {
    if name == "" || |name| > MAX_NAME || !Usable(ctx.captured) || ctx.reference.None? then w
    else
      var target := TargetOf(Merged(ctx.captured, ctx.reference.value));
      var existing := BotRoutesNamed(w.routes, ctx.order, ctx.org, name);
      if existing != [] then
        var id := existing[0];
        RevealIfAllowed(w.(routes := w.routes[id := w.routes[id].(active := true, target := target)]), id, ctx)
      else if ctx.newRouteId in w.routes then w
      else
        var route := Route(ctx.org, name, BOT_FRAMEWORK, ctx.newToken, true, Access(PUBLIC, ""), target);
        RevealIfAllowed(w.(routes := w.routes[ctx.newRouteId := route]), ctx.newRouteId, ctx)
  }

  /** `_webhook_url_command`; the permission is required for the whole command. */
  function RevealRoute(w: World, ctx: Context, name: string): World {
    if name == "" || |name| > MAX_NAME then w
    else
      var named := NamedRoutes(w.routes, ctx.order, ctx.org, name);
      if named == [] then w else IssueReveal(w, named[0], ctx)
  }

  /** `_set_route_active_command`. */
  function SetActive(w: World, ctx: Context, name: string, active: bool): World {
    var id := ResolveLinked(w.routes, ctx, name);
    if |name| > MAX_NAME || id.None? || id.value !in w.routes then w
    else RevealIfAllowed(w.(routes := w.routes[id.value := w.routes[id.value].(active := active)]), id.value, ctx)
  }

  /** `_delete_linked_route_command`. */
  function DeleteLinked(w: World, ctx: Context, name: string): World {
    if name == "" || |name| > MAX_NAME then w
    else
      var id := ResolveLinked(w.routes, ctx, name);
      if id.None? then w else DropRoute(w, id.value)
  }

  /** `_info_command`: one linked route, or all of them when none is singled out. */
  function InfoRoutes(w: World, ctx: Context, name: string): World {
    var linked := LinkedRoutes(w.routes, ctx.order, ctx.org, ctx.captured);
    if |name| > MAX_NAME then w
    else if name != "" then
      var id := FirstNamed(w.routes, linked, name);
      if id.None? then w else RevealIfAllowed(w, id.value, ctx)
    else RevealEach(w, linked, ctx)
  }

  /** `_set_allowlist_command`. */
  function SetAccess(w: World, ctx: Context, name: string, mode: string, entries: string): World {
    var id := ResolveLinked(w.routes, ctx, name);
    if |name| > MAX_NAME || id.None? || id.value !in w.routes then w
    else
      match NewAccess(mode, entries)
      case Some(access) => w.(routes := w.routes[id.value := w.routes[id.value].(access := access)])
      case None => w
  }

  function NewAccess(mode: string, entries: string): Option<Access> {
    var normalized := ClientIpAllowlist.Normalize(entries);
    if normalized.Err? || (mode == RESTRICTED && normalized.value == "") then None
    else Some(Access(mode, if mode == RESTRICTED then normalized.value else ""))
  }

  function AllowlistCommand(w: World, ctx: Context, argument: string): World {
    match AllowlistActionOf(argument)
    case Show(_) => w
    case SetPublic(name) => SetAccess(w, ctx, name, PUBLIC, "")
    case SetRestricted(name, entries) => SetAccess(w, ctx, name, RESTRICTED, entries)
  }

  /** `_handle_command`. */
  function Handle(w: World, ctx: Context, p: Parsed): World {
    match p.command
    case Register => RegisterRoute(w, ctx, p.argument)
    case Webhook => RevealRoute(w, ctx, p.argument)
    case Disable => SetActive(w, ctx, p.argument, false)
    case Enable => SetActive(w, ctx, p.argument, true)
    case Delete => DeleteLinked(w, ctx, p.argument)
    case Info => InfoRoutes(w, ctx, p.argument)
    case Allowlist => AllowlistCommand(w, ctx, p.argument)
    case Help => w
  }

  // ----- what a command may do, seen from the tables alone -----

  function At(w: World, i: nat): Option<Route> {
    if i in w.routes then Some(w.routes[i]) else None
  }

  predicate Changed(w: World, w': World, i: nat) {
    At(w, i) != At(w', i)
  }

  function CreatePermission(c: Captured): Permission {
    if ScopeFor(c) in {"team", "channel"} then CreateChannelRoutes else CreatePrivateChatRoutes
  }

  /** The permission each kind of change needs. */
  predicate ChangeAllowed(before: Option<Route>, after: Option<Route>, permissions: set<Permission>,
      create: Permission)
  {
    if after.None? then before.Some? ==> DeleteRoutes in permissions
    else if before.None? then create in permissions
    else
      var b, a := before.value, after.value;
      && (a.active != b.active ==> ManageRouteStatus in permissions || (a.active && create in permissions))
      && (a.access != b.access ==> ManageAllowlist in permissions)
      && (a.target != b.target ==> create in permissions)
      && a.org == b.org && a.name == b.name && a.backend == b.backend && a.token == b.token
  }

  /** At most one route changes, only as far as the permissions go; only linked routes change
      unless the sender may create routes here; a new reveal token needs its permission and names
      an existing route; and deliveries stay, losing at most the reference to a deleted route. */
  ghost predicate Within(w: World, w': World, ctx: Context, permissions: set<Permission>) {
    var create := CreatePermission(ctx.captured);
    && (forall i, j :: Changed(w, w', i) && Changed(w, w', j) ==> i == j)
    && (forall i :: Changed(w, w', i) ==> ChangeAllowed(At(w, i), At(w', i), permissions, create))
    && (forall i :: Changed(w, w', i) ==>
          create in permissions || (i in w.routes && Linked(w.routes[i], ctx.org, ctx.captured)))
    && (forall t :: t in w'.tokens && t !in w.tokens ==> RevealWebhookUrls in permissions && t.routeId in w'.routes)
    && |w'.deliveries| == |w.deliveries|
    && (forall k :: 0 <= k < |w.deliveries| ==>
          w'.deliveries[k] == w.deliveries[k]
          || (w.deliveries[k].routeId.Some?
              && w.deliveries[k].routeId.value in w.routes && w.deliveries[k].routeId.value !in w'.routes
              && w'.deliveries[k] == w.deliveries[k].(routeId := None)))
  }

  /** No token and no delivery refers to a missing route. */
  predicate RefsOk(w: World) {
    && (forall t :: t in w.tokens ==> t.routeId in w.routes)
    && (forall k :: 0 <= k < |w.deliveries| ==> w.deliveries[k].routeId.Some? ==>
          w.deliveries[k].routeId.value in w.routes)
  }

  lemma LinkedRoutesAreLinked(routes: map<nat, Route>, order: seq<nat>, org: string, c: Captured)
    ensures forall i ::
      i in LinkedRoutes(routes, order, org, c) <==> i in order && i in routes && Linked(routes[i], org, c)
  {
  }

  lemma IssueWithin(w: World, id: nat, ctx: Context)
    requires RevealWebhookUrls in ctx.permissions
    ensures Within(w, IssueReveal(w, id, ctx), ctx, ctx.permissions)
    ensures RefsOk(w) ==> RefsOk(IssueReveal(w, id, ctx))
    ensures IssueReveal(w, id, ctx).routes == w.routes && IssueReveal(w, id, ctx).deliveries == w.deliveries
  {
  }

  lemma {:induction false} RevealEachWithin(w: World, ids: seq<nat>, ctx: Context)
    ensures Within(w, RevealEach(w, ids, ctx), ctx, ctx.permissions)
    ensures RefsOk(w) ==> RefsOk(RevealEach(w, ids, ctx))
    ensures RevealEach(w, ids, ctx).routes == w.routes && RevealEach(w, ids, ctx).deliveries == w.deliveries
  {
    if ids != [] {
      RevealEachWithin(w, ids[..|ids| - 1], ctx);
      if RevealWebhookUrls in ctx.permissions {
        IssueWithin(RevealEach(w, ids[..|ids| - 1], ctx), ids[|ids| - 1], ctx);
      }
    }
  }

  /** One route replaced or added, then possibly revealed. */
  lemma PutWithin(w: World, ctx: Context, id: nat, r: Route)
    requires ChangeAllowed(At(w, id), Some(r), ctx.permissions, CreatePermission(ctx.captured))
    requires CreatePermission(ctx.captured) in ctx.permissions
             || (id in w.routes && Linked(w.routes[id], ctx.org, ctx.captured))
    ensures Within(w, w.(routes := w.routes[id := r]), ctx, ctx.permissions)
    ensures Within(w, RevealIfAllowed(w.(routes := w.routes[id := r]), id, ctx), ctx, ctx.permissions)
    ensures RefsOk(w) ==> RefsOk(w.(routes := w.routes[id := r]))
    ensures RefsOk(w) ==> RefsOk(RevealIfAllowed(w.(routes := w.routes[id := r]), id, ctx))
  {
    var w' := w.(routes := w.routes[id := r]);
    forall i | Changed(w, w', i) ensures i == id { }
  }

  lemma DropWithin(w: World, ctx: Context, id: nat)
    requires DeleteRoutes in ctx.permissions && id in w.routes && Linked(w.routes[id], ctx.org, ctx.captured)
    ensures Within(w, DropRoute(w, id), ctx, ctx.permissions)
    ensures RefsOk(w) ==> RefsOk(DropRoute(w, id))
  {
    var w' := DropRoute(w, id);
    forall i | Changed(w, w', i) ensures i == id { }
  }

  lemma SetAccessWithin(w: World, ctx: Context, name: string, mode: string, entries: string)
    requires ManageAllowlist in ctx.permissions
    ensures Within(w, SetAccess(w, ctx, name, mode, entries), ctx, ctx.permissions)
    ensures RefsOk(w) ==> RefsOk(SetAccess(w, ctx, name, mode, entries))
  {
    var id := ResolveLinked(w.routes, ctx, name);
    var w' := SetAccess(w, ctx, name, mode, entries);
    LinkedRoutesAreLinked(w.routes, ctx.order, ctx.org, ctx.captured);
    if w' != w {
      PutWithin(w, ctx, id.value, w'.routes[id.value]);
    }
  }

  lemma RegisterWithin(w: World, ctx: Context, name: string)
    requires CreatePermission(ctx.captured) in ctx.permissions
    ensures Within(w, RegisterRoute(w, ctx, name), ctx, ctx.permissions)
    ensures RefsOk(w) ==> RefsOk(RegisterRoute(w, ctx, name))
  {
    var existing := BotRoutesNamed(w.routes, ctx.order, ctx.org, name);
    if existing != [] {
      assert existing[0] in existing;
    }
    if name != "" && |name| <= MAX_NAME && Usable(ctx.captured) && ctx.reference.Some? {
      var target := TargetOf(Merged(ctx.captured, ctx.reference.value));
      if existing != [] {
        PutWithin(w, ctx, existing[0], w.routes[existing[0]].(active := true, target := target));
      } else if ctx.newRouteId !in w.routes {
        PutWithin(w, ctx, ctx.newRouteId,
                  Route(ctx.org, name, BOT_FRAMEWORK, ctx.newToken, true, Access(PUBLIC, ""), target));
      }
    }
  }

  lemma SetActiveWithin(w: World, ctx: Context, name: string, active: bool)
    requires ManageRouteStatus in ctx.permissions
    ensures Within(w, SetActive(w, ctx, name, active), ctx, ctx.permissions)
    ensures RefsOk(w) ==> RefsOk(SetActive(w, ctx, name, active))
  {
    var id := ResolveLinked(w.routes, ctx, name);
    LinkedRoutesAreLinked(w.routes, ctx.order, ctx.org, ctx.captured);
    if |name| <= MAX_NAME && id.Some? {
      PutWithin(w, ctx, id.value, w.routes[id.value].(active := active));
    }
  }

  lemma WebhookWithin(w: World, ctx: Context, name: string)
    requires RevealWebhookUrls in ctx.permissions
    ensures Within(w, RevealRoute(w, ctx, name), ctx, ctx.permissions)
    ensures RefsOk(w) ==> RefsOk(RevealRoute(w, ctx, name))
  {
    var named := NamedRoutes(w.routes, ctx.order, ctx.org, name);
    if named != [] {
      IssueWithin(w, named[0], ctx);
    }
  }

  lemma DeleteWithin(w: World, ctx: Context, name: string)
    requires DeleteRoutes in ctx.permissions
    ensures Within(w, DeleteLinked(w, ctx, name), ctx, ctx.permissions)
    ensures RefsOk(w) ==> RefsOk(DeleteLinked(w, ctx, name))
  {
    var id := ResolveLinked(w.routes, ctx, name);
    LinkedRoutesAreLinked(w.routes, ctx.order, ctx.org, ctx.captured);
    if name != "" && id.Some? {
      DropWithin(w, ctx, id.value);
    }
  }

  lemma InfoWithin(w: World, ctx: Context, name: string)
    ensures Within(w, InfoRoutes(w, ctx, name), ctx, ctx.permissions)
    ensures RefsOk(w) ==> RefsOk(InfoRoutes(w, ctx, name))
  {
    var linked := LinkedRoutes(w.routes, ctx.order, ctx.org, ctx.captured);
    var id := FirstNamed(w.routes, linked, name);
    if id.Some? {
      RevealEachWithin(w, [id.value], ctx);
      RevealOne(w, id.value, ctx);
    }
    RevealEachWithin(w, linked, ctx);
  }

  lemma RevealOne(w: World, id: nat, ctx: Context)
    ensures RevealEach(w, [id], ctx) == RevealIfAllowed(w, id, ctx)
  {
    assert [id][..0] == [];
  }

  lemma AllowlistWithin(w: World, ctx: Context, argument: string)
    requires !AllowlistActionOf(argument).Show? ==> ManageAllowlist in ctx.permissions
    ensures Within(w, AllowlistCommand(w, ctx, argument), ctx, ctx.permissions)
    ensures RefsOk(w) ==> RefsOk(AllowlistCommand(w, ctx, argument))
  {
    match AllowlistActionOf(argument)
    case Show(_) =>
    case SetPublic(name) => SetAccessWithin(w, ctx, name, PUBLIC, "");
    case SetRestricted(name, entries) => SetAccessWithin(w, ctx, name, RESTRICTED, entries);
  }

  /** A command stays within the sender's permissions whenever they include the one it requires. */
  lemma HandleWithin(w: World, ctx: Context, p: Parsed)
    requires Required(p, ScopeFor(ctx.captured)).Some? ==> Required(p, ScopeFor(ctx.captured)).value in ctx.permissions
    ensures Within(w, Handle(w, ctx, p), ctx, ctx.permissions)
    ensures RefsOk(w) ==> RefsOk(Handle(w, ctx, p))
  {
    match p.command
    case Register => RegisterWithin(w, ctx, p.argument);
    case Webhook => WebhookWithin(w, ctx, p.argument);
    case Disable => SetActiveWithin(w, ctx, p.argument, false);
    case Enable => SetActiveWithin(w, ctx, p.argument, true);
    case Delete => DeleteWithin(w, ctx, p.argument);
    case Info => InfoWithin(w, ctx, p.argument);
    case Allowlist =>
      SetterIsWrite(p.argument);
      AllowlistWithin(w, ctx, p.argument);
    case Help =>
  }

  lemma WithinGrows(w: World, w': World, ctx: Context, some: set<Permission>, more: set<Permission>)
    requires Within(w, w', ctx, some) && some <= more
    ensures Within(w, w', ctx, more)
  {
  }

  // ----- linking -----

  lemma {:induction false} SelectDistinct(routes: map<nat, Route>, order: seq<nat>, p: Route -> bool)
    requires NoRepeats(order)
    ensures NoRepeats(Select(routes, order, p))
  {
    if order != [] {
      assert NoRepeats(order[1..]);
      SelectDistinct(routes, order[1..], p);
      assert order[0] !in order[1..];
    }
  }

  /** The routes a bot command considers linked, right after the conversation was captured, are a
      duplicate-free subset of those the administrator's inspector shows for the reference. */
  lemma BotLinksAreInspected(rows: seq<Reference>, c: Captured, id: nat, n: Names, routes: map<nat, Route>,
    order: seq<nat>, org: string)
    requires Usable(c) && NoRepeats(order)
    ensures var rows' := Upsert(rows, c, id, n);
      var reference := rows'[Find(rows, c.conversationId)];
      var linked := LinkedRoutes(routes, order, org, c);
      && reference.conversationId == c.conversationId
      && NoRepeats(linked)
      && forall i :: i in linked ==> i in InspectedRoutes(routes, order, org, reference)
  {
    var byConversation := (r: Route) => InConversation(r, org, c.conversationId);
    var byChannel := (r: Route) => InChannel(r, org, c.graphTeamId, c.channelId) && !InConversation(r, org,
        c.conversationId);
    SelectDistinct(routes, order, byConversation);
    SelectDistinct(routes, order, byChannel);
    var linked := LinkedRoutes(routes, order, org, c);
    assert linked == Select(routes, order, byConversation) + Select(routes, order, byChannel);
    Disjoint(Select(routes, order, byConversation), Select(routes, order, byChannel));
    LinkedRoutesAreLinked(routes, order, org, c);
    UpsertedReference(rows, c, id, n);
  }

  lemma UpsertedReference(rows: seq<Reference>, c: Captured, id: nat, n: Names)
    requires Usable(c)
    ensures var r := Upsert(rows, c, id, n)[Find(rows, c.conversationId)];
      && r.conversationId == c.conversationId && r.channelId == c.channelId
      && (c.graphTeamId != "" ==> r.graphTeamId == c.graphTeamId)
  {
    hide ScopeFor;
  }

  lemma Disjoint(a: seq<nat>, b: seq<nat>)
    requires NoRepeats(a) && NoRepeats(b) && forall i :: i in a ==> i !in b
    ensures NoRepeats(a + b)
  {
    var all := a + b;
    forall i, j | 0 <= i < j < |all| ensures all[i] != all[j] {
      if i < |a| <= j {
        assert a[i] in a && b[j - |a|] in b;
      }
    }
  }

  /** A registered route is linked to the conversation it was registered from. */
  lemma RegisteredIsLinked(w: World, ctx: Context, name: string)
    requires name != "" && |name| <= MAX_NAME && Usable(ctx.captured) && ctx.reference.Some?
    requires ctx.newRouteId !in w.routes
    ensures exists i :: i in RegisterRoute(w, ctx, name).routes
              && RegisterRoute(w, ctx, name).routes[i].name == name
              && RegisterRoute(w, ctx, name).routes[i].active
              && InConversation(RegisterRoute(w, ctx, name).routes[i], ctx.org, ctx.captured.conversationId)
  {
    var existing := BotRoutesNamed(w.routes, ctx.order, ctx.org, name);
    if existing != [] {
      assert existing[0] in existing;
    }
    var i := if existing != [] then existing[0] else ctx.newRouteId;
    assert i in RegisterRoute(w, ctx, name).routes;
  }

  // ----- the allowlist a command stores -----

  predicate AccessOk(a: Access) {
    a.mode == RESTRICTED ==>
        a.allowlist != "" && ClientIpAllowlist.Normalize(a.allowlist) == AddressLists.Ok(a.allowlist)
  }

  /** A restricted route always ends up with a non-empty canonical list, and the clients it admits
      are those the written entries admit. */
  lemma StoredAccess(w: World, ctx: Context, name: string, mode: string, entries: string, host: string)
    requires forall i :: i in w.routes ==> AccessOk(w.routes[i].access)
    ensures var w' := SetAccess(w, ctx, name, mode, entries);
      && (forall i :: i in w'.routes ==> AccessOk(w'.routes[i].access))
      && (forall i :: i in w'.routes && w'.routes[i].access.mode == RESTRICTED && Changed(w, w', i) ==>
            ClientIpAllowlist.Allowed(host, w'.routes[i].access.allowlist) == ClientIpAllowlist.Allowed(host, entries))
  {
    NewAccessMeaning(mode, entries, host);
  }

  lemma NewAccessMeaning(mode: string, entries: string, host: string)
    ensures NewAccess(mode, entries).Some? ==>
      && AccessOk(NewAccess(mode, entries).value)
      && (NewAccess(mode, entries).value.mode == RESTRICTED ==>
            ClientIpAllowlist.Allowed(host, NewAccess(mode, entries).value.allowlist)
            == ClientIpAllowlist.Allowed(host, entries))
  {
    hide ClientIpAllowlist.Allowed, ClientIpAllowlist.Normalize, Join;
    if ClientIpAllowlist.Normalize(entries).Ok? {
      ClientIpAllowlist.NormalizeIdempotent(entries);
      ClientIpAllowlist.NormalizationKeepsVerdicts(host, entries);
    }
  }

  // ----- deleting a reference with its linked routes -----

  function DropAll(w: World, ids: seq<nat>): World {
    if ids == [] then w else DropRoute(DropAll(w, ids[..|ids| - 1]), ids[|ids| - 1])
  }

  /** `delete_bot_conversation_reference`: refused while routes are linked unless confirmed. */
  function DeleteReference(w: World, rows: seq<Reference>, order: seq<nat>, org: string, index: nat, confirmed: bool)
    : Option<(World, seq<Reference>)>
    requires index < |rows|
  {
    var linked := InspectedRoutes(w.routes, order, org, rows[index]);
    if linked != [] && !confirmed then None else Some((DropAll(w, linked), RemoveAt(rows, index)))
  }

  lemma {:induction false} DropAllKeeps(w: World, ids: seq<nat>)
    ensures var w' := DropAll(w, ids);
      && (forall i :: i in w'.routes <==> i in w.routes && i !in ids)
      && (forall i :: i in w'.routes ==> w'.routes[i] == w.routes[i])
      && (forall t :: t in w'.tokens <==> t in w.tokens && t.routeId !in ids)
      && |w'.deliveries| == |w.deliveries|
      && (forall k :: 0 <= k < |w.deliveries| ==>
            w'.deliveries[k] == if w.deliveries[k].routeId.Some? && w.deliveries[k].routeId.value in ids
                                then w.deliveries[k].(routeId := None) else w.deliveries[k])
  {
    if ids != [] {
      var init, last := ids[..|ids| - 1], ids[|ids| - 1];
      DropAllKeeps(w, init);
      assert ids == init + [last];
    }
  }

  predicate Lists(order: seq<nat>, routes: map<nat, Route>) {
    forall i :: i in routes ==> i in order
  }

  /** A confirmed deletion leaves no matching route, no reveal token and no delivery that points
      at a deleted route, every other route and token as it was, and the same deliveries. */
  lemma DeletionIsClean(w: World, rows: seq<Reference>, order: seq<nat>, org: string, index: nat)
    requires index < |rows| && Lists(order, w.routes)
    ensures DeleteReference(w, rows, order, org, index, true).Some?
    ensures var w' := DeleteReference(w, rows, order, org, index, true).value.0;
      && (forall i :: i in w'.routes <==> i in w.routes && !Inspected(w.routes[i], org, rows[index]))
      && (forall i :: i in w'.routes ==> w'.routes[i] == w.routes[i])
      && (forall i :: i in w.routes && w.routes[i].org != org ==> i in w'.routes)
      && (forall t :: t in w'.tokens ==> t in w.tokens)
      && (forall t :: t in w.tokens && t.routeId in w'.routes ==> t in w'.tokens)
      && (RefsOk(w) ==> RefsOk(w'))
      && |w'.deliveries| == |w.deliveries|
      && (forall k :: 0 <= k < |w.deliveries| ==> w'.deliveries[k].id == w.deliveries[k].id)
  {
    DropAllKeeps(w, InspectedRoutes(w.routes, order, org, rows[index]));
  }
}
