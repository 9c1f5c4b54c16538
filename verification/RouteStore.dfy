/** The route handlers as they work on the tables, each proved against its specification in
    BotRoutes. */
module RouteStore {
  import opened Text
  import opened References
  import opened BotAccess
  import opened BotCommands
  import opened BotRoutes
  import opened AddressLists
  import ClientIpAllowlist

  lemma RevealStep(w: World, linked: seq<nat>, k: nat, ctx: Context)
    requires k < |linked|
    ensures RevealEach(w, linked[..k + 1], ctx) == RevealIfAllowed(RevealEach(w, linked[..k], ctx), linked[k], ctx)
  {
    assert linked[..k + 1][..k] == linked[..k];
  }

  class RouteTables {
    var routes: map<nat, Route>
    var tokens: seq<RevealToken>
    var deliveries: seq<Delivery>

    constructor ()
      ensures Rows() == World(map[], [], [])
    {
      routes, tokens, deliveries := map[], [], [];
    }

    function Rows(): World
      reads this
    {
      World(routes, tokens, deliveries)
    }

    method IssueWebhookRevealUrl(id: nat, ctx: Context)
      requires id in routes
      modifies this`tokens
      ensures Rows() == IssueReveal(old(Rows()), id, ctx)
    {
      if routes[id].token != "" {
        tokens := Unexpired(tokens, ctx.now);
        tokens := tokens + [RevealToken(id, ctx.now + ctx.revealSeconds)];
      }
    }

    method RegisterRouteFromCommand(ctx: Context, name: string) returns (handled: bool)
      modifies this
      ensures Rows() == RegisterRoute(old(Rows()), ctx, name)
      ensures handled <==> name != "" && |name| <= MAX_NAME && Usable(ctx.captured) && ctx.reference.Some?
                           && (ctx.newRouteId !in old(routes)
                               || BotRoutesNamed(old(routes), ctx.order, ctx.org, name) != [])
    {
      if name == "" || |name| > MAX_NAME || !Usable(ctx.captured) || ctx.reference.None? {
        return false;
      }
      var target := TargetOf(Merged(ctx.captured, ctx.reference.value));
      var existing := BotRoutesNamed(routes, ctx.order, ctx.org, name);
      if existing == [] && ctx.newRouteId in routes {
        return false;
      }
      var id := ctx.newRouteId;
      var route := Route(ctx.org, name, BOT_FRAMEWORK, ctx.newToken, false, Access(PUBLIC, ""), target);
      if existing != [] {
        id := existing[0];
        assert id in existing;
        route := routes[id];
      }
      route := route.(active := true);
      route := route.(target := target);
      PutRoute(id, route, ctx);
      handled := true;
    }

    method PutRoute(id: nat, route: Route, ctx: Context)
      modifies this
      ensures Rows() == RevealIfAllowed(old(Rows()).(routes := old(routes)[id := route]), id, ctx)
    {
      routes := routes[id := route];
      if RevealWebhookUrls in ctx.permissions {
        IssueWebhookRevealUrl(id, ctx);
      }
    }

    method SetRouteActive(ctx: Context, name: string, active: bool) returns (handled: bool)
      modifies this
      ensures Rows() == SetActive(old(Rows()), ctx, name, active)
      ensures handled <==> |name| <= MAX_NAME && ResolveLinked(old(routes), ctx, name).Some?
    {
      if |name| > MAX_NAME {
        return false;
      }
      LinkedRoutesAreLinked(routes, ctx.order, ctx.org, ctx.captured);
      var id := ResolveLinked(routes, ctx, name);
      if id.None? {
        return false;
      }
      PutRoute(id.value, routes[id.value].(active := active), ctx);
      handled := true;
    }

    method DropRouteRows(id: nat)
      modifies this
      ensures Rows() == DropRoute(old(Rows()), id)
    {
      deliveries := Detached(deliveries, id);
      tokens := WithoutRoute(tokens, id);
      routes := routes - {id};
    }

    method DeleteLinkedRoute(ctx: Context, name: string) returns (handled: bool)
      modifies this
      ensures Rows() == DeleteLinked(old(Rows()), ctx, name)
      ensures handled <==> name != "" && |name| <= MAX_NAME && ResolveLinked(old(routes), ctx, name).Some?
    {
      if name == "" || |name| > MAX_NAME {
        return false;
      }
      var id := ResolveLinked(routes, ctx, name);
      if id.None? {
        return false;
      }
      DropRouteRows(id.value);
      handled := true;
    }

    method SetAllowlist(ctx: Context, name: string, mode: string, entries: string) returns (handled: bool)
      modifies this`routes
      ensures Rows() == SetAccess(old(Rows()), ctx, name, mode, entries)
      ensures handled
         <==> |name| <= MAX_NAME && ResolveLinked(old(routes), ctx, name).Some? && NewAccess(mode, entries).Some?
    {
      if |name| > MAX_NAME {
        return false;
      }
      LinkedRoutesAreLinked(routes, ctx.order, ctx.org, ctx.captured);
      var id := ResolveLinked(routes, ctx, name);
      if id.None? {
        return false;
      }
      var access := CheckedAccess(mode, entries);
      if access.None? {
        return false;
      }
      routes := routes[id.value := routes[id.value].(access := access.value)];
      handled := true;
    }

    method CheckedAccess(mode: string, entries: string) returns (access: Option<Access>)
      ensures access == NewAccess(mode, entries)
    {
      var normalized := ClientIpAllowlist.NormalizeClientIpAllowlist(entries);
      if normalized.Err? || (mode == RESTRICTED && normalized.value == "") {
        return None;
      }
      access := Some(Access(mode, if mode == RESTRICTED then normalized.value else ""));
    }

    /** The info command reveals every linked route, one after the other. */
    method RevealLinked(ctx: Context)
      modifies this`tokens
      ensures Rows() == InfoRoutes(old(Rows()), ctx, "")
    {
      var linked := LinkedRoutes(routes, ctx.order, ctx.org, ctx.captured);
      LinkedRoutesAreLinked(routes, ctx.order, ctx.org, ctx.captured);
      for k := 0 to |linked|
        invariant Rows() == RevealEach(old(Rows()), linked[..k], ctx)
        invariant routes == old(routes)
      {
        RevealStep(old(Rows()), linked, k, ctx);
        assert linked[k] in linked;
        if RevealWebhookUrls in ctx.permissions {
          IssueWebhookRevealUrl(linked[k], ctx);
        }
      }
      assert linked[..|linked|] == linked;
    }

    /** `delete_bot_conversation_reference`, with the routes the inspector shows. */
    method DeleteReferenceRoutes(order: seq<nat>, org: string, reference: Reference, confirmed: bool) returns (ok: bool)
      modifies this
      ensures ok <==> InspectedRoutes(old(routes), order, org, reference) == [] || confirmed
      ensures Rows()
         == if ok then DropAll(old(Rows()), InspectedRoutes(old(routes), order, org, reference)) else old(Rows())
    {
      var linked := InspectedRoutes(routes, order, org, reference);
      if linked != [] && !confirmed {
        return false;
      }
      for k := 0 to |linked|
        invariant Rows() == DropAll(old(Rows()), linked[..k])
      {
        assert linked[..k + 1][..k] == linked[..k];
        DropRouteRows(linked[k]);
      }
      assert linked[..|linked|] == linked;
      ok := true;
    }
  }
}
