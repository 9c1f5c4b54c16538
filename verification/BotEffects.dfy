/** What the route commands achieve, beyond staying within their bounds: each does what it was asked
    on exactly the route it names, and the pairs that undo each other do. */
module BotEffects {
  import opened Text
  import opened Activities
  import opened References
  import opened BotAccess
  import opened BotCommands
  import opened BotRoutes
  import ClientIpAllowlist

  // ----- which route a name means -----

  /** `i` is a listed route linked to the conversation and, where a name is given, has it. */
  predicate IsMeant(w: World, ctx: Context, name: string, i: nat) {
    && i in ctx.order && i in w.routes && Linked(w.routes[i], ctx.org, ctx.captured)
    && (name != "" ==> w.routes[i].name == name)
  }

  /** With a name, some linked route of that name is found whenever there is one; without, a route
      is found exactly when a single one is linked. */
  lemma ResolvesIff(w: World, ctx: Context, name: string)
    requires NoRepeats(ctx.order)
    ensures var id := ResolveLinked(w.routes, ctx, name);
      && (id.Some? ==> IsMeant(w, ctx, name, id.value))
      && (name != "" ==> (id.Some? <==> exists i :: IsMeant(w, ctx, name, i)))
      && (name == "" ==>
            (id.Some? <==> (exists i :: IsMeant(w, ctx, name, i))
                           && (forall i, j :: IsMeant(w, ctx, name, i) && IsMeant(w, ctx, name, j) ==> i == j)))
  {
    var linked := LinkedRoutes(w.routes, ctx.order, ctx.org, ctx.captured);
    LinkedRoutesAreLinked(w.routes, ctx.order, ctx.org, ctx.captured);
    LinkedDistinct(w.routes, ctx);
    assert forall i :: IsMeant(w, ctx, "", i) <==> i in linked;
    if name == "" {
      SingleIff(linked);
    } else {
      var id := ResolveLinked(w.routes, ctx, name);
      if i :| IsMeant(w, ctx, name, i) {
        assert i in linked && w.routes[i].name == name;
        assert id.Some?;
      }
      if id.Some? {
        assert id.value in linked;
        assert IsMeant(w, ctx, name, id.value);
      }
    }
  }

  lemma LinkedDistinct(routes: map<nat, Route>, ctx: Context)
    requires NoRepeats(ctx.order)
    ensures NoRepeats(LinkedRoutes(routes, ctx.order, ctx.org, ctx.captured))
  {
    var c, org := ctx.captured, ctx.org;
    var byConversation := (r: Route) => InConversation(r, org, c.conversationId);
    var byChannel := (r: Route) => InChannel(r, org, c.graphTeamId, c.channelId) && !InConversation(r, org,
        c.conversationId);
    SelectDistinct(routes, ctx.order, byConversation);
    SelectDistinct(routes, ctx.order, byChannel);
    Disjoint(Select(routes, ctx.order, byConversation), Select(routes, ctx.order, byChannel));
    assert LinkedRoutes(routes, ctx.order, org, c)
        == Select(routes, ctx.order, byConversation) + Select(routes, ctx.order, byChannel);
  }

  lemma SingleIff(ids: seq<nat>)
    requires NoRepeats(ids)
    ensures |ids| == 1 <==> (exists i :: i in ids) && (forall i, j :: i in ids && j in ids ==> i == j)
  {
    if |ids| > 1 {
      assert ids[0] in ids && ids[1] in ids;
    }
    if ids != [] {
      assert ids[0] in ids;
    }
  }

  // ----- enable and disable -----

  /** Links and names do not depend on the fields a command changes. */
  predicate SameIdentity(a: map<nat, Route>, b: map<nat, Route>) {
    && a.Keys == b.Keys
    && (forall i :: i in a && i in b ==> a[i].org == b[i].org && a[i].name == b[i].name && a[i].target == b[i].target)
  }

  lemma {:induction false} SelectSame(a: map<nat, Route>, b: map<nat, Route>, order: seq<nat>, p: Route -> bool)
    requires a.Keys == b.Keys && forall i :: i in a && i in b ==> p(a[i]) == p(b[i])
    ensures Select(a, order, p) == Select(b, order, p)
  {
    if order != [] {
      SelectSame(a, b, order[1..], p);
    }
  }

  lemma {:induction false} FirstNamedSame(a: map<nat, Route>, b: map<nat, Route>, ids: seq<nat>, name: string)
    requires a.Keys == b.Keys && forall i :: i in a && i in b ==> a[i].name == b[i].name
    ensures FirstNamed(a, ids, name) == FirstNamed(b, ids, name)
  {
    if ids != [] {
      FirstNamedSame(a, b, ids[1..], name);
    }
  }

  lemma ResolveSame(a: map<nat, Route>, b: map<nat, Route>, ctx: Context, name: string)
    requires SameIdentity(a, b)
    ensures ResolveLinked(a, ctx, name) == ResolveLinked(b, ctx, name)
  {
    var c, org := ctx.captured, ctx.org;
    SelectSame(a, b, ctx.order, r => InConversation(r, org, c.conversationId));
    SelectSame(a, b, ctx.order,
               r => InChannel(r, org, c.graphTeamId, c.channelId) && !InConversation(r, org, c.conversationId));
    var linked := LinkedRoutes(a, ctx.order, org, c);
    assert linked == LinkedRoutes(b, ctx.order, org, c);
    FirstNamedSame(a, b, linked, name);
  }

  /** Enabling or disabling sets exactly the flag of exactly the route that is meant, and changes
      nothing when no route is. */
  lemma StatusEffect(w: World, ctx: Context, name: string, active: bool)
    ensures var w' := SetActive(w, ctx, name, active);
      var id := ResolveLinked(w.routes, ctx, name);
      && w'.routes.Keys == w.routes.Keys && w'.deliveries == w.deliveries
      && (|name| <= MAX_NAME && id.Some? && id.value in w.routes ==>
            && w'.routes[id.value].active == active
            && w'.routes[id.value].(active := w.routes[id.value].active) == w.routes[id.value])
      && (forall i :: i in w.routes && (|name| > MAX_NAME || Some(i) != id) ==> w'.routes[i] == w.routes[i])
  {
  }

  lemma StatusKeepsIdentity(w: World, ctx: Context, name: string, active: bool)
    ensures SameIdentity(w.routes, SetActive(w, ctx, name, active).routes)
  {
    StatusEffect(w, ctx, name, active);
  }

  /** Enabling after disabling, in the same conversation, gives back every route that was enabled. */
  lemma EnableUndoesDisable(w: World, ctx: Context, name: string)
    ensures var back := SetActive(SetActive(w, ctx, name, false), ctx, name, true);
      var id := ResolveLinked(w.routes, ctx, name);
      && back.routes.Keys == w.routes.Keys
      && (forall i :: i in w.routes && Some(i) != id ==> back.routes[i] == w.routes[i])
      && (id.Some? && id.value in w.routes && w.routes[id.value].active ==> back.routes == w.routes)
  {
    var off := SetActive(w, ctx, name, false);
    StatusEffect(w, ctx, name, false);
    StatusKeepsIdentity(w, ctx, name, false);
    ResolveSame(w.routes, off.routes, ctx, name);
    StatusEffect(off, ctx, name, true);
    var back := SetActive(off, ctx, name, true);
    var id := ResolveLinked(w.routes, ctx, name);
    if id.Some? && id.value in w.routes && w.routes[id.value].active {
      assert forall i :: i in w.routes ==> back.routes[i] == w.routes[i];
    }
  }

  // ----- registering and deleting -----

  predicate SameName(r: Route, s: Route) {
    r.org == s.org && r.backend == s.backend && r.name == s.name
  }

  /** The database admits one route per organization, backend and name. */
  predicate NamesUnique(routes: map<nat, Route>) {
    forall i, j :: i in routes && j in routes && SameName(routes[i], routes[j]) ==> i == j
  }

  /** A registration goes through. */
  predicate CanRegister(w: World, ctx: Context, name: string) {
    && name != "" && |name| <= MAX_NAME && Usable(ctx.captured) && ctx.reference.Some?
    && ctx.newRouteId !in w.routes && Lists(ctx.order, w.routes)
  }

  function RegisteredTarget(ctx: Context): Target
    requires ctx.reference.Some?
  {
    TargetOf(Merged(ctx.captured, ctx.reference.value))
  }

  predicate IsNamed(r: Route, ctx: Context, name: string) {
    r.org == ctx.org && r.name == name && r.backend == BOT_FRAMEWORK
  }

  /** After registering there is exactly one bot route of that name, active and aimed at this
      conversation; no other route changed, and at most one was added. */
  lemma RegisterEffect(w: World, ctx: Context, name: string)
    requires CanRegister(w, ctx, name) && NamesUnique(w.routes)
    ensures var w' := RegisterRoute(w, ctx, name);
      && NamesUnique(w'.routes)
      && (exists i :: i in w'.routes && IsNamed(w'.routes[i], ctx, name))
      && (forall i :: i in w'.routes && IsNamed(w'.routes[i], ctx, name) ==>
            w'.routes[i].active && w'.routes[i].target == RegisteredTarget(ctx))
      && (forall i :: i in w.routes && !IsNamed(w.routes[i], ctx, name) ==>
            i in w'.routes && w'.routes[i] == w.routes[i])
      && (forall i :: i in w.routes && IsNamed(w.routes[i], ctx, name) ==>
            i in w'.routes && w'.routes[i] == w.routes[i].(active := true, target := RegisteredTarget(ctx)))
      && w'.routes.Keys <= w.routes.Keys + {ctx.newRouteId}
      && w'.deliveries == w.deliveries
  {
    hide RegisterRoute, TargetOf, Merged;
    var existing := BotRoutesNamed(w.routes, ctx.order, ctx.org, name);
    if existing != [] {
      assert existing[0] in existing;
      RegisterAgainEffect(w, ctx, name, existing[0]);
      assert IsNamed(RegisterRoute(w, ctx, name).routes[existing[0]], ctx, name);
    } else {
      RegisterNewEffect(w, ctx, name);
      assert IsNamed(RegisterRoute(w, ctx, name).routes[ctx.newRouteId], ctx, name);
    }
  }

  lemma RegisterAgainEffect(w: World, ctx: Context, name: string, id: nat)
    requires CanRegister(w, ctx, name) && NamesUnique(w.routes)
    requires id in w.routes && IsNamed(w.routes[id], ctx, name)
    ensures RegisterRoute(w, ctx, name).routes
         == w.routes[id := w.routes[id].(active := true, target := RegisteredTarget(ctx))]
    ensures RegisterRoute(w, ctx, name).deliveries == w.deliveries
  {
    var existing := BotRoutesNamed(w.routes, ctx.order, ctx.org, name);
    assert id in existing;
    assert existing[0] in existing;
  }

  lemma RegisterNewEffect(w: World, ctx: Context, name: string)
    requires CanRegister(w, ctx, name)
    requires forall i :: i in w.routes ==> !IsNamed(w.routes[i], ctx, name)
    ensures var target := RegisteredTarget(ctx);
      var route := Route(ctx.org, name, BOT_FRAMEWORK, ctx.newToken, true, Access(PUBLIC, ""), target);
      RegisterRoute(w, ctx, name).routes == w.routes[ctx.newRouteId := route]
    ensures RegisterRoute(w, ctx, name).deliveries == w.deliveries
  {
    var existing := BotRoutesNamed(w.routes, ctx.order, ctx.org, name);
    if existing != [] {
      assert existing[0] in existing;
    }
  }

  /** Registering the same name again from the same conversation changes no route. */
  lemma RegisterTwice(w: World, ctx: Context, again: Context, name: string)
    requires CanRegister(w, ctx, name) && NamesUnique(w.routes)
    requires CanRegister(RegisterRoute(w, ctx, name), again, name)
    requires again.org == ctx.org && RegisteredTarget(again) == RegisteredTarget(ctx)
    ensures RegisterRoute(RegisterRoute(w, ctx, name), again, name).routes == RegisterRoute(w, ctx, name).routes
  {
    hide RegisterRoute, BotRoutesNamed, Merged, TargetOf;
    var once := RegisterRoute(w, ctx, name);
    RegisterEffect(w, ctx, name);
    var id :| id in once.routes && IsNamed(once.routes[id], ctx, name);
    RegisterAgainEffect(once, again, name, id);
  }

  /** Deleting removes exactly the route that is meant, its reveal tokens, and the references of its
      deliveries; without one nothing changes. */
  lemma DeleteEffect(w: World, ctx: Context, name: string)
    requires name != "" && |name| <= MAX_NAME
    ensures var w' := DeleteLinked(w, ctx, name);
      var id := ResolveLinked(w.routes, ctx, name);
      && (id.None? ==> w' == w)
      && (id.Some? ==>
            && w'.routes == w.routes - {id.value}
            && (forall t :: t in w'.tokens <==> t in w.tokens && t.routeId != id.value)
            && (forall k :: 0 <= k < |w'.deliveries| ==> w'.deliveries[k].routeId != Some(id.value)))
      && |w'.deliveries| == |w.deliveries|
  {
  }

  /** Deleting a newly registered route by its name brings the routes back, unless the conversation
      has a route of that name on another backend. */
  lemma DeleteUndoesRegister(w: World, ctx: Context, after: Context, name: string)
    requires CanRegister(w, ctx, name)
    requires forall i :: i in w.routes ==> !(w.routes[i].org == ctx.org && w.routes[i].name == name)
    requires after.org == ctx.org && after.captured == ctx.captured
    requires Lists(after.order, RegisterRoute(w, ctx, name).routes) && NoRepeats(after.order)
    ensures DeleteLinked(RegisterRoute(w, ctx, name), after, name).routes == w.routes
  {
    hide RegisterRoute, DeleteLinked, ResolveLinked, LinkedRoutes;
    var once := RegisterRoute(w, ctx, name);
    var id := ctx.newRouteId;
    RegisterNewEffect(w, ctx, name);
    assert Linked(once.routes[id], ctx.org, ctx.captured);
    assert IsMeant(once, after, name, id);
    ResolvesIff(once, after, name);
    assert ResolveLinked(once.routes, after, name) == Some(id);
    DeleteEffect(once, after, name);
    assert once.routes - {id} == w.routes;
  }

  // ----- the allowlist -----

  /** An allowlist command takes place exactly when the name is not too long, a route is meant, and a
      restricted list is well formed and not empty. Then that route has the asked mode and, when
      restricted, the written list in canonical form; nothing else of any route changes. */
  lemma AccessEffect(w: World, ctx: Context, name: string, mode: string, entries: string)
    ensures var w' := SetAccess(w, ctx, name, mode, entries);
      var id := ResolveLinked(w.routes, ctx, name);
      var list := ClientIpAllowlist.Normalize(entries);
      var accepted := |name| <= MAX_NAME && id.Some? && list.Ok? && (mode == RESTRICTED ==> list.value != "");
      && w'.routes.Keys == w.routes.Keys && w'.tokens == w.tokens && w'.deliveries == w.deliveries
      && (forall i :: i in w.routes && (!accepted || Some(i) != id) ==> w'.routes[i] == w.routes[i])
      && (accepted ==>
            && id.value in w.routes
            && w'.routes[id.value].access.mode == mode
            && w'.routes[id.value].access.allowlist == (if mode == RESTRICTED then list.value else "")
            && w'.routes[id.value].(access := w.routes[id.value].access) == w.routes[id.value])
  {
    hide LinkedRoutes, FirstNamed, ClientIpAllowlist.Normalize;
    LinkedRoutesAreLinked(w.routes, ctx.order, ctx.org, ctx.captured);
  }

  lemma AccessKeepsIdentity(w: World, ctx: Context, name: string, mode: string, entries: string)
    ensures SameIdentity(w.routes, SetAccess(w, ctx, name, mode, entries).routes)
  {
    AccessEffect(w, ctx, name, mode, entries);
  }

  lemma NewAccessIff(mode: string, entries: string)
    ensures NewAccess(mode, entries).Some? <==>
      && ClientIpAllowlist.Normalize(entries).Ok?
      && (mode == RESTRICTED ==> ClientIpAllowlist.Normalize(entries).value != "")
  {
  }

  /** Restricting a route twice leaves what the second command asks, whatever came between: opening it
      to everyone and restricting it again with the same acceptable list brings the routes back. */
  lemma OpenThenRestrict(w: World, ctx: Context, name: string, entries: string)
    requires NewAccess(RESTRICTED, entries).Some?
    ensures var restricted := SetAccess(w, ctx, name, RESTRICTED, entries);
      var open := SetAccess(restricted, ctx, name, PUBLIC, "");
      SetAccess(open, ctx, name, RESTRICTED, entries).routes == restricted.routes
  {
    NewAccessIff(RESTRICTED, entries);
    NewAccessIff(PUBLIC, "");
    hide *;
    var restricted := SetAccess(w, ctx, name, RESTRICTED, entries);
    var open := SetAccess(restricted, ctx, name, PUBLIC, "");
    var again := SetAccess(open, ctx, name, RESTRICTED, entries);
    AccessKeepsIdentity(w, ctx, name, RESTRICTED, entries);
    AccessKeepsIdentity(restricted, ctx, name, PUBLIC, "");
    ResolveSame(w.routes, restricted.routes, ctx, name);
    ResolveSame(restricted.routes, open.routes, ctx, name);
    AccessEffect(w, ctx, name, RESTRICTED, entries);
    AccessEffect(restricted, ctx, name, PUBLIC, "");
    AccessEffect(open, ctx, name, RESTRICTED, entries);
    assert forall i :: i in restricted.routes ==> again.routes[i] == restricted.routes[i];
  }
}
