/** One incoming activity end to end: capture, parse, authorize, dispatch. */
module BotPipeline {
  import opened Text
  import opened Activities
  import opened References
  import opened BotAccess
  import opened BotAuthorization
  import opened BotCommands
  import opened BotRoutes
  import opened CommandOutcomes
  import opened CommandTexts

  datatype System = System(world: World, references: seq<Reference>, access: BotAccess.State, cache: Cache)

  /** An activity with what its surroundings contribute: the clock, the directory's answer, the
      database's listing order, and values for new rows. */
  datatype Message = Message(
    activity: Json,
    now: int,
    lookup: Lookup,
    order: seq<nat>,
    newRouteId: nat,
    newToken: string,
    newReferenceId: nat,
    names: Names,
    revealSeconds: nat)

  function ReadSubmit(value: Json): Submit {
    Submit(Read(Get(value, "command")), Read(Get(value, "route_name")), Read(Get(value, "routeName")),
           Read(Get(value, "route")), Read(Get(value, "argument")))
  }

  function ParsedCommand(unmark: string -> string, activity: Json): Option<Parsed> {
    if Read(Get(activity, "type")) != "message" then None
    else ParseActivity(unmark, ReadSubmit(Get(activity, "value")), Read(Get(activity, "text")))
  }

  lemma ReadTrimmed(j: Json)
    ensures Trim(Read(j)) == Read(j)
  {
    if j.Str? {
      TrimTwice(j.chars);
    }
  }

  lemma TrimTwice(s: string)
    ensures Trim(Trim(s)) == Trim(s)
  {
    TrimFixes(s);
    TrimFixes(Trim(s));
  }

  /** A message is the command its text writes, unless a submitted card names one; nothing else is a
      command. */
  lemma TextIsCommand(unmark: string -> string, a: Json)
    requires Under2(a, "value", "command") == ""
    ensures ParsedCommand(unmark, a)
         == if Under(a, "type") == "message" then ParseCleaned(unmark(Under(a, "text"))) else None
  {
    hide ParseCleaned, Trim, Get;
    ReadTrimmed(Get(a, "text"));
    ReadTrimmed(Get(Get(a, "value"), "command"));
  }

  /** A submitted card with the word of a command that may be submitted is that command; the route is the
      first named of its four fields. */
  lemma CardIsCommand(unmark: string -> string, a: Json, c: BotCommands.Command)
    requires Under(a, "type") == "message" && c in {Webhook, Disable, Enable, Info, Help}
    requires var word := Under2(a, "value", "command"); unmark(word) == word && Lower(word) == WordOf(c)
    ensures var v := Get(a, "value");
      ParsedCommand(unmark, a)
      == Some(Parsed(c, Squash(Or(Under(v, "route_name"),
                                  Or(Under(v, "routeName"), Or(Under(v, "route"), Under(v, "argument")))))))
  {
    hide Squash, Trim, Get, Read, Lower, ParseSubmit, WordOf;
    var v := Get(a, "value");
    ReadTrimmed(Get(v, "command"));
    ReadTrimmed(Get(v, "route_name"));
    ReadTrimmed(Get(v, "routeName"));
    ReadTrimmed(Get(v, "route"));
    ReadTrimmed(Get(v, "argument"));
    SubmitGives(unmark, ReadSubmit(v), Under(v, "command"), c);
  }

  function ReferenceFor(rows: seq<Reference>, c: Captured): Option<Reference> {
    if Usable(c) && Find(rows, c.conversationId) < |rows| then Some(rows[Find(rows, c.conversationId)]) else None
  }

  function ContextFor(rows: seq<Reference>, org: string, c: Captured, m: Message,
      permissions: set<Permission>): Context
  {
    Context(org, c, ReferenceFor(rows, c), permissions, m.now, m.revealSeconds, m.order, m.newRouteId, m.newToken)
  }

  /** `receive_bot_activity`, without events, audit entries and replies. */
  function Receive(s: System, org: string, unmark: string -> string, m: Message): System {
    var c := Extract(m.activity);
    var rows := Upsert(s.references, c, m.newReferenceId, m.names);
    match ParsedCommand(unmark, m.activity)
    case None => s.(references := rows)
    case Some(parsed) =>
      var required := Required(parsed, ScopeFor(c));
      var authorization := Authorize(s.access, s.cache, org, c.graphUserId, m.now, m.lookup, required);
      var world :=
        if authorization.verdict.Allowed?
        then Handle(s.world, ContextFor(rows, org, c, m, authorization.verdict.permissions), parsed)
        else s.world;
      System(world, rows, s.access, authorization.cache)
  }

  /** The union of the sender's effective permissions: everything some active grant confers, given
      directly or to a group the sender is in according to the directory or the cache. */
  ghost predicate SenderHas(s: System, org: string, m: Message, p: Permission) {
    var aad := NormalizeId(Extract(m.activity).graphUserId);
    var ids := NormalizeIds(GroupIdsForSender(s.access, s.cache, org, aad, m.now, m.lookup).groupIds);
    aad != "" && exists i :: GrantedBy(s.access, i, org, aad, ids, p)
  }

  ghost function SenderPermissions(s: System, org: string, m: Message): set<Permission> {
    set p: Permission | SenderHas(s, org, m, p)
  }

  /** Some active grant covers the sender. */
  ghost predicate IsKnown(s: System, org: string, m: Message) {
    var aad := NormalizeId(Extract(m.activity).graphUserId);
    var ids := NormalizeIds(GroupIdsForSender(s.access, s.cache, org, aad, m.now, m.lookup).groupIds);
    aad != "" && HasGrant(s.access, org, aad, ids)
  }

  /** The permission each command needs, here. */
  predicate MayRun(permissions: set<Permission>, c: Captured, p: Parsed) {
    match p.command
    case Help => true
    case Info => ViewRoutes in permissions
    case Webhook => RevealWebhookUrls in permissions
    case Enable => ManageRouteStatus in permissions
    case Disable => ManageRouteStatus in permissions
    case Delete => DeleteRoutes in permissions
    case Register =>
      if c.conversationType != "personal" && c.teamId != "" then CreateChannelRoutes in permissions
      else CreatePrivateChatRoutes in permissions
    case Allowlist =>
      if AllowlistActionOf(p.argument).Show? then ViewRoutes in permissions else ManageAllowlist in permissions
  }

  lemma MayRunIff(permissions: set<Permission>, c: Captured, p: Parsed)
    requires Trimmed(p.argument)
    ensures MayRun(permissions, c, p)
       <==> (Required(p, ScopeFor(c)).Some? ==> Required(p, ScopeFor(c)).value in permissions)
  {
    hide Trimmed, AllowlistActionOf, IsWrite;
    if p.command.Allowlist? {
      WriteIffSetter(p.argument);
    }
  }

  lemma CaptureShows(r: Reference, c: Captured, n: Names)
    requires r.conversationId == c.conversationId
    ensures Shows(Resolve(WithCapture(r, c), n), c)
    ensures Resolve(WithCapture(r, c), n).conversationId == c.conversationId
  {
    hide ScopeFor;
  }

  lemma UpsertShows(rows: seq<Reference>, c: Captured, id: nat, n: Names)
    ensures var r := ReferenceFor(Upsert(rows, c, id, n), c);
      r.Some? ==> Shows(r.value, c)
  {
    hide ScopeFor, Usable, WithCapture, Resolve, Shows;
    if Usable(c) {
      var rows' := Upsert(rows, c, id, n);
      var i := Find(rows, c.conversationId);
      CaptureShows(if i < |rows| then rows[i] else BlankReference(id, c.conversationId), c, n);
      FindHit(rows', c.conversationId, i);
      assert Find(rows', c.conversationId) == i;
    }
  }

  /** The verdict on a parsed command, told by the sender's grants. */
  lemma VerdictIs(s: System, org: string, m: Message, p: Parsed)
    requires Trimmed(p.argument)
    ensures var c := Extract(m.activity);
      var required := Required(p, ScopeFor(c));
      var verdict := Authorize(s.access, s.cache, org, c.graphUserId, m.now, m.lookup, required).verdict;
      && (verdict.Allowed? <==> IsKnown(s, org, m) && MayRun(SenderPermissions(s, org, m), c, p))
      && (verdict.Allowed? ==> verdict.permissions == SenderPermissions(s, org, m))
  {
    hide MayRun, Required, AuthorizeAs, HasGrant, GroupIdsForSender, NormalizeId, NormalizeIds, Extract, ScopeFor;
    hide GrantedBy;
    var c := Extract(m.activity);
    var required := Required(p, ScopeFor(c));
    var aad := NormalizeId(c.graphUserId);
    AllowedIff(s.access, s.cache, org, aad, m.now, m.lookup, required);
    MayRunIff(SenderPermissions(s, org, m), c, p);
  }

  /** Every message that is a command does exactly what the command says, with the sender's effective
      permissions, when the sender is known and has the permission the command needs; otherwise it
      leaves routes, tokens and deliveries as they are. */
  lemma ReceiveAchieves(s: System, org: string, unmark: string -> string, m: Message, p: Parsed)
    requires ParsedCommand(unmark, m.activity) == Some(p) && NoRepeats(m.order)
    ensures var s' := Receive(s, org, unmark, m);
      var c, permissions := Extract(m.activity), SenderPermissions(s, org, m);
      if IsKnown(s, org, m) && MayRun(permissions, c, p)
      then Achieves(s.world, s'.world, ContextFor(s'.references, org, c, m, permissions), p)
      else s'.world == s.world
  {
    hide IsKnown, MayRun, Achieves, Handle, Extract, ParsedCommand, Required, Authorize, Upsert, SenderHas, ScopeFor;
    ParsedTrimmed(unmark, m.activity);
    VerdictIs(s, org, m, p);
    var c, permissions := Extract(m.activity), SenderPermissions(s, org, m);
    var rows := Upsert(s.references, c, m.newReferenceId, m.names);
    UpsertShows(s.references, c, m.newReferenceId, m.names);
    HandleAchieves(s.world, ContextFor(rows, org, c, m, permissions), p);
  }

  lemma ParsedTrimmed(unmark: string -> string, activity: Json)
    ensures ParsedCommand(unmark, activity).Some? ==> Trimmed(ParsedCommand(unmark, activity).value.argument)
  {
    ArgumentTrimmed(unmark, ReadSubmit(Get(activity, "value")), Read(Get(activity, "text")));
  }

  /** Any other activity changes nothing but the references. */
  lemma NoCommandNoChange(s: System, org: string, unmark: string -> string, m: Message)
    requires ParsedCommand(unmark, m.activity).None?
    ensures Receive(s, org, unmark, m).world == s.world
  {
  }

  /** For every message or submit payload, the tables change only within what the sender's
      effective permissions allow. */
  lemma ReceiveWithinPermissions(s: System, org: string, unmark: string -> string, m: Message)
    ensures var s' := Receive(s, org, unmark, m);
      var rows := s'.references;
      && Within(s.world, s'.world, ContextFor(rows, org, Extract(m.activity), m, SenderPermissions(s, org, m)),
                SenderPermissions(s, org, m))
      && (RefsOk(s.world) ==> RefsOk(s'.world))
      && s'.access == s.access
  {
    var c := Extract(m.activity);
    var parsed := ParsedCommand(unmark, m.activity);
    if parsed.Some? {
      CommandWithin(s, org, m, c, parsed.value);
    }
  }

  lemma CommandWithin(s: System, org: string, m: Message, c: Captured, parsed: Parsed)
    requires c == Extract(m.activity)
    ensures var rows := Upsert(s.references, c, m.newReferenceId, m.names);
      var required := Required(parsed, ScopeFor(c));
      var verdict := Authorize(s.access, s.cache, org, c.graphUserId, m.now, m.lookup, required).verdict;
      var all := SenderPermissions(s, org, m);
      verdict.Allowed? ==>
        && Within(s.world, Handle(s.world, ContextFor(rows, org, c, m, verdict.permissions), parsed),
                  ContextFor(rows, org, c, m, all), all)
        && (RefsOk(s.world) ==> RefsOk(Handle(s.world, ContextFor(rows, org, c, m, verdict.permissions), parsed)))
  {
    var rows := Upsert(s.references, c, m.newReferenceId, m.names);
    var required := Required(parsed, ScopeFor(c));
    var aad := NormalizeId(c.graphUserId);
    var verdict := AuthorizeAs(s.access, s.cache, org, aad, m.now, m.lookup, required).verdict;
    if verdict.Allowed? {
      AllowedMeansGranted(s.access, s.cache, org, aad, m.now, m.lookup, required);
      assert verdict.permissions <= SenderPermissions(s, org, m);
      var ctx := ContextFor(rows, org, c, m, verdict.permissions);
      HandleWithin(s.world, ctx, parsed);
      WithinGrows(s.world, Handle(s.world, ctx, parsed), ctx, verdict.permissions, SenderPermissions(s, org, m));
    }
  }

  /** A sender no active grant covers changes nothing but the conversation reference. */
  lemma StrangersChangeNothing(s: System, org: string, unmark: string -> string, m: Message)
    requires SenderPermissions(s, org, m) == {}
    ensures var s' := Receive(s, org, unmark, m);
      && s'.world.routes == s.world.routes
      && s'.world.deliveries == s.world.deliveries
      && forall t :: t in s'.world.tokens ==> t in s.world.tokens
  {
    ReceiveWithinPermissions(s, org, unmark, m);
    var rows := Receive(s, org, unmark, m).references;
    WithinNothing(s.world, Receive(s, org, unmark, m).world, ContextFor(rows, org, Extract(m.activity), m, {}));
  }

  lemma WithinNothing(w: World, w': World, ctx: Context)
    requires Within(w, w', ctx, {})
    ensures w'.routes == w.routes && w'.deliveries == w.deliveries
    ensures forall t :: t in w'.tokens ==> t in w.tokens
  {
    forall i ensures At(w, i) == At(w', i) {
      if Changed(w, w', i) {
        NothingAllowed(At(w, i), At(w', i), CreatePermission(ctx.captured));
      }
    }
    forall i ensures i in w.routes <==> i in w'.routes { assert At(w, i) == At(w', i); }
    forall i | i in w.routes ensures w.routes[i] == w'.routes[i] { assert At(w, i) == At(w', i); }
    assert w.routes == w'.routes;
  }

  lemma NothingAllowed(before: Option<Route>, after: Option<Route>, create: Permission)
    requires ChangeAllowed(before, after, {}, create)
    ensures before == after
  {
  }

  function Run(s: System, org: string, unmark: string -> string, messages: seq<Message>): System {
    if messages == [] then s
    else Receive(Run(s, org, unmark, messages[..|messages| - 1]), org, unmark, messages[|messages| - 1])
  }

  /** Over any run of messages no token and no delivery ever refers to a missing route. */
  lemma {:induction false} RunKeepsRefs(s: System, org: string, unmark: string -> string, messages: seq<Message>)
    requires RefsOk(s.world)
    ensures RefsOk(Run(s, org, unmark, messages).world)
    ensures Run(s, org, unmark, messages).access == s.access
  {
    if messages != [] {
      var init := messages[..|messages| - 1];
      RunKeepsRefs(s, org, unmark, init);
      ReceiveWithinPermissions(Run(s, org, unmark, init), org, unmark, messages[|messages| - 1]);
    }
  }

  // ----- the cache along a run of messages -----

  /** What a message asks the authorization, if it is a command of somebody. */
  function Asks(access: BotAccess.State, org: string, unmark: string -> string, m: Message)
    : seq<BotAuthorization.Request>
  {
    var aad := NormalizeId(Extract(m.activity).graphUserId);
    if ParsedCommand(unmark, m.activity).None? || aad == "" then []
    else [BotAuthorization.Request(access, org, aad, m.now, m.lookup)]
  }

  function AllAsk(access: BotAccess.State, org: string, unmark: string -> string, messages: seq<Message>)
    : seq<BotAuthorization.Request>
  {
    if messages == [] then []
    else
      AllAsk(access, org, unmark, messages[..|messages| - 1]) + Asks(access, org, unmark, messages[|messages| - 1])
  }

  lemma ReceiveCaches(s: System, org: string, unmark: string -> string, m: Message,
    before: seq<BotAuthorization.Request>)
    requires s.cache == CacheAfter(before)
    ensures Receive(s, org, unmark, m).cache == CacheAfter(before + Asks(s.access, org, unmark, m))
    ensures Receive(s, org, unmark, m).references
         == Upsert(s.references, Extract(m.activity), m.newReferenceId, m.names)
  {
    hide Extract, ParsedCommand, Handle, Upsert, Required, Decide, NormalizeId, GroupIdsForSender, ScopeFor;
    var asks := Asks(s.access, org, unmark, m);
    if asks == [] {
      assert before + asks == before;
    } else {
      assert (before + asks)[..|before|] == before;
    }
  }

  /** The membership cache after any run of messages is the one after the authorization requests they
      make. */
  lemma {:induction false} RunCaches(s: System, org: string, unmark: string -> string, messages: seq<Message>)
    requires s.cache == map[]
    ensures Run(s, org, unmark, messages).cache == CacheAfter(AllAsk(s.access, org, unmark, messages))
    ensures Run(s, org, unmark, messages).access == s.access
  {
    if messages != [] {
      hide Receive, Asks, CacheAfter;
      var init, last := messages[..|messages| - 1], messages[|messages| - 1];
      RunCaches(s, org, unmark, init);
      ReceiveCaches(Run(s, org, unmark, init), org, unmark, last, AllAsk(s.access, org, unmark, init));
      ReceiveWithinPermissions(Run(s, org, unmark, init), org, unmark, last);
    } else {
      assert CacheAfter([]) == map[];
    }
  }
}
