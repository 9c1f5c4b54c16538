/** Conversation references: the live upsert, the startup replay of the stored activity log,
    and the proof that the replay agrees with the live table. */
module References {
  import opened Text
  import opened Activities

  datatype Reference = Reference(
    id: nat,
    conversationId: string,
    scope: string,
    serviceUrl: string,
    tenantId: string,
    teamId: string,
    graphTeamId: string,
    channelId: string,
    conversationType: string,
    teamName: string,
    channelName: string,
    userId: string,
    userName: string,
    graphUserId: string,
    rawActivityType: string)

  function BlankReference(id: nat, conversationId: string): Reference {
    Reference(id, conversationId, "", "", "", "", "", "", "", "", "", "", "", "", "")
  }

  predicate IsGroup(c: Captured) {
    c.isGroup || Lower(c.conversationType) in {"groupchat", "group", "chat"}
  }

  /** `_scope_for`. */
  function ScopeFor(c: Captured): string {
    if c.conversationType == "personal" then "user"
    else if c.teamId != "" && c.channelId != "" then "channel"
    else if c.teamId != "" then "team"
    else if IsGroup(c) then "chat"
    else "user"
  }

  /** The field updates the live upsert and the startup replay have in common: most fields are
      overwritten, five keep their old value when the capture has none. */
  function WithCapture(r: Reference, c: Captured): Reference {
    Reference(
      r.id, r.conversationId, ScopeFor(c), c.serviceUrl, c.tenantId, c.teamId,
      Or(c.graphTeamId, r.graphTeamId), c.channelId, c.conversationType,
      Or(c.teamName, r.teamName), Or(c.channelName, r.channelName), c.fromId,
      Or(c.userName, r.userName), Or(c.graphUserId, r.graphUserId), c.activityType)
  }

  predicate Usable(c: Captured) {
    c.conversationId != "" && c.serviceUrl != ""
  }

  /** What the Graph directory answers for blank names; "" stands for no answer or an error. */
  datatype Names = Names(team: string, channel: string, user: string)

  /** `resolve_reference_graph_names`, not forced: it only fills names that are blank. */
  function Resolve(r: Reference, n: Names): Reference {
    var r1 := if r.graphTeamId != "" && r.teamName == "" then r.(teamName := n.team) else r;
    var r2 := if r1.graphTeamId != "" && r1.channelId != "" && r1.channelName == ""
              then r1.(channelName := n.channel) else r1;
    if r2.graphUserId != "" && r2.userName == "" then r2.(userName := n.user) else r2
  }

  /** The first row with this conversation id, or the row count. */
  function Find(rows: seq<Reference>, conversationId: string): (i: nat)
    ensures i <= |rows|
    ensures i < |rows| ==> rows[i].conversationId == conversationId
    ensures forall j :: 0 <= j < i ==> rows[j].conversationId != conversationId
  {
    if rows == [] || rows[0].conversationId == conversationId then 0
    else 1 + Find(rows[1..], conversationId)
  }

  predicate Unique(rows: seq<Reference>) {
    forall i, j :: 0 <= i < j < |rows| ==> rows[i].conversationId != rows[j].conversationId
  }

  /** `_upsert_reference`. */
  function Upsert(rows: seq<Reference>, c: Captured, id: nat, n: Names): seq<Reference> {
    if !Usable(c) then rows
    else
      var i := Find(rows, c.conversationId);
      if i < |rows| then rows[i := Resolve(WithCapture(rows[i], c), n)]
      else rows + [Resolve(WithCapture(BlankReference(id, c.conversationId), c), n)]
  }

  /** What the directory contributes: a name is taken from its answer where the row has none and the
      ids to ask for; nothing else changes. */
  lemma ResolveFills(r: Reference, n: Names)
    ensures Resolve(r, n) == r.(
        teamName := if r.teamName == "" && r.graphTeamId != "" then n.team else r.teamName,
        channelName := if r.channelName == "" && r.graphTeamId != "" && r.channelId != "" then n.channel
                       else r.channelName,
        userName := if r.userName == "" && r.graphUserId != "" then n.user else r.userName)
  {
  }

  function RemoveAt(rows: seq<Reference>, i: nat): seq<Reference>
    requires i < |rows|
  {
    rows[..i] + rows[i + 1..]
  }

  /** `delete_bot_conversation_reference` for one conversation. */
  function Delete(rows: seq<Reference>, conversationId: string): seq<Reference> {
    var i := Find(rows, conversationId);
    if i < |rows| then RemoveAt(rows, i) else rows
  }

  /** The row a raw, un-normalized id still names, or the row count. */
  function FindRaw(rows: seq<Reference>, c: Captured): (i: nat)
    ensures i <= |rows|
  {
    if c.rawConversationId != "" && c.rawConversationId != c.conversationId
    then Find(rows, c.rawConversationId) else |rows|
  }

  /** A row under the raw id is renamed, or dropped when the normalized id has its own row. */
  function Rehome(rows: seq<Reference>, c: Captured): seq<Reference> {
    var i, raw := Find(rows, c.conversationId), FindRaw(rows, c);
    if raw == |rows| then rows
    else if i == |rows| then rows[raw := rows[raw].(conversationId := c.conversationId)]
    else RemoveAt(rows, raw)
  }

  function Refresh(rows: seq<Reference>, c: Captured): seq<Reference> {
    var i := Find(rows, c.conversationId);
    if i < |rows| then rows[i := WithCapture(rows[i], c)] else rows
  }

  function ReplayOne(rows: seq<Reference>, c: Captured): seq<Reference> {
    if Usable(c) then Refresh(Rehome(rows, c), c) else rows
  }

  /** `_backfill_bot_reference_metadata`: one pass over the log, oldest first. */
  function Replay(rows: seq<Reference>, log: seq<Captured>): seq<Reference> {
    if log == [] then rows else ReplayOne(Replay(rows, log[..|log| - 1]), log[|log| - 1])
  }

  lemma ReplaySnoc(rows: seq<Reference>, log: seq<Captured>, c: Captured)
    ensures Replay(rows, log + [c]) == ReplayOne(Replay(rows, log), c)
  {
    assert (log + [c])[..|log|] == log;
  }

  function Mapped<A, B>(s: seq<A>, f: A -> B): (r: seq<B>)
    ensures |r| == |s|
    ensures forall i :: 0 <= i < |s| ==> r[i] == f(s[i])
  {
    if s == [] then [] else Mapped(s[..|s| - 1], f) + [f(s[|s| - 1])]
  }

  lemma MappedOne<A, B>(s: seq<A>, x: A, f: A -> B)
    ensures Mapped(s + [x], f) == Mapped(s, f) + [f(x)]
  {
    assert (s + [x])[..|s|] == s;
  }

  function Captures(events: seq<Event>): (log: seq<Captured>) {
    Mapped(events, ExtractStored)
  }

  /** The table as the handlers work on it. */
  class ReferenceTable {
    var rows: seq<Reference>

    constructor ()
      ensures rows == []
    {
      rows := [];
    }

    method UpsertReference(c: Captured, id: nat, n: Names) returns (captured: bool)
      modifies this
      ensures captured == Usable(c)
      ensures rows == Upsert(old(rows), c, id, n)
    {
      if c.conversationId == "" || c.serviceUrl == "" {
        return false;
      }
      var i := Find(rows, c.conversationId);
      if i == |rows| {
        rows := rows + [BlankReference(id, c.conversationId)];
      }
      rows := rows[i := WithCapture(rows[i], c)];
      rows := rows[i := Resolve(rows[i], n)];
      captured := true;
    }

    method DeleteReference(conversationId: string)
      modifies this
      ensures rows == Delete(old(rows), conversationId)
    {
      var i := Find(rows, conversationId);
      if i < |rows| {
        rows := rows[..i] + rows[i + 1..];
      }
    }

    /** The pass commits only when `changed` is set, so an unset flag must mean no change. */
    method BackfillReferenceMetadata(events: seq<Event>) returns (changed: bool)
      modifies this
      ensures rows == Replay(old(rows), Captures(events))
      ensures !changed ==> rows == old(rows)
    {
      hide ExtractStored, Rehome, Refresh;
      changed := false;
      for k := 0 to |events|
        invariant rows == Replay(old(rows), Captures(events[..k]))
        invariant !changed ==> rows == old(rows)
      {
        PrefixStep(events, k);
        var c := ExtractStored(events[k]);
        MappedOne(events[..k], events[k], ExtractStored);
        ReplaySnoc(old(rows), Captures(events[..k]), c);
        if c.conversationId == "" || c.serviceUrl == "" {
          continue;
        }
        var touched := ReplayEvent(c);
        changed := changed || touched;
      }
      assert events[..|events|] == events;
    }

    method ReplayEvent(c: Captured) returns (touched: bool)
      requires Usable(c)
      modifies this
      ensures rows == ReplayOne(old(rows), c)
      ensures !touched ==> rows == old(rows)
    {
      var reference := Find(rows, c.conversationId);
      var raw := |rows|;
      if c.rawConversationId != "" && c.rawConversationId != c.conversationId {
        raw := Find(rows, c.rawConversationId);
      }
      if reference == |rows| && raw < |rows| {
        rows := rows[raw := rows[raw].(conversationId := c.conversationId)];
      } else if reference < |rows| && raw < |rows| {
        rows := rows[..raw] + rows[raw + 1..];
      }
      ghost var rehomed := rows;
      assert rehomed == Rehome(old(rows), c);
      var target := Find(rows, c.conversationId);
      if target == |rows| {
        assert raw == |old(rows)| by {
          if raw < |old(rows)| { RehomedIsFound(old(rows), c); }
        }
        return false;
      }
      rows := rows[target := WithCapture(rows[target], c)];
      touched := true;
    }
  }

  lemma {:induction false} FindHit(rows: seq<Reference>, id: string, k: nat)
    requires k < |rows| && rows[k].conversationId == id
    ensures Find(rows, id) <= k
  {
  }

  /** After rehoming a raw row there is a row under the normalized id. */
  lemma RehomedIsFound(rows: seq<Reference>, c: Captured)
    requires FindRaw(rows, c) < |rows|
    ensures Find(Rehome(rows, c), c.conversationId) < |Rehome(rows, c)|
  {
    var i, raw, rehomed := Find(rows, c.conversationId), FindRaw(rows, c), Rehome(rows, c);
    if i == |rows| {
      FindHit(rehomed, c.conversationId, raw);
    } else if i < raw {
      FindHit(rehomed, c.conversationId, i);
    } else {
      FindHit(rehomed, c.conversationId, i - 1);
    }
  }

  // ----- one row against a log -----

  predicate About(c: Captured, conversationId: string) {
    Usable(c) && c.conversationId == conversationId
  }

  /** What a replay does to one row whose id it does not change. */
  function FoldRow(r: Reference, log: seq<Captured>): (f: Reference)
    ensures f.conversationId == r.conversationId && f.id == r.id
  {
    if log == [] then r
    else
      var f := FoldRow(r, log[..|log| - 1]);
      if About(log[|log| - 1], r.conversationId) then WithCapture(f, log[|log| - 1]) else f
  }

  /** The fields a capture without a value leaves alone. */
  datatype Sticky = GraphTeamId | TeamName | ChannelName | UserName | GraphUserId

  function Said(c: Captured, f: Sticky): string {
    match f
    case GraphTeamId => c.graphTeamId
    case TeamName => c.teamName
    case ChannelName => c.channelName
    case UserName => c.userName
    case GraphUserId => c.graphUserId
  }

  function Kept(r: Reference, f: Sticky): string {
    match f
    case GraphTeamId => r.graphTeamId
    case TeamName => r.teamName
    case ChannelName => r.channelName
    case UserName => r.userName
    case GraphUserId => r.graphUserId
  }

  datatype Overwritten = Overwritten(scope: string, serviceUrl: string, tenantId: string, teamId: string,
    channelId: string, conversationType: string, userId: string, rawActivityType: string)

  function OverwrittenIn(r: Reference): Overwritten {
    Overwritten(r.scope, r.serviceUrl, r.tenantId, r.teamId, r.channelId, r.conversationType, r.userId,
                r.rawActivityType)
  }

  function OverwrittenBy(c: Captured): Overwritten {
    Overwritten(ScopeFor(c), c.serviceUrl, c.tenantId, c.teamId, c.channelId, c.conversationType, c.fromId,
                c.activityType)
  }

  /** The last text some capture of this conversation gives a sticky field. */
  function LastText(log: seq<Captured>, id: string, f: Sticky, start: string): string {
    if log == [] then start
    else
      var c := log[|log| - 1];
      if About(c, id) && Said(c, f) != "" then Said(c, f) else LastText(log[..|log| - 1], id, f, start)
  }

  /** What the last capture of this conversation writes. */
  function LastWrite(log: seq<Captured>, id: string, start: Overwritten): Overwritten {
    if log == [] then start
    else if About(log[|log| - 1], id) then OverwrittenBy(log[|log| - 1])
    else LastWrite(log[..|log| - 1], id, start)
  }

  /** The row already holds what the log says: the last capture's overwritten fields, and for
      each sticky field the last text some capture gave it. */
  ghost predicate Settled(r: Reference, log: seq<Captured>) {
    && LastWrite(log, r.conversationId, OverwrittenIn(r)) == OverwrittenIn(r)
    && forall f: Sticky :: LastText(log, r.conversationId, f, Kept(r, f)) == Kept(r, f)
  }

  lemma {:induction false} FoldRowWrites(r: Reference, log: seq<Captured>)
    ensures OverwrittenIn(FoldRow(r, log)) == LastWrite(log, r.conversationId, OverwrittenIn(r))
  {
    if log != [] {
      FoldRowWrites(r, log[..|log| - 1]);
    }
  }

  lemma {:induction false} FoldRowText(r: Reference, log: seq<Captured>, f: Sticky)
    ensures Kept(FoldRow(r, log), f) == LastText(log, r.conversationId, f, Kept(r, f))
  {
    if log != [] {
      FoldRowText(r, log[..|log| - 1], f);
    }
  }

  lemma SameReference(r: Reference, s: Reference)
    requires r.id == s.id && r.conversationId == s.conversationId
    requires OverwrittenIn(r) == OverwrittenIn(s)
    requires forall f: Sticky :: Kept(r, f) == Kept(s, f)
    ensures r == s
  {
    assert Kept(r, GraphTeamId) == Kept(s, GraphTeamId);
    assert Kept(r, TeamName) == Kept(s, TeamName);
    assert Kept(r, ChannelName) == Kept(s, ChannelName);
    assert Kept(r, UserName) == Kept(s, UserName);
    assert Kept(r, GraphUserId) == Kept(s, GraphUserId);
  }

  /** A replay leaves a row alone exactly when the row is settled. */
  lemma FoldKeepsIffSettled(r: Reference, log: seq<Captured>)
    ensures FoldRow(r, log) == r <==> Settled(r, log)
  {
    FoldRowWrites(r, log);
    forall f: Sticky
      ensures Kept(FoldRow(r, log), f) == LastText(log, r.conversationId, f, Kept(r, f))
    {
      FoldRowText(r, log, f);
    }
    if Settled(r, log) {
      SameReference(FoldRow(r, log), r);
    }
  }

  lemma {:induction false} LastTextStart(log: seq<Captured>, id: string, f: Sticky, start: string)
    ensures LastText(log, id, f, start) == Or(LastText(log, id, f, ""), start)
  {
    if log != [] {
      LastTextStart(log[..|log| - 1], id, f, start);
    }
  }

  lemma {:induction false} LastWriteTwice(log: seq<Captured>, id: string, start: Overwritten)
    ensures LastWrite(log, id, LastWrite(log, id, start)) == LastWrite(log, id, start)
  {
    if log != [] {
      LastWriteTwice(log[..|log| - 1], id, start);
    }
  }

  /** One replay settles a row, so replaying the same log again changes nothing. */
  lemma FoldSettles(r: Reference, log: seq<Captured>)
    ensures Settled(FoldRow(r, log), log)
  {
    var id := r.conversationId;
    FoldRowWrites(r, log);
    LastWriteTwice(log, id, OverwrittenIn(r));
    forall f: Sticky
      ensures LastText(log, id, f, Kept(FoldRow(r, log), f)) == Kept(FoldRow(r, log), f)
    {
      FoldRowText(r, log, f);
      LastTextStart(log, id, f, Kept(r, f));
      LastTextStart(log, id, f, Kept(FoldRow(r, log), f));
    }
  }

  /** A settled row is settled with respect to every retained suffix of the log. */
  lemma SettledSuffix(r: Reference, pre: seq<Captured>, suf: seq<Captured>)
    requires Settled(r, pre + suf)
    ensures Settled(r, suf)
  {
    var id := r.conversationId;
    LastWriteAppend(pre, suf, id, OverwrittenIn(r));
    LastWriteTwice(suf, id, LastWrite(pre, id, OverwrittenIn(r)));
    forall f: Sticky ensures LastText(suf, id, f, Kept(r, f)) == Kept(r, f) {
      LastTextAppend(pre, suf, id, f, Kept(r, f));
      LastTextStart(suf, id, f, Kept(r, f));
      LastTextStart(suf, id, f, LastText(pre, id, f, Kept(r, f)));
    }
  }

  lemma {:induction false} LastTextAppend(pre: seq<Captured>, suf: seq<Captured>, id: string, f: Sticky, start: string)
    ensures LastText(pre + suf, id, f, start) == LastText(suf, id, f, LastText(pre, id, f, start))
  {
    if suf == [] {
      assert pre + suf == pre;
    } else {
      LastTextAppend(pre, suf[..|suf| - 1], id, f, start);
      assert (pre + suf)[..|pre + suf| - 1] == pre + suf[..|suf| - 1];
    }
  }

  lemma {:induction false} LastWriteAppend(pre: seq<Captured>, suf: seq<Captured>, id: string, start: Overwritten)
    ensures LastWrite(pre + suf, id, start) == LastWrite(suf, id, LastWrite(pre, id, start))
  {
    if suf == [] {
      assert pre + suf == pre;
    } else {
      LastWriteAppend(pre, suf[..|suf| - 1], id, start);
      assert (pre + suf)[..|pre + suf| - 1] == pre + suf[..|suf| - 1];
    }
  }

  /** The live upsert keeps a row settled with respect to the log so far, whatever the Graph
      directory answers for blank names. */
  lemma UpsertSettles(r: Reference, log: seq<Captured>, c: Captured, n: Names)
    requires Settled(r, log) && About(c, r.conversationId)
    ensures Settled(Resolve(WithCapture(r, c), n), log + [c])
  {
    var r' := Resolve(WithCapture(r, c), n);
    var id := r.conversationId;
    assert (log + [c])[..|log|] == log;
    forall f: Sticky ensures LastText(log + [c], id, f, Kept(r', f)) == Kept(r', f) {
      LastTextStart(log, id, f, Kept(r, f));
      LastTextStart(log, id, f, Kept(r', f));
      StickyAfterUpsert(r, c, n, f);
    }
  }

  lemma StickyAfterUpsert(r: Reference, c: Captured, n: Names, f: Sticky)
    ensures var k := Kept(Resolve(WithCapture(r, c), n), f);
      && (Said(c, f) != "" ==> k == Said(c, f))
      && (Said(c, f) == "" && Kept(r, f) != "" ==> k == Kept(r, f))
  {
  }

  lemma OtherSettles(r: Reference, log: seq<Captured>, c: Captured)
    requires !About(c, r.conversationId)
    ensures Settled(r, log + [c]) <==> Settled(r, log)
  {
    assert (log + [c])[..|log|] == log;
  }

  // ----- the whole table against a log -----

  predicate Has(rows: seq<Reference>, id: string) {
    Find(rows, id) < |rows|
  }

  lemma HasIff(rows: seq<Reference>, id: string)
    ensures Has(rows, id) <==> exists k :: 0 <= k < |rows| && rows[k].conversationId == id
  {
    if k :| 0 <= k < |rows| && rows[k].conversationId == id {
      FindHit(rows, id, k);
    }
  }

  /** Captures as the extractor makes them: the id is the normalized raw id. */
  predicate Normal(c: Captured) {
    c.conversationId == NormalizeConversationId(c.rawConversationId)
  }

  predicate AllNormal(log: seq<Captured>) {
    forall k :: 0 <= k < |log| ==> Normal(log[k])
  }

  predicate Renamed(c: Captured) {
    Usable(c) && c.rawConversationId != "" && c.rawConversationId != c.conversationId
  }

  /** No row is left under the raw id of any usable event. */
  predicate RawGone(rows: seq<Reference>, log: seq<Captured>) {
    forall k :: 0 <= k < |log| && Renamed(log[k]) ==> !Has(rows, log[k].rawConversationId)
  }

  lemma RemoveUnique(rows: seq<Reference>, i: nat)
    requires Unique(rows) && i < |rows|
    ensures Unique(RemoveAt(rows, i))
    ensures forall id :: Has(RemoveAt(rows, i), id) <==> Has(rows, id) && id != rows[i].conversationId
  {
    var left := RemoveAt(rows, i);
    assert forall j :: 0 <= j < |left| ==> left[j] == rows[if j < i then j else j + 1];
    forall id ensures Has(left, id) <==> Has(rows, id) && id != rows[i].conversationId {
      HasIff(left, id);
      HasIff(rows, id);
      if k :| 0 <= k < |rows| && rows[k].conversationId == id && k != i {
        assert left[if k < i then k else k - 1] == rows[k];
      }
    }
  }

  lemma RenameUnique(rows: seq<Reference>, i: nat, id': string)
    requires Unique(rows) && i < |rows| && !Has(rows, id')
    ensures var renamed := rows[i := rows[i].(conversationId := id')];
            && Unique(renamed)
            && forall id :: Has(renamed, id) <==> id == id' || (Has(rows, id) && id != rows[i].conversationId)
  {
    var renamed := rows[i := rows[i].(conversationId := id')];
    HasIff(rows, id');
    forall id ensures Has(renamed, id) <==> id == id' || (Has(rows, id) && id != rows[i].conversationId) {
      HasIff(renamed, id);
      HasIff(rows, id);
      if id == id' { assert renamed[i].conversationId == id; }
      if k :| 0 <= k < |rows| && rows[k].conversationId == id && k != i {
        assert renamed[k].conversationId == id;
      }
    }
  }

  lemma SameIds(rows: seq<Reference>, rows': seq<Reference>)
    requires |rows| == |rows'|
    requires forall i :: 0 <= i < |rows| ==> rows'[i].conversationId == rows[i].conversationId
    ensures Unique(rows) ==> Unique(rows')
    ensures forall id :: Find(rows', id) == Find(rows, id)
  {
    forall id ensures Find(rows', id) == Find(rows, id) {
      var i, j := Find(rows, id), Find(rows', id);
      if i < |rows| { FindHit(rows', id, i); }
      if j < |rows| { FindHit(rows, id, j); }
    }
  }

  /** One replayed event: ids stay unique, its raw id is gone, no other id appears. */
  lemma ReplayOneIds(rows: seq<Reference>, c: Captured)
    requires Unique(rows)
    ensures Unique(ReplayOne(rows, c))
    ensures Renamed(c) ==> !Has(ReplayOne(rows, c), c.rawConversationId)
    ensures forall id :: Has(ReplayOne(rows, c), id) ==> Has(rows, id) || id == c.conversationId
  {
    if Usable(c) {
      var i, raw, rehomed := Find(rows, c.conversationId), FindRaw(rows, c), Rehome(rows, c);
      if raw < |rows| {
        if i == |rows| {
          RenameUnique(rows, raw, c.conversationId);
        } else {
          RemoveUnique(rows, raw);
        }
      }
      SameIds(rehomed, Refresh(rehomed, c));
    }
  }

  /** From any table with unique ids and any log, one pass keeps ids unique and leaves no row
      under the raw id of any usable event. */
  lemma {:induction false} ReplayClears(rows: seq<Reference>, log: seq<Captured>)
    requires Unique(rows) && AllNormal(log)
    ensures Unique(Replay(rows, log))
    ensures RawGone(Replay(rows, log), log)
  {
    if log != [] {
      var init, c := log[..|log| - 1], log[|log| - 1];
      ReplayClears(rows, init);
      ReplayOneIds(Replay(rows, init), c);
      forall k | 0 <= k < |log| && Renamed(log[k]) ensures !Has(Replay(rows, log), log[k].rawConversationId) {
        if k < |init| {
          assert init[k] == log[k];
          NormalizeIdempotent(c.rawConversationId);
        }
      }
    }
  }

  lemma RefreshRow(rows: seq<Reference>, c: Captured)
    requires Unique(rows) && Usable(c)
    ensures |Refresh(rows, c)| == |rows|
    ensures forall i :: 0 <= i < |rows| ==>
              Refresh(rows, c)[i] == if About(c, rows[i].conversationId) then WithCapture(rows[i], c) else rows[i]
  {
    var t := Find(rows, c.conversationId);
    forall i | 0 <= i < |rows| && rows[i].conversationId == c.conversationId ensures i == t {
      FindHit(rows, c.conversationId, i);
    }
  }

  /** With no raw row in the way, a pass works on each row separately. */
  lemma {:induction false} ReplayRows(rows: seq<Reference>, log: seq<Captured>)
    requires Unique(rows) && RawGone(rows, log)
    ensures |Replay(rows, log)| == |rows|
    ensures forall i :: 0 <= i < |rows| ==> Replay(rows, log)[i] == FoldRow(rows[i], log)
  {
    if log != [] {
      var init, c := log[..|log| - 1], log[|log| - 1];
      assert RawGone(rows, init) by {
        forall k | 0 <= k < |init| && Renamed(init[k]) ensures !Has(rows, init[k].rawConversationId) {
          assert init[k] == log[k];
        }
      }
      ReplayRows(rows, init);
      var before := Replay(rows, init);
      SameIds(rows, before);
      if Usable(c) {
        assert Renamed(c) ==> !Has(rows, log[|log| - 1].rawConversationId);
        assert Rehome(before, c) == before;
        RefreshRow(before, c);
      }
    }
  }

  /** A pass over a table without raw rows changes nothing exactly when every row is settled. */
  lemma ReplayKeepsIff(rows: seq<Reference>, log: seq<Captured>)
    requires Unique(rows) && RawGone(rows, log)
    ensures Replay(rows, log) == rows <==> forall i :: 0 <= i < |rows| ==> Settled(rows[i], log)
  {
    ReplayRows(rows, log);
    forall i | 0 <= i < |rows| ensures FoldRow(rows[i], log) == rows[i] <==> Settled(rows[i], log) {
      FoldKeepsIffSettled(rows[i], log);
    }
    if forall i :: 0 <= i < |rows| ==> Settled(rows[i], log) {
      assert forall i :: 0 <= i < |rows| ==> Replay(rows, log)[i] == rows[i];
    }
  }

  /** From the second pass on the table is a fixed point. */
  lemma SecondPassSettles(rows: seq<Reference>, log: seq<Captured>)
    requires Unique(rows) && AllNormal(log)
    ensures var twice := Replay(Replay(rows, log), log); Replay(twice, log) == twice
  {
    var once := Replay(rows, log);
    var twice := Replay(once, log);
    ReplayClears(rows, log);
    ReplayClears(once, log);
    ReplayRows(once, log);
    forall i | 0 <= i < |twice| ensures Settled(twice[i], log) {
      FoldSettles(once[i], log);
    }
    ReplayKeepsIff(twice, log);
  }

  /** One pass alone need not be: a rename late in the log exposes an event the pass had skipped. */
  lemma OnePassNotEnough(r: Reference, early: Captured, late: Captured)
    requires Normal(early) && Normal(late) && Usable(early) && Usable(late) && Renamed(late)
    requires early.rawConversationId == early.conversationId == late.conversationId
    requires r.conversationId == late.rawConversationId && r.teamName == ""
    requires early.teamName != "" && late.teamName == ""
    ensures var once := Replay([r], [early, late]); Replay(once, [early, late]) != once
  {
    var log := [early, late];
    assert log[..1] == [early] && [early][..0] == [];
    assert Replay([r], []) == [r];
    var moved := r.(conversationId := late.conversationId);
    assert Replay([r], [early]) == [r];
    assert Rehome([r], late) == [moved];
    var once := Replay([r], log);
    assert once == [WithCapture(moved, late)];
    ReplayClears([r], log);
    assert once[0].teamName == "";
    FoldRowText(once[0], log, TeamName);
    assert LastText(log, once[0].conversationId, TeamName, "") == early.teamName by {
      assert LastText([early], once[0].conversationId, TeamName, "") == early.teamName;
    }
    ReplayRows(once, log);
  }

  // ----- when one pass is enough -----

  /** The row under an id. */
  function RowOf(rows: seq<Reference>, id: string): Reference
    requires Has(rows, id)
  {
    rows[Find(rows, id)]
  }

  predicate MovesRow(rows: seq<Reference>, c: Captured) {
    Renamed(c) && Has(rows, c.rawConversationId)
  }

  /** What one replayed event makes of the row under an id. */
  function Base(rows: seq<Reference>, c: Captured, id: string): Reference
    requires Has(rows, id) || (MovesRow(rows, c) && id == c.conversationId)
  {
    if Has(rows, id) then RowOf(rows, id)
    else RowOf(rows, c.rawConversationId).(conversationId := id)
  }

  predicate HasAfter(rows: seq<Reference>, c: Captured, id: string) {
    if MovesRow(rows, c) then id == c.conversationId || (Has(rows, id) && id != c.rawConversationId)
    else Has(rows, id)
  }

  lemma RowOfIs(rows: seq<Reference>, i: nat)
    requires Unique(rows) && i < |rows|
    ensures Has(rows, rows[i].conversationId) && RowOf(rows, rows[i].conversationId) == rows[i]
  {
    FindHit(rows, rows[i].conversationId, i);
  }

  lemma RemovedAt(rows: seq<Reference>, c: Captured, id: string)
    requires Unique(rows) && MovesRow(rows, c) && Has(rows, c.conversationId)
    ensures Unique(RemoveAt(rows, Find(rows, c.rawConversationId)))
    ensures Has(RemoveAt(rows, Find(rows, c.rawConversationId)), id) <==> HasAfter(rows, c, id)
    ensures HasAfter(rows, c, id) ==> RowOf(RemoveAt(rows, Find(rows, c.rawConversationId)), id) == Base(rows, c, id)
  {
    hide Unique, RowOf, Has, Find;
    var raw := RowAt(rows, c.rawConversationId);
    RemoveUnique(rows, raw);
    if HasAfter(rows, c, id) {
      var i := RowAt(rows, id);
      RowOfIs(RemoveAt(rows, raw), if i < raw then i else i - 1);
    }
  }

  lemma RowAt(rows: seq<Reference>, id: string) returns (i: nat)
    requires Has(rows, id)
    ensures i == Find(rows, id) && i < |rows| && rows[i].conversationId == id && RowOf(rows, id) == rows[i]
  {
    i := Find(rows, id);
  }

  lemma RenamedAt(rows: seq<Reference>, c: Captured, id: string)
    requires Unique(rows) && MovesRow(rows, c) && !Has(rows, c.conversationId)
    ensures var raw := Find(rows, c.rawConversationId);
      var renamed := rows[raw := rows[raw].(conversationId := c.conversationId)];
      && Unique(renamed) && (Has(renamed, id) <==> HasAfter(rows, c, id))
      && (HasAfter(rows, c, id) ==> RowOf(renamed, id) == Base(rows, c, id))
  {
    var raw := Find(rows, c.rawConversationId);
    var renamed := rows[raw := rows[raw].(conversationId := c.conversationId)];
    RenameUnique(rows, raw, c.conversationId);
    if HasAfter(rows, c, id) {
      RowOfIs(renamed, if id == c.conversationId then raw else Find(rows, id));
    }
  }

  lemma RehomeAt(rows: seq<Reference>, c: Captured, id: string)
    requires Unique(rows) && Usable(c)
    ensures Unique(Rehome(rows, c))
    ensures Has(Rehome(rows, c), id) <==> HasAfter(rows, c, id)
    ensures HasAfter(rows, c, id) ==> RowOf(Rehome(rows, c), id) == Base(rows, c, id)
  {
    hide Unique, Base, RowOf, RemoveAt;
    if MovesRow(rows, c) {
      if Has(rows, c.conversationId) {
        RemovedAt(rows, c, id);
      } else {
        RenamedAt(rows, c, id);
      }
    } else {
      StaysAt(rows, c, id);
    }
  }

  lemma StaysAt(rows: seq<Reference>, c: Captured, id: string)
    requires Usable(c) && !MovesRow(rows, c)
    ensures Rehome(rows, c) == rows && (HasAfter(rows, c, id) <==> Has(rows, id))
    ensures HasAfter(rows, c, id) ==> RowOf(rows, id) == Base(rows, c, id)
  {
  }

  lemma RefreshAt(rows: seq<Reference>, c: Captured, id: string)
    requires Unique(rows) && Usable(c)
    ensures Unique(Refresh(rows, c))
    ensures Has(Refresh(rows, c), id) <==> Has(rows, id)
    ensures Has(rows, id) ==>
      RowOf(Refresh(rows, c), id) == if About(c, id) then WithCapture(RowOf(rows, id), c) else RowOf(rows, id)
  {
    RefreshRow(rows, c);
    SameIds(rows, Refresh(rows, c));
  }

  /** One replayed event, seen from one id. */
  lemma ReplayOneAt(rows: seq<Reference>, c: Captured, id: string)
    requires Unique(rows) && Usable(c)
    ensures Unique(ReplayOne(rows, c))
    ensures Has(ReplayOne(rows, c), id) <==> HasAfter(rows, c, id)
    ensures HasAfter(rows, c, id) ==>
      RowOf(ReplayOne(rows, c), id) == if About(c, id) then WithCapture(Base(rows, c, id), c) else Base(rows, c, id)
  {
    RehomeAt(rows, c, id);
    RefreshAt(Rehome(rows, c), c, id);
  }

  /** An event about `id` whose raw id names a row of the table. */
  predicate Calls(rows: seq<Reference>, log: seq<Captured>, k: nat, id: string) {
    k < |log| && About(log[k], id) && log[k].rawConversationId != id && Has(rows, log[k].rawConversationId)
  }

  predicate FirstCall(rows: seq<Reference>, log: seq<Captured>, k: nat, id: string) {
    Calls(rows, log, k, id) && forall j: nat :: j < k ==> !Calls(rows, log, j, id)
  }

  /** Some usable event carries this raw id. */
  predicate Named(log: seq<Captured>, raw: string) {
    exists j :: 0 <= j < |log| && Usable(log[j]) && log[j].rawConversationId == raw
  }

  /** A row without an id of its own starts as the row under the raw id. */
  function Started(rows: seq<Reference>, c: Captured): Reference
    requires Has(rows, c.rawConversationId)
  {
    RowOf(rows, c.rawConversationId).(conversationId := c.conversationId)
  }

  /** Where the row under an id comes from: its own row, folded over the whole log; without one, the
      row the first call names, folded from that call on; and a row under a raw id stays as it was
      until an event carries that id. */
  ghost predicate Traced(rows: seq<Reference>, log: seq<Captured>, table: seq<Reference>, id: string) {
    && (NormalId(id) && Has(rows, id) ==> Has(table, id) && RowOf(table, id) == FoldRow(RowOf(rows, id), log))
    && (NormalId(id) && !Has(rows, id) ==>
          && (forall k: nat :: FirstCall(rows, log, k, id) ==>
                Has(table, id) && RowOf(table, id) == FoldRow(Started(rows, log[k]), log[k..]))
          && (Has(table, id) ==> exists k: nat :: FirstCall(rows, log, k, id)))
    && (!NormalId(id) ==>
          && (Has(table, id) <==> Has(rows, id) && !Named(log, id))
          && (Has(table, id) ==> RowOf(table, id) == RowOf(rows, id)))
  }

  lemma CallIsFirst(rows: seq<Reference>, log: seq<Captured>, j: nat, id: string)
    requires Calls(rows, log, j, id)
    ensures exists k: nat :: k <= j && FirstCall(rows, log, k, id)
    decreases j
  {
    if i: nat :| i < j && Calls(rows, log, i, id) {
      CallIsFirst(rows, log, i, id);
    } else {
      assert FirstCall(rows, log, j, id);
    }
  }

  lemma CallsSnoc(rows: seq<Reference>, log: seq<Captured>, c: Captured, k: nat, id: string)
    requires k < |log|
    ensures Calls(rows, log + [c], k, id) <==> Calls(rows, log, k, id)
  {
    assert (log + [c])[k] == log[k];
  }

  lemma FirstCallSnoc(rows: seq<Reference>, log: seq<Captured>, c: Captured, k: nat, id: string)
    requires k < |log|
    ensures FirstCall(rows, log + [c], k, id) <==> FirstCall(rows, log, k, id)
  {
    forall j: nat | j <= k ensures Calls(rows, log + [c], j, id) <==> Calls(rows, log, j, id) {
      CallsSnoc(rows, log, c, j, id);
    }
  }

  lemma FoldSnoc(r: Reference, log: seq<Captured>, c: Captured)
    ensures FoldRow(r, log + [c])
         == if About(c, r.conversationId) then WithCapture(FoldRow(r, log), c) else FoldRow(r, log)
  {
    assert (log + [c])[..|log|] == log;
  }

  lemma NamedSnoc(log: seq<Captured>, c: Captured, raw: string)
    ensures Named(log + [c], raw) <==> Named(log, raw) || (Usable(c) && c.rawConversationId == raw)
  {
    var all := log + [c];
    assert all[|log|] == c;
    if j :| 0 <= j < |log| && Usable(log[j]) && log[j].rawConversationId == raw {
      assert all[j] == log[j];
    }
  }

  /** A normalized id that has a row of its own. */
  lemma TracedOwn(rows: seq<Reference>, log: seq<Captured>, c: Captured, table: seq<Reference>, id: string)
    requires Unique(rows) && Unique(table) && Normal(c) && Usable(c)
    requires NormalId(id) && Has(rows, id) && Traced(rows, log, table, id)
    ensures Traced(rows, log + [c], ReplayOne(table, c), id)
  {
    ReplayOneAt(table, c, id);
    FoldSnoc(RowOf(rows, id), log, c);
  }

  /** An id that is not normalized: its row leaves with the first event that carries it. */
  lemma TracedRaw(rows: seq<Reference>, log: seq<Captured>, c: Captured, table: seq<Reference>, id: string)
    requires Unique(rows) && Unique(table) && Normal(c) && Usable(c)
    requires !NormalId(id) && Traced(rows, log, table, id)
    ensures Traced(rows, log + [c], ReplayOne(table, c), id)
  {
    NormalizeIdempotent(c.rawConversationId);
    ReplayOneAt(table, c, id);
    NamedSnoc(log, c, id);
  }

  /** A normalized id without a row of its own, already called. */
  lemma TracedCalled(rows: seq<Reference>, log: seq<Captured>, c: Captured, table: seq<Reference>, id: string, k: nat)
    requires Unique(rows) && Unique(table) && Normal(c) && Usable(c)
    requires NormalId(id) && !Has(rows, id) && Traced(rows, log, table, id) && FirstCall(rows, log, k, id)
    ensures FirstCall(rows, log + [c], k, id)
    ensures Has(ReplayOne(table, c), id)
    ensures RowOf(ReplayOne(table, c), id) == FoldRow(Started(rows, log[k]), (log + [c])[k..])
  {
    ReplayOneAt(table, c, id);
    FirstCallSnoc(rows, log, c, k, id);
    FoldSnoc(Started(rows, log[k]), log[k..], c);
    assert (log + [c])[k..] == log[k..] + [c];
  }

  lemma OneFirstCall(rows: seq<Reference>, log: seq<Captured>, i: nat, j: nat, id: string)
    requires FirstCall(rows, log, i, id) && FirstCall(rows, log, j, id)
    ensures i == j
  {
  }

  /** Not called so far: only this event can call it, and then its raw row is still there. */
  lemma NotCalledYet(rows: seq<Reference>, log: seq<Captured>, c: Captured, table: seq<Reference>, id: string)
    requires AllNormal(log) && Normal(c) && Usable(c)
    requires NormalId(id) && !Has(rows, id) && Traced(rows, log, table, id)
    requires Traced(rows, log, table, c.rawConversationId)
    requires forall k: nat :: !FirstCall(rows, log, k, id)
    ensures !Has(table, id)
    ensures FirstCall(rows, log + [c], |log|, id) <==> MovesRow(table, c) && id == c.conversationId
    ensures MovesRow(table, c) && id == c.conversationId ==>
      Has(rows, c.rawConversationId) && RowOf(table, c.rawConversationId) == RowOf(rows, c.rawConversationId)
  {
    var all, raw := log + [c], c.rawConversationId;
    assert all[|log|] == c;
    forall j: nat | j < |log| ensures !Calls(rows, all, j, id) {
      CallsSnoc(rows, log, c, j, id);
      if Calls(rows, log, j, id) {
        CallIsFirst(rows, log, j, id);
      }
    }
    if id == c.conversationId && raw != id && Has(rows, raw) && Named(log, raw) {
      var j :| 0 <= j < |log| && Usable(log[j]) && log[j].rawConversationId == raw;
      assert Normal(log[j]);
      assert Calls(rows, log, j, id);
      CallsSnoc(rows, log, c, j, id);
    }
  }

  lemma TracedUncalled(rows: seq<Reference>, log: seq<Captured>, c: Captured, table: seq<Reference>, id: string)
    requires Unique(rows) && Unique(table) && AllNormal(log) && Normal(c) && Usable(c)
    requires NormalId(id) && !Has(rows, id) && Traced(rows, log, table, id)
    requires Traced(rows, log, table, c.rawConversationId)
    requires forall k: nat :: !FirstCall(rows, log, k, id)
    ensures Traced(rows, log + [c], ReplayOne(table, c), id)
  {
    var all := log + [c];
    NotCalledYet(rows, log, c, table, id);
    ReplayOneAt(table, c, id);
    forall k: nat | FirstCall(rows, all, k, id) ensures k == |log| {
      if k < |log| {
        FirstCallSnoc(rows, log, c, k, id);
      }
    }
    if MovesRow(table, c) && id == c.conversationId {
      FoldSnoc(Started(rows, c), [], c);
      assert all[|log|..] == [] + [c] && all[|log|] == c;
    }
  }

  lemma TracedStep(rows: seq<Reference>, log: seq<Captured>, c: Captured, table: seq<Reference>, id: string)
    requires Unique(rows) && Unique(table) && AllNormal(log) && Normal(c) && Usable(c)
    requires Traced(rows, log, table, id) && Traced(rows, log, table, c.rawConversationId)
    ensures Traced(rows, log + [c], ReplayOne(table, c), id)
  {
    if !NormalId(id) {
      TracedRaw(rows, log, c, table, id);
    } else if Has(rows, id) {
      TracedOwn(rows, log, c, table, id);
    } else if k: nat :| FirstCall(rows, log, k, id) {
      TracedCalled(rows, log, c, table, id, k);
      assert (log + [c])[k] == log[k];
      forall j: nat | FirstCall(rows, log + [c], j, id) ensures j == k {
        OneFirstCall(rows, log + [c], j, k, id);
      }
    } else {
      TracedUncalled(rows, log, c, table, id);
    }
  }

  lemma TracedIdle(rows: seq<Reference>, log: seq<Captured>, c: Captured, table: seq<Reference>, id: string)
    requires !Usable(c) && Traced(rows, log, table, id)
    ensures Traced(rows, log + [c], table, id)
  {
    var all := log + [c];
    assert all[|log|] == c;
    NamedSnoc(log, c, id);
    if Has(rows, id) {
      FoldSnoc(RowOf(rows, id), log, c);
    }
    forall k: nat | k < |log| ensures FirstCall(rows, all, k, id) <==> FirstCall(rows, log, k, id) {
      FirstCallSnoc(rows, log, c, k, id);
    }
    forall k: nat | FirstCall(rows, all, k, id)
      ensures FirstCall(rows, log, k, id) && FoldRow(Started(rows, log[k]), all[k..])
         == FoldRow(Started(rows, log[k]), log[k..])
    {
      assert all[k..] == log[k..] + [c] && all[k] == log[k];
      FoldSnoc(Started(rows, log[k]), log[k..], c);
    }
  }

  /** Where every row of the table after one pass comes from. */
  lemma {:induction false} ReplayTraced(rows: seq<Reference>, log: seq<Captured>, id: string)
    requires Unique(rows) && AllNormal(log)
    ensures Unique(Replay(rows, log)) && Traced(rows, log, Replay(rows, log), id)
  {
    if log != [] {
      var init, c := log[..|log| - 1], log[|log| - 1];
      assert log == init + [c] && Normal(log[|log| - 1]);
      ReplayTraced(rows, init, id);
      if Usable(c) {
        ReplayTraced(rows, init, c.rawConversationId);
        ReplayOneAt(Replay(rows, init), c, id);
        TracedStep(rows, init, c, Replay(rows, init), id);
      } else {
        TracedIdle(rows, init, c, Replay(rows, init), id);
      }
    }
  }

  /** An event whose id has no row in the table, and which is the first to bring one under that id by
      its raw id: what comes before it the pass has skipped. */
  predicate BringsRow(rows: seq<Reference>, log: seq<Captured>, k: nat) {
    k < |log| && !Has(rows, log[k].conversationId) && FirstCall(rows, log, k, log[k].conversationId)
  }

  /** What the skipped events say is said again later, or is nothing, or is what the row has. */
  ghost predicate SkippedAgree(rows: seq<Reference>, log: seq<Captured>, k: nat)
    requires BringsRow(rows, log, k)
  {
    forall f: Sticky ::
      FieldAgrees(log[..k], log[k..], log[k].conversationId, f, Kept(RowOf(rows, log[k].rawConversationId), f))
  }

  lemma BroughtRowSettled(rows: seq<Reference>, log: seq<Captured>, k: nat)
    requires BringsRow(rows, log, k)
    ensures Settled(FoldRow(Started(rows, log[k]), log[k..]), log) <==> SkippedAgree(rows, log, k)
  {
    var start, id := Started(rows, log[k]), log[k].conversationId;
    var r := FoldRow(start, log[k..]);
    FoldSettles(start, log[k..]);
    assert About(log[k..][0], id);
    SettledWithOlder(r, log[..k], log[k..]);
    assert log[..k] + log[k..] == log;
    forall f: Sticky
      ensures FieldAgrees(log[..k], log[k..], id, f, Kept(r, f))
         <==> FieldAgrees(log[..k], log[k..], id, f, Kept(RowOf(rows, log[k].rawConversationId), f))
    {
      FoldRowText(start, log[k..], f);
      LastTextStart(log[k..], id, f, Kept(start, f));
      assert Kept(start, f) == Kept(RowOf(rows, log[k].rawConversationId), f);
    }
  }

  lemma NormalEvents(log: seq<Captured>, id: string)
    requires AllNormal(log) && !NormalId(id)
    ensures Silent(log, id)
  {
    forall i | 0 <= i < |log| ensures !About(log[i], id) {
      assert Normal(log[i]);
      NormalizeIdempotent(log[i].rawConversationId);
    }
  }

  /** After one pass a row is settled, unless an event brought it and the events before disagree. */
  lemma OnceSettled(rows: seq<Reference>, log: seq<Captured>, id: string)
    requires Unique(rows) && AllNormal(log) && Has(Replay(rows, log), id)
    ensures Settled(RowOf(Replay(rows, log), id), log)
       <==> forall k: nat :: BringsRow(rows, log, k) && log[k].conversationId == id ==> SkippedAgree(rows, log, k)
  {
    ReplayTraced(rows, log, id);
    if !NormalId(id) {
      NormalEvents(log, id);
      SilentSettles(log, RowOf(rows, id));
      assert forall k: nat :: BringsRow(rows, log, k) ==> About(log[k], log[k].conversationId);
    } else if Has(rows, id) {
      FoldSettles(RowOf(rows, id), log);
    } else {
      var k: nat :| FirstCall(rows, log, k, id);
      BroughtRowSettled(rows, log, k);
      forall j: nat | BringsRow(rows, log, j) && log[j].conversationId == id ensures j == k {
        OneFirstCall(rows, log, j, k, id);
      }
    }
  }

  /** One pass reaches a fixed point exactly when, for every event that brings a row under a new id,
      the events about that id before it agree with the row: for each sticky field they say nothing,
      or what the row has, or something is said later. */
  lemma OnePassIff(rows: seq<Reference>, log: seq<Captured>)
    requires Unique(rows) && AllNormal(log)
    ensures Replay(Replay(rows, log), log) == Replay(rows, log)
       <==> forall k: nat :: BringsRow(rows, log, k) ==> SkippedAgree(rows, log, k)
  {
    var once := Replay(rows, log);
    ReplayClears(rows, log);
    ReplayKeepsIff(once, log);
    forall i | 0 <= i < |once|
      ensures Settled(once[i], log)
         <==> forall k: nat ::
                BringsRow(rows, log, k) && log[k].conversationId == once[i].conversationId ==>
                  SkippedAgree(rows, log, k)
    {
      RowOfIs(once, i);
      OnceSettled(rows, log, once[i].conversationId);
    }
    forall k: nat | BringsRow(rows, log, k) ensures Has(once, log[k].conversationId) {
      assert Normal(log[k]);
      NormalizeIdempotent(log[k].rawConversationId);
      ReplayTraced(rows, log, log[k].conversationId);
    }
    if forall i :: 0 <= i < |once| ==> Settled(once[i], log) {
      forall k: nat | BringsRow(rows, log, k) ensures SkippedAgree(rows, log, k) {
        assert Settled(once[Find(once, log[k].conversationId)], log);
      }
    }
  }

  /** In particular one pass is enough for a table without raw rows. */
  lemma OnePassWithoutRawRows(rows: seq<Reference>, log: seq<Captured>)
    requires Unique(rows) && AllNormal(log) && RawGone(rows, log)
    ensures Replay(Replay(rows, log), log) == Replay(rows, log)
  {
    forall k: nat | k < |log|
      ensures Usable(log[k]) && log[k].rawConversationId != log[k].conversationId ==> Renamed(log[k])
    {
      assert Normal(log[k]);
    }
    assert forall k: nat :: !BringsRow(rows, log, k);
    OnePassIff(rows, log);
  }

  // ----- the live run, on captures -----

  datatype Move = Saw(c: Captured, id: nat, names: Names) | Removed(conversationId: string)

  function Table(moves: seq<Move>): seq<Reference> {
    if moves == [] then []
    else
      var rows := Table(moves[..|moves| - 1]);
      match moves[|moves| - 1]
      case Saw(c, id, names) => Upsert(rows, c, id, names)
      case Removed(id) => Delete(rows, id)
  }

  function Log(moves: seq<Move>): seq<Captured> {
    if moves == [] then []
    else
      var rest := Log(moves[..|moves| - 1]);
      match moves[|moves| - 1]
      case Saw(c, _, _) => rest + [c]
      case Removed(_) => rest
  }

  /** The captures since a conversation was last removed. */
  function LogSince(moves: seq<Move>, id: string): seq<Captured> {
    if moves == [] then []
    else
      var rest := LogSince(moves[..|moves| - 1], id);
      match moves[|moves| - 1]
      case Saw(c, _, _) => rest + [c]
      case Removed(removed) => if removed == id then [] else rest
  }

  /** The captures up to that removal. */
  function LogBefore(moves: seq<Move>, id: string): seq<Captured> {
    if moves == [] then []
    else if moves[|moves| - 1] == Removed(id) then Log(moves)
    else LogBefore(moves[..|moves| - 1], id)
  }

  lemma {:induction false} LogSplit(moves: seq<Move>, id: string)
    ensures Log(moves) == LogBefore(moves, id) + LogSince(moves, id)
  {
    if moves != [] {
      LogSplit(moves[..|moves| - 1], id);
    }
  }

  predicate Silent(log: seq<Captured>, id: string) {
    forall i :: 0 <= i < |log| ==> !About(log[i], id)
  }

  lemma SilentSnoc(log: seq<Captured>, c: Captured, id: string)
    ensures Silent(log + [c], id) <==> Silent(log, id) && !About(c, id)
  {
    var all := log + [c];
    assert all[|log|] == c;
    if Silent(all, id) {
      forall i | 0 <= i < |log| ensures !About(log[i], id) {
        assert all[i] == log[i];
      }
    }
  }

  lemma {:induction false} SilentSettles(log: seq<Captured>, r: Reference)
    requires Silent(log, r.conversationId)
    ensures Settled(r, log)
  {
    if log != [] {
      var init := log[..|log| - 1];
      assert forall i :: 0 <= i < |init| ==> init[i] == log[i];
      SilentSettles(init, r);
      OtherSettles(r, init, log[|log| - 1]);
      assert log == init + [log[|log| - 1]];
    }
  }

  predicate NormalId(id: string) {
    NormalizeConversationId(id) == id
  }

  predicate NormalRows(rows: seq<Reference>) {
    forall i :: 0 <= i < |rows| ==> NormalId(rows[i].conversationId)
  }

  ghost predicate RowSettled(r: Reference, moves: seq<Move>) {
    Settled(r, LogSince(moves, r.conversationId)) && !Silent(LogSince(moves, r.conversationId), r.conversationId)
  }

  /** What every live step keeps: unique normalized ids, every row settled by the captures since
      its conversation was last removed, of which there are some, and no such captures without a
      row. */
  ghost predicate Live(rows: seq<Reference>, moves: seq<Move>) {
    && Unique(rows)
    && NormalRows(rows)
    && (forall i :: 0 <= i < |rows| ==> RowSettled(rows[i], moves))
    && (forall id :: Has(rows, id) || Silent(LogSince(moves, id), id))
  }

  lemma UpsertOld(rows: seq<Reference>, c: Captured, id: nat, n: Names, i: nat)
    requires Unique(rows) && Usable(c) && i < |rows|
    ensures |Upsert(rows, c, id, n)| >= |rows|
    ensures Upsert(rows, c, id, n)[i]
         == if About(c, rows[i].conversationId) then Resolve(WithCapture(rows[i], c), n) else rows[i]
  {
    if rows[i].conversationId == c.conversationId {
      FindHit(rows, c.conversationId, i);
    }
  }

  lemma UpsertRowIds(rows: seq<Reference>, c: Captured, id: nat, n: Names)
    requires Usable(c)
    ensures var rows' := Upsert(rows, c, id, n);
      && |rows'| == (if Find(rows, c.conversationId) < |rows| then |rows| else |rows| + 1)
      && (forall i :: 0 <= i < |rows'| ==>
            rows'[i].conversationId == if i < |rows| then rows[i].conversationId else c.conversationId)
  {
  }

  lemma UpsertIds(rows: seq<Reference>, c: Captured, id: nat, n: Names)
    requires Unique(rows) && Usable(c)
    ensures Unique(Upsert(rows, c, id, n))
    ensures forall k :: Has(rows, k) || k == c.conversationId ==> Has(Upsert(rows, c, id, n), k)
    ensures forall i :: 0 <= i < |Upsert(rows, c, id, n)| ==>
              Upsert(rows, c, id, n)[i].conversationId
              == if i < |rows| then rows[i].conversationId else c.conversationId
  {
    var rows' := Upsert(rows, c, id, n);
    var t := Find(rows, c.conversationId);
    UpsertRowIds(rows, c, id, n);
    forall k | Has(rows, k) || k == c.conversationId ensures Has(rows', k) {
      FindHit(rows', k, if k == c.conversationId then t else Find(rows, k));
    }
  }

  lemma SinceAppend(moves: seq<Move>, m: Move, id: string)
    ensures LogSince(moves + [m], id)
         == if m.Saw? then LogSince(moves, id) + [m.c]
            else if m.conversationId == id then [] else LogSince(moves, id)
  {
    assert (moves + [m])[..|moves|] == moves;
  }

  /** One live upsert keeps each row settled. */
  lemma SawSettles(rows: seq<Reference>, moves: seq<Move>, c: Captured, id: nat, n: Names, i: nat)
    requires Live(rows, moves) && i < |Upsert(rows, c, id, n)|
    ensures RowSettled(Upsert(rows, c, id, n)[i], moves + [Saw(c, id, n)])
  {
    var r' := Upsert(rows, c, id, n)[i];
    SinceAppend(moves, Saw(c, id, n), r'.conversationId);
    SilentSnoc(LogSince(moves, r'.conversationId), c, r'.conversationId);
    if !Usable(c) {
      assert RowSettled(rows[i], moves);
      OtherSettles(rows[i], LogSince(moves, rows[i].conversationId), c);
    } else {
      UpsertIds(rows, c, id, n);
      var log := LogSince(moves, r'.conversationId);
      if i < |rows| {
        assert RowSettled(rows[i], moves);
        UpsertOld(rows, c, id, n, i);
        if About(c, rows[i].conversationId) {
          UpsertSettles(rows[i], log, c, n);
        } else {
          OtherSettles(rows[i], log, c);
        }
      } else {
        var blank := BlankReference(id, c.conversationId);
        SilentSettles(log, blank);
        UpsertSettles(blank, log, c, n);
      }
    }
  }

  lemma SawLive(rows: seq<Reference>, moves: seq<Move>, c: Captured, id: nat, n: Names)
    requires Live(rows, moves) && NormalId(c.conversationId)
    ensures Live(Upsert(rows, c, id, n), moves + [Saw(c, id, n)])
  {
    var rows', moves' := Upsert(rows, c, id, n), moves + [Saw(c, id, n)];
    if Usable(c) {
      UpsertIds(rows, c, id, n);
    }
    forall i | 0 <= i < |rows'| ensures RowSettled(rows'[i], moves') {
      SawSettles(rows, moves, c, id, n, i);
    }
    forall k ensures Has(rows', k) || Silent(LogSince(moves', k), k) {
      SinceAppend(moves, Saw(c, id, n), k);
    }
  }

  lemma DeleteIds(rows: seq<Reference>, id: string)
    requires Unique(rows)
    ensures Unique(Delete(rows, id)) && !Has(Delete(rows, id), id)
    ensures forall k :: Has(rows, k) && k != id ==> Has(Delete(rows, id), k)
    ensures forall i :: 0 <= i < |Delete(rows, id)| ==>
              Delete(rows, id)[i] in rows && Delete(rows, id)[i].conversationId != id
  {
    var t, rows' := Find(rows, id), Delete(rows, id);
    if t < |rows| {
      RemoveUnique(rows, t);
    }
    HasIff(rows', id);
    forall i | 0 <= i < |rows'| ensures rows'[i] in rows {
      assert rows'[i] == rows[if i < t then i else i + 1];
    }
  }

  lemma RemovedLive(rows: seq<Reference>, moves: seq<Move>, id: string)
    requires Live(rows, moves)
    ensures Live(Delete(rows, id), moves + [Removed(id)])
  {
    var rows', moves' := Delete(rows, id), moves + [Removed(id)];
    DeleteIds(rows, id);
    forall i | 0 <= i < |rows'|
      ensures NormalId(rows'[i].conversationId) && RowSettled(rows'[i], moves')
    {
      var j :| 0 <= j < |rows| && rows[j] == rows'[i];
      assert RowSettled(rows[j], moves);
      SinceAppend(moves, Removed(id), rows'[i].conversationId);
    }
    forall k ensures Has(rows', k) || Silent(LogSince(moves', k), k) {
      SinceAppend(moves, Removed(id), k);
    }
  }

  predicate NormalMoves(moves: seq<Move>) {
    forall i :: 0 <= i < |moves| ==> moves[i].Saw? ==> Normal(moves[i].c)
  }

  lemma {:induction false} TableIsLive(moves: seq<Move>)
    requires NormalMoves(moves)
    ensures Live(Table(moves), moves)
  {
    if moves == [] {
      assert forall id :: Silent(LogSince([], id), id);
    } else {
      var init, last := moves[..|moves| - 1], moves[|moves| - 1];
      assert NormalMoves(init) by { assert forall i :: 0 <= i < |init| ==> init[i] == moves[i]; }
      TableIsLive(init);
      assert moves == init + [last];
      match last {
        case Saw(c, id, names) =>
          assert Normal(moves[|moves| - 1].c);
          NormalizeIdempotent(c.rawConversationId);
          SawLive(Table(init), init, c, id, names);
        case Removed(id) =>
          RemovedLive(Table(init), init, id);
      }
    }
  }

  // ----- the retained log -----

  /** No retained capture of a conversation is older than the conversation's last removal. */
  predicate NoneStale(moves: seq<Move>, id: string, k: nat) {
    forall i :: k <= i < |LogBefore(moves, id)| ==> !About(LogBefore(moves, id)[i], id)
  }

  /** What older captures say about a settled row is overruled by newer ones, or is what the row
      has: for each sticky field a newer capture gives a text, or the older ones give none, or they
      give the row's. */
  ghost predicate OlderAgrees(r: Reference, older: seq<Captured>, since: seq<Captured>) {
    forall f: Sticky :: FieldAgrees(older, since, r.conversationId, f, Kept(r, f))
  }

  predicate FieldAgrees(older: seq<Captured>, since: seq<Captured>, id: string, f: Sticky, kept: string) {
    var said := LastText(older, id, f, "");
    LastText(since, id, f, "") != "" || said == "" || said == kept
  }

  lemma {:induction false} LastWriteHeard(log: seq<Captured>, id: string, a: Overwritten, b: Overwritten)
    requires !Silent(log, id)
    ensures LastWrite(log, id, a) == LastWrite(log, id, b)
  {
    var init, last := log[..|log| - 1], log[|log| - 1];
    if !About(last, id) {
      assert log == init + [last];
      SilentSnoc(init, last, id);
      LastWriteHeard(init, id, a, b);
    }
  }

  lemma TextWithOlder(older: seq<Captured>, since: seq<Captured>, id: string, f: Sticky, kept: string)
    requires LastText(since, id, f, kept) == kept
    ensures LastText(older + since, id, f, kept) == kept <==> FieldAgrees(older, since, id, f, kept)
  {
    LastTextAppend(older, since, id, f, kept);
    LastTextStart(older, id, f, kept);
    LastTextStart(since, id, f, kept);
    LastTextStart(since, id, f, LastText(older, id, f, kept));
  }

  /** A row settled by newer captures is settled by older ones before them exactly when they agree. */
  lemma SettledWithOlder(r: Reference, older: seq<Captured>, since: seq<Captured>)
    requires Settled(r, since) && !Silent(since, r.conversationId)
    ensures Settled(r, older + since) <==> OlderAgrees(r, older, since)
  {
    var id, w := r.conversationId, OverwrittenIn(r);
    LastWriteAppend(older, since, id, w);
    LastWriteHeard(since, id, LastWrite(older, id, w), w);
    forall f: Sticky
      ensures LastText(older + since, id, f, Kept(r, f)) == Kept(r, f) <==> FieldAgrees(older, since, id, f, Kept(r, f))
    {
      TextWithOlder(older, since, id, f, Kept(r, f));
    }
  }

  lemma {:induction false} SilentSaysNothing(log: seq<Captured>, id: string, f: Sticky)
    requires Silent(log, id)
    ensures LastText(log, id, f, "") == ""
  {
    if log != [] {
      var init := log[..|log| - 1];
      assert log == init + [log[|log| - 1]];
      SilentSnoc(init, log[|log| - 1], id);
      SilentSaysNothing(init, id, f);
    }
  }

  lemma SilentAgrees(r: Reference, older: seq<Captured>, since: seq<Captured>)
    requires Silent(older, r.conversationId)
    ensures OlderAgrees(r, older, since)
  {
    forall f: Sticky ensures FieldAgrees(older, since, r.conversationId, f, Kept(r, f)) {
      SilentSaysNothing(older, r.conversationId, f);
    }
  }

  lemma DropConcat<T>(a: seq<T>, b: seq<T>, k: nat)
    requires k <= |a| + |b|
    ensures k <= |a| ==> (a + b)[k..] == a[k..] + b
    ensures k > |a| ==> (a + b)[k..] == b[k - |a|..] && b == b[..k - |a|] + b[k - |a|..]
  {
  }

  /** The part of `log` from position `k` on. */
  function Retained(log: seq<Captured>, k: nat): seq<Captured> {
    if k <= |log| then log[k..] else []
  }

  lemma RetainedIff(r: Reference, before: seq<Captured>, since: seq<Captured>, k: nat)
    requires k <= |before| + |since| && Settled(r, since) && !Silent(since, r.conversationId)
    ensures Settled(r, (before + since)[k..]) <==> OlderAgrees(r, Retained(before, k), since)
  {
    DropConcat(before, since, k);
    if k <= |before| {
      SettledWithOlder(r, before[k..], since);
    } else {
      SettledSuffix(r, since[..k - |before|], since[k - |before|..]);
      SilentAgrees(r, [], since);
    }
  }

  lemma NoRawRows(rows: seq<Reference>, log: seq<Captured>)
    requires AllNormal(log) && NormalRows(rows)
    ensures RawGone(rows, log)
  {
    forall k | 0 <= k < |log| && Renamed(log[k]) ensures !Has(rows, log[k].rawConversationId) {
      HasIff(rows, log[k].rawConversationId);
    }
  }

  lemma {:induction false} LogNormal(moves: seq<Move>)
    requires NormalMoves(moves)
    ensures AllNormal(Log(moves))
  {
    if moves != [] {
      var init := moves[..|moves| - 1];
      assert NormalMoves(init) by { assert forall i :: 0 <= i < |init| ==> init[i] == moves[i]; }
      LogNormal(init);
      assert moves[|moves| - 1].Saw? ==> Normal(moves[|moves| - 1].c);
    }
  }

  /** The retained captures of a row's conversation from before its last removal agree with it. */
  ghost predicate RemovedAgree(moves: seq<Move>, r: Reference, k: nat) {
    var id := r.conversationId;
    OlderAgrees(r, Retained(LogBefore(moves, id), k), LogSince(moves, id))
  }

  lemma ReplayKeepsTableIff(moves: seq<Move>, k: nat)
    requires NormalMoves(moves) && k <= |Log(moves)|
    ensures Replay(Table(moves), Log(moves)[k..]) == Table(moves)
       <==> forall i :: 0 <= i < |Table(moves)| ==> RemovedAgree(moves, Table(moves)[i], k)
  {
    var rows, log := Table(moves), Log(moves)[k..];
    TableIsLive(moves);
    LogNormal(moves);
    forall i | 0 <= i < |rows| ensures Settled(rows[i], log) <==> RemovedAgree(moves, rows[i], k) {
      var id := rows[i].conversationId;
      assert RowSettled(rows[i], moves);
      LogSplit(moves, id);
      RetainedIff(rows[i], LogBefore(moves, id), LogSince(moves, id), k);
    }
    assert AllNormal(log);
    NoRawRows(rows, log);
    ReplayKeepsIff(rows, log);
  }

  lemma NoneStaleAgrees(moves: seq<Move>, r: Reference, k: nat)
    requires NoneStale(moves, r.conversationId, k)
    ensures RemovedAgree(moves, r, k)
  {
    var before := LogBefore(moves, r.conversationId);
    assert forall i :: 0 <= i < |Retained(before, k)| ==> Retained(before, k)[i] == before[k + i];
    SilentAgrees(r, Retained(before, k), LogSince(moves, r.conversationId));
  }

  /** Without removals nothing is stale. */
  lemma {:induction false} NothingStale(moves: seq<Move>, id: string, k: nat)
    requires forall i :: 0 <= i < |moves| ==> moves[i].Saw?
    ensures NoneStale(moves, id, k)
  {
    if moves != [] {
      assert moves[|moves| - 1].Saw?;
      NothingStale(moves[..|moves| - 1], id, k);
    }
  }

  // ----- the live run, on activities -----

  datatype Step = Receive(activity: Json, id: nat, names: Names) | Remove(conversationId: string)

  datatype State = State(rows: seq<Reference>, events: seq<Event>)

  /** An activity is stored and its capture upserted; an administrator removes a reference. */
  function Next(s: State, step: Step): State {
    match step
    case Receive(activity, id, names) =>
      State(Upsert(s.rows, Extract(activity), id, names), s.events + [Store(activity)])
    case Remove(conversationId) => s.(rows := Delete(s.rows, conversationId))
  }

  function Run(steps: seq<Step>): State {
    if steps == [] then State([], []) else Next(Run(steps[..|steps| - 1]), steps[|steps| - 1])
  }

  /** What startup reads back from the stored activity is what was captured. */
  predicate StepRereads(step: Step) {
    step.Receive? ==> step.activity.Obj? && Rereads(step.activity)
  }

  function MoveOf(step: Step): Move {
    match step
    case Receive(activity, id, names) => Saw(Extract(activity), id, names)
    case Remove(conversationId) => Removed(conversationId)
  }

  function Moves(steps: seq<Step>): seq<Move> {
    Mapped(steps, MoveOf)
  }

  lemma MovesNormal(steps: seq<Step>)
    ensures NormalMoves(Moves(steps))
  {
    forall i | 0 <= i < |steps| && Moves(steps)[i].Saw? ensures Normal(Moves(steps)[i].c) {
      assert Moves(steps)[i] == MoveOf(steps[i]);
    }
  }

  lemma StoredOne(events: seq<Event>, activity: Json)
    requires StepRereads(Receive(activity, 0, Names("", "", "")))
    ensures Captures(events + [Store(activity)]) == Captures(events) + [Extract(activity)]
  {
    ExtractionAgreesIff(activity);
    MappedOne(events, Store(activity), ExtractStored);
  }

  lemma {:induction false} RunIsTable(steps: seq<Step>)
    ensures Run(steps).rows == Table(Moves(steps))
  {
    if steps != [] {
      var init := steps[..|steps| - 1];
      RunIsTable(init);
      assert Moves(steps)[..|steps| - 1] == Moves(init);
    }
  }

  /** The stored events, read back, are the captures of the run. */
  lemma {:induction false} RunIsLog(steps: seq<Step>)
    requires forall i :: 0 <= i < |steps| ==> StepRereads(steps[i])
    ensures Captures(Run(steps).events) == Log(Moves(steps))
  {
    if steps != [] {
      var init, last := steps[..|steps| - 1], steps[|steps| - 1];
      RunIsLog(init);
      assert Moves(steps)[..|steps| - 1] == Moves(init);
      assert StepRereads(steps[|steps| - 1]);
      if last.Receive? {
        StoredOne(Run(init).events, last.activity);
      }
    }
  }

  lemma MappedSuffix<A, B>(s: seq<A>, k: nat, f: A -> B)
    requires k <= |s|
    ensures Mapped(s[k..], f) == Mapped(s, f)[k..]
  {
  }

  const NOTHING := OverwrittenIn(BlankReference(0, ""))

  /** The last retained event of the row's conversation, as re-read, writes what the last live capture
      wrote, and the last text the retained events give a sticky field is none or the row's. */
  ghost predicate RereadAgree(r: Reference, live: seq<Captured>, retained: seq<Captured>) {
    var id := r.conversationId;
    && (Silent(retained, id) || LastWrite(retained, id, NOTHING) == LastWrite(live, id, NOTHING))
    && forall f: Sticky :: LastText(retained, id, f, "") == "" || LastText(retained, id, f, "") == Kept(r, f)
  }

  ghost predicate AllRereadAgree(rows: seq<Reference>, moves: seq<Move>, retained: seq<Captured>) {
    forall i :: 0 <= i < |rows| ==> RereadAgree(rows[i], LogSince(moves, rows[i].conversationId), retained)
  }

  lemma SettledRereadIff(r: Reference, live: seq<Captured>, retained: seq<Captured>)
    requires Settled(r, live) && !Silent(live, r.conversationId)
    ensures Settled(r, retained) <==> RereadAgree(r, live, retained)
  {
    var id, w := r.conversationId, OverwrittenIn(r);
    LastWriteHeard(live, id, w, NOTHING);
    if Silent(retained, id) {
      SilentSettles(retained, r);
    } else {
      LastWriteHeard(retained, id, w, NOTHING);
    }
    forall f: Sticky
      ensures LastText(retained, id, f, Kept(r, f)) == Kept(r, f)
         <==> LastText(retained, id, f, "") == "" || LastText(retained, id, f, "") == Kept(r, f)
    {
      LastTextStart(retained, id, f, Kept(r, f));
    }
  }

  /** Replay against the live table for every run, whatever the stored activities read back as: replaying
      any retained suffix of the log leaves every row as it is if and only if, conversation by
      conversation, what the retained events say last is what the row has. */
  lemma ReplayKeepsRunIff(steps: seq<Step>, k: nat)
    requires k <= |Run(steps).events|
    ensures Replay(Run(steps).rows, Captures(Run(steps).events[k..])) == Run(steps).rows
       <==> AllRereadAgree(Run(steps).rows, Moves(steps), Captures(Run(steps).events[k..]))
  {
    var rows, retained := Run(steps).rows, Captures(Run(steps).events[k..]);
    RunIsTable(steps);
    MovesNormal(steps);
    TableIsLive(Moves(steps));
    assert AllNormal(retained);
    NoRawRows(rows, retained);
    ReplayKeepsIff(rows, retained);
    forall i | 0 <= i < |rows|
      ensures Settled(rows[i], retained)
         <==> RereadAgree(rows[i], LogSince(Moves(steps), rows[i].conversationId), retained)
    {
      assert RowSettled(rows[i], Moves(steps));
      SettledRereadIff(rows[i], LogSince(Moves(steps), rows[i].conversationId), retained);
    }
  }

  /** Replay agrees with the live table, exactly: after any run of received activities and removals,
      with any answers for blank names, replaying any retained suffix of the stored log leaves every
      row as it is if and only if the retained captures from before a conversation's last removal
      agree with its row. */
  lemma ReplayKeepsLiveIff(steps: seq<Step>, k: nat)
    requires forall i :: 0 <= i < |steps| ==> StepRereads(steps[i])
    requires k <= |Run(steps).events|
    ensures Replay(Run(steps).rows, Captures(Run(steps).events[k..])) == Run(steps).rows
       <==> forall i :: 0 <= i < |Run(steps).rows| ==> RemovedAgree(Moves(steps), Run(steps).rows[i], k)
  {
    RunIsTable(steps);
    RunIsLog(steps);
    MovesNormal(steps);
    MappedSuffix(Run(steps).events, k, ExtractStored);
    ReplayKeepsTableIff(Moves(steps), k);
  }

  /** So it does whenever no retained event predates its conversation's last removal. */
  lemma ReplayKeepsLive(steps: seq<Step>, k: nat)
    requires forall i :: 0 <= i < |steps| ==> StepRereads(steps[i])
    requires k <= |Run(steps).events|
    requires forall i :: 0 <= i < |Run(steps).rows| ==> NoneStale(Moves(steps), Run(steps).rows[i].conversationId, k)
    ensures Replay(Run(steps).rows, Captures(Run(steps).events[k..])) == Run(steps).rows
  {
    forall i | 0 <= i < |Run(steps).rows| ensures RemovedAgree(Moves(steps), Run(steps).rows[i], k) {
      NoneStaleAgrees(Moves(steps), Run(steps).rows[i], k);
    }
    ReplayKeepsLiveIff(steps, k);
  }

  /** In particular without removals, for every run and every retained suffix. */
  lemma ReplayKeepsLiveWithoutRemovals(steps: seq<Step>, k: nat)
    requires forall i :: 0 <= i < |steps| ==> steps[i].Receive? && StepRereads(steps[i])
    requires k <= |Run(steps).events|
    ensures Replay(Run(steps).rows, Captures(Run(steps).events[k..])) == Run(steps).rows
  {
    forall i | 0 <= i < |Run(steps).rows|
      ensures NoneStale(Moves(steps), Run(steps).rows[i].conversationId, k)
    {
      NothingStale(Moves(steps), Run(steps).rows[i].conversationId, k);
    }
    ReplayKeepsLive(steps, k);
  }

  /** After a removal the agreement can fail: an event older than the removal refills a name
      that the re-created reference does not have. */
  lemma RemovedNameReturns(first: Captured, second: Captured, id: nat)
    requires Usable(first) && Usable(second) && Normal(first) && Normal(second)
    requires first.conversationId == second.conversationId
    requires first.teamName != "" && second.teamName == ""
    ensures var none := Names("", "", "");
      var live := Table([Saw(first, id, none), Removed(first.conversationId), Saw(second, id, none)]);
      Replay(live, [first, second]) != live
  {
    var none := Names("", "", "");
    var row := Resolve(WithCapture(BlankReference(id, second.conversationId), second), none);
    RecreatedTable(Saw(first, id, none), Saw(second, id, none));
    NormalizeIdempotent(second.rawConversationId);
    NoRawRows([row], [first, second]);
    ReplayRows([row], [first, second]);
    RefilledName(row, first, second);
    assert Table([Saw(first, id, none), Removed(first.conversationId), Saw(second, id, none)]) == [row];
    assert Replay([row], [first, second])[0] == FoldRow([row][0], [first, second]);
  }

  lemma RecreatedTable(saw: Move, again: Move)
    requires saw.Saw? && again.Saw? && Usable(saw.c) && Usable(again.c)
    ensures Table([saw, Removed(saw.c.conversationId), again])
         == [Resolve(WithCapture(BlankReference(again.id, again.c.conversationId), again.c), again.names)]
  {
    hide Resolve, WithCapture, BlankReference;
    var removed := Removed(saw.c.conversationId);
    UpsertRowIds([], saw.c, saw.id, saw.names);
    TableSnoc([], saw);
    TableSnoc([saw], removed);
    TableSnoc([saw, removed], again);
    assert [] + [saw] == [saw] && [saw] + [removed] == [saw, removed];
    assert [saw, removed] + [again] == [saw, removed, again];
    DeleteIds(Table([saw]), saw.c.conversationId);
  }

  lemma TableSnoc(moves: seq<Move>, m: Move)
    ensures Table(moves + [m])
         == if m.Saw? then Upsert(Table(moves), m.c, m.id, m.names) else Delete(Table(moves), m.conversationId)
  {
    assert (moves + [m])[..|moves|] == moves;
  }

  lemma RefilledName(row: Reference, first: Captured, second: Captured)
    requires About(first, row.conversationId) && row.teamName == ""
    requires first.teamName != "" && second.teamName == ""
    ensures FoldRow(row, [first, second]) != row
  {
    var log := [first, second];
    assert log[..1] == [first] && [first][..0] == [];
    FoldRowText(row, log, TeamName);
    assert LastText([first], row.conversationId, TeamName, "") == first.teamName;
  }
}
