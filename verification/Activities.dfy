/** Incoming bot activities: what the live handler reads from one, what it stores of it, and
    what startup reads back from the stored record. */
module Activities {
  import opened Text

  datatype Json =
    | Null
    | Bool(truth: bool)
    | Number(digits: string)
    | Str(chars: string)
    | Arr(items: seq<Json>)
    | Obj(fields: map<string, Json>)

  /** `_dict(value).get(key)`. */
  function Get(j: Json, key: string): Json {
    if j.Obj? && key in j.fields then j.fields[key] else Null
  }

  /** `_string`. */
  function Read(j: Json): string {
    if j.Str? then Trim(j.chars) else ""
  }

  const MAX_CHARS := 2000
  const MAX_ITEMS := 25

  /** `_truncate`. */
  function Truncate(j: Json): Json {
    match j
    case Str(s) => Str(Clip(s, MAX_CHARS))
    case Arr(items) =>
      var n := if |items| <= MAX_ITEMS then |items| else MAX_ITEMS;
      Arr(seq(n, i requires 0 <= i < n => Truncate(items[i])))
    case Obj(fields) => Obj(map k | k in fields :: Truncate(fields[k]))
    case _ => j
  }

  const STORED_KEYS := {
    "type", "id", "timestamp", "serviceUrl", "channelId", "from", "conversation", "recipient",
    "channelData", "membersAdded", "membersRemoved", "name"
  }

  /** `_safe_activity`: the allowed top-level fields, cut down, and a preview of the text. */
  function SafeActivity(activity: Json): Json {
    if !activity.Obj? then Obj(map[])
    else
      var kept := map k | k in activity.fields && k in STORED_KEYS :: Truncate(activity.fields[k]);
      var text := Get(activity, "text");
      if text.Str? && text.chars != "" then Obj(kept["text_preview" := Str(Clip(text.chars, 200))]) else Obj(kept)
  }

  const MESSAGE_MARK := ";messageid="

  /** `_normalize_conversation_id`: the part before the first message marker. */
  function NormalizeConversationId(id: string): (r: string)
    ensures r <= id
  {
    if id == "" || StartsWith(id, MESSAGE_MARK) then "" else [id[0]] + NormalizeConversationId(id[1..])
  }

  lemma {:induction false} NormalizeIdempotent(id: string)
    ensures NormalizeConversationId(NormalizeConversationId(id)) == NormalizeConversationId(id)
  {
    var r := NormalizeConversationId(id);
    if r != "" {
      NormalizeIdempotent(id[1..]);
      assert r[1..] == NormalizeConversationId(id[1..]);
    }
  }

  datatype Captured = Captured(
    activityType: string,
    serviceUrl: string,
    conversationId: string,
    rawConversationId: string,
    tenantId: string,
    teamId: string,
    graphTeamId: string,
    channelId: string,
    conversationType: string,
    isGroup: bool,
    teamName: string,
    channelName: string,
    fromId: string,
    userName: string,
    graphUserId: string)

  // ----- the strings both extractors read -----

  datatype Conversation = Conversation(id: string, kind: string, tenantId: string, name: string, isGroup: bool)

  function ReadConversation(read: Json -> string, j: Json): Conversation {
    Conversation(
      read(Get(j, "id")),
      Lower(read(Get(j, "conversationType"))),
      read(Get(j, "tenantId")),
      read(Get(j, "name")),
      Get(j, "isGroup") == Bool(true))
  }

  datatype Sender = Sender(id: string, name: string, aadObjectId: string)

  function ReadSender(read: Json -> string, j: Json): Sender {
    Sender(read(Get(j, "id")), read(Get(j, "name")), read(Get(j, "aadObjectId")))
  }

  datatype Place = Place(
    tenantId: string,
    teamId: string,
    aadGroupId: string,
    teamName: string,
    teamsTeamId: string,
    channelId: string,
    channelName: string,
    teamsChannelId: string,
    selectedId: string,
    selectedName: string)

  function ReadPlace(read: Json -> string, channelData: Json): Place {
    var tenant := Get(channelData, "tenant");
    var team := Get(channelData, "team");
    var channel := Get(channelData, "channel");
    var selected := Get(Get(channelData, "settings"), "selectedChannel");
    Place(
      read(Get(tenant, "id")),
      read(Get(team, "id")),
      read(Get(team, "aadGroupId")),
      read(Get(team, "name")),
      read(Get(channelData, "teamsTeamId")),
      read(Get(channel, "id")),
      read(Get(channel, "name")),
      read(Get(channelData, "teamsChannelId")),
      read(Get(selected, "id")),
      read(Get(selected, "name")))
  }

  datatype Fields = Fields(serviceUrl: string, conversation: Conversation, sender: Sender, place: Place)

  /** The fields of an activity, with `read` on every string. */
  function FieldsWith(read: Json -> string, activity: Json): Fields {
    Fields(
      read(Get(activity, "serviceUrl")),
      ReadConversation(read, Get(activity, "conversation")),
      ReadSender(read, Get(activity, "from")),
      ReadPlace(read, Get(activity, "channelData")))
  }

  function ReadFields(activity: Json): Fields {
    FieldsWith(Read, activity)
  }

  /** The channel the activity names, or the conversation itself when it is a channel. */
  function ChannelOf(f: Fields, conversationId: string): string {
    var p := f.place;
    Or(Or(Or(p.channelId, p.teamsChannelId), p.selectedId),
       if f.conversation.kind == "channel" then conversationId else "")
  }

  /** `_extract_activity`. */
  function Extract(activity: Json): Captured {
    Capture(Read(Get(activity, "type")), ReadFields(activity))
  }

  function Capture(activityType: string, f: Fields): Captured {
    var id := NormalizeConversationId(f.conversation.id);
    Captured(
      activityType,
      f.serviceUrl,
      id,
      f.conversation.id,
      Or(f.place.tenantId, f.conversation.tenantId),
      Or(f.place.teamId, f.place.teamsTeamId),
      f.place.aadGroupId,
      ChannelOf(f, id),
      Clip(f.conversation.kind, 40),
      f.conversation.isGroup,
      Clip(f.place.teamName, 200),
      Clip(Or(Or(f.place.channelName, f.place.selectedName), f.conversation.name), 200),
      f.sender.id,
      Clip(f.sender.name, 200),
      f.sender.aadObjectId)
  }

  /** The trimmed text under one key, or a path of two or three; "" where there is none. */
  function Under(j: Json, k: string): string {
    Read(Get(j, k))
  }

  function Under2(j: Json, k: string, l: string): string {
    Under(Get(j, k), l)
  }

  function Under3(j: Json, k: string, l: string, m: string): string {
    Under2(Get(j, k), l, m)
  }

  /** Where the captured conversation, sender and team come from; of several places the first with a
      text that is not blank. */
  lemma CapturedFrom(a: Json)
    ensures var c := Extract(a);
      && c.activityType == Under(a, "type") && c.serviceUrl == Under(a, "serviceUrl")
      && c.rawConversationId == Under2(a, "conversation", "id")
      && c.conversationId == NormalizeConversationId(c.rawConversationId)
      && c.conversationType == Clip(Lower(Under2(a, "conversation", "conversationType")), 40)
      && (c.isGroup <==> Get(Get(a, "conversation"), "isGroup") == Bool(true))
      && c.tenantId == Or(Under3(a, "channelData", "tenant", "id"), Under2(a, "conversation", "tenantId"))
      && c.teamId == Or(Under3(a, "channelData", "team", "id"), Under2(a, "channelData", "teamsTeamId"))
      && c.graphTeamId == Under3(a, "channelData", "team", "aadGroupId")
      && c.teamName == Clip(Under3(a, "channelData", "team", "name"), 200)
      && c.fromId == Under2(a, "from", "id") && c.userName == Clip(Under2(a, "from", "name"), 200)
      && c.graphUserId == Under2(a, "from", "aadObjectId")
  {
    hide Get, Read, Clip, Lower, NormalizeConversationId, ChannelOf, Or;
  }

  /** The channel is the one the activity names, or the conversation itself when it is a channel. */
  lemma CapturedChannel(a: Json)
    ensures var c := Extract(a);
      var named := Or(Or(Under3(a, "channelData", "channel", "id"), Under2(a, "channelData", "teamsChannelId")),
                      Under2(Get(Get(a, "channelData"), "settings"), "selectedChannel", "id"));
      var name := Or(Or(Under3(a, "channelData", "channel", "name"),
                        Under2(Get(Get(a, "channelData"), "settings"), "selectedChannel", "name")),
                     Under2(a, "conversation", "name"));
      && (named != "" ==> c.channelId == named)
      && (named == "" && Lower(Under2(a, "conversation", "conversationType")) == "channel" ==>
            c.channelId == c.conversationId)
      && (named == "" && Lower(Under2(a, "conversation", "conversationType")) != "channel" ==> c.channelId == "")
      && c.channelName == Clip(name, 200)
  {
    hide Get, Read, Clip, Lower, NormalizeConversationId;
  }

  /** A stored activity event: the captured fields it copies, and the reduced activity. */
  datatype Event = Event(fields: Captured, raw: Json)

  function Store(activity: Json): Event {
    Event(Extract(activity), SafeActivity(activity))
  }

  /** `_extract_bot_activity`: the stored activity first, the copied fields as a fallback. */
  function ExtractStored(event: Event): Captured {
    Refill(ReadFields(event.raw), event.fields)
  }

  function Refill(f: Fields, copied: Captured): Captured {
    var rawId := Or(f.conversation.id, copied.conversationId);
    var id := NormalizeConversationId(rawId);
    Captured(
      copied.activityType,
      Or(f.serviceUrl, copied.serviceUrl),
      id,
      rawId,
      Or(Or(f.place.tenantId, f.conversation.tenantId), copied.tenantId),
      Or(Or(f.place.teamId, f.place.teamsTeamId), copied.teamId),
      Or(f.place.aadGroupId, copied.graphTeamId),
      Or(ChannelOf(f, id), copied.channelId),
      Clip(Or(f.conversation.kind, copied.conversationType), 40),
      f.conversation.isGroup,
      Clip(Or(f.place.teamName, copied.teamName), 200),
      Clip(Or(Or(Or(f.place.channelName, f.place.selectedName), f.conversation.name), copied.channelName), 200),
      Or(f.sender.id, copied.fromId),
      Clip(Or(f.sender.name, copied.userName), 200),
      Or(f.sender.aadObjectId, copied.graphUserId))
  }

  // ----- stored and live extraction agree -----

  /** Nothing but white space is cut off. */
  predicate Fits(j: Json) {
    j.Str? && |j.chars| > MAX_CHARS ==> Blank(j.chars[MAX_CHARS..])
  }

  /** What is kept of the string is white space alone. */
  predicate BlankWhenCut(j: Json) {
    j.Str? && Blank(Clip(j.chars, MAX_CHARS))
  }

  /** What a string reads as after it was cut. */
  function ReadCut(j: Json): string {
    if j.Str? then Trim(Clip(j.chars, MAX_CHARS)) else ""
  }

  lemma GetTruncated(j: Json, key: string)
    ensures Get(Truncate(j), key) == Truncate(Get(j, key))
  {
  }

  lemma GetStored(activity: Json, key: string)
    requires key in STORED_KEYS && activity.Obj?
    ensures Get(SafeActivity(activity), key) == Truncate(Get(activity, key))
  {
    assert "text_preview" !in STORED_KEYS;
  }

  /** Trimming the kept 2000 characters gives the trimmed text exactly when only blanks were cut. */
  lemma ReadTruncated(j: Json)
    ensures Read(Truncate(j)) == Read(j) <==> Fits(j)
  {
    if j.Str? && |j.chars| > MAX_CHARS {
      var s := j.chars;
      var head, tail := s[..MAX_CHARS], s[MAX_CHARS..];
      assert s == head + tail;
      if Blank(tail) {
        TrimBlankTail(head, tail);
      } else {
        TrimLongTail(head, tail);
      }
    }
  }

  lemma TrimBlankTail(head: string, tail: string)
    requires Blank(tail)
    ensures Trim(head + tail) == Trim(head)
  {
    DropEndTail(head, tail);
    DropBoth(head + tail);
    DropBoth(head);
  }

  lemma {:induction false} DropEndTail(head: string, tail: string)
    requires Blank(tail)
    ensures DropEndWhile(head + tail, IsSpace) == DropEndWhile(head, IsSpace)
  {
    if tail == "" {
      assert head + tail == head;
    } else {
      var init := tail[..|tail| - 1];
      DropEndTail(head, init);
      assert (head + tail)[..|head + tail| - 1] == head + init;
    }
  }

  /** Both ends may be stripped in either order. */
  lemma {:induction false} DropBoth(s: string)
    ensures Trim(s) == DropWhile(DropEndWhile(s, IsSpace), IsSpace)
  {
    if s != "" && IsSpace(s[|s| - 1]) {
      var init := s[..|s| - 1];
      DropBoth(init);
      DropFrontInit(s);
    }
  }

  lemma {:induction false} DropWhileSplit(pre: string, d: string, p: char -> bool)
    requires forall i :: 0 <= i < |pre| ==> p(pre[i])
    requires d != "" ==> !p(d[0])
    ensures DropWhile(pre + d, p) == d
  {
    if pre == "" {
      assert pre + d == d;
    } else {
      ConsAppend(pre, d);
      DropWhileSplit(pre[1..], d, p);
    }
  }

  lemma AppendInit(pre: string, d: string)
    requires d != ""
    ensures (pre + d)[..|pre + d| - 1] == pre + d[..|d| - 1]
  {
  }

  lemma TrimSplit(pre: string, d: string)
    requires Blank(pre) && (d != "" ==> !IsSpace(d[0]))
    ensures Trim(pre + d) == DropEndWhile(d, IsSpace)
  {
    DropWhileSplit(pre, d, IsSpace);
  }

  lemma FrontSplits(s: string) returns (pre: string, d: string)
    ensures s == pre + d && Blank(pre) && (d != "" ==> !IsSpace(d[0]))
  {
    d := DropWhile(s, IsSpace);
    pre := s[..|s| - |d|];
  }

  /** Stripping the front leaves the end of `s` where it is. */
  lemma DropFrontInit(s: string)
    requires s != "" && IsSpace(s[|s| - 1])
    ensures Trim(s) == Trim(s[..|s| - 1])
  {
    var pre, d := FrontSplits(s);
    TrimSplit(pre, d);
    if d == "" {
      TrimSplit(s[..|s| - 1], "");
      assert s[..|s| - 1] + "" == s[..|s| - 1];
    } else {
      AppendInit(pre, d);
      TrimSplit(pre, d[..|d| - 1]);
    }
  }

  /** Text that is not blank behind `head` shows up in the stripped result. */
  lemma TrimLongTail(head: string, tail: string)
    requires !Blank(tail)
    ensures Trim(head + tail) != Trim(head)
  {
    hide Trim, DropWhile, DropEndWhile;
    var pre, d := FrontSplits(head);
    var i :| 0 <= i < |tail| && !IsSpace(tail[i]);
    TrimSplit(pre, d);
    if d == "" {
      assert head + "" == head && pre + d == pre;
      TrimFixes(head + tail);
      assert (head + tail)[|head| + i] == tail[i];
      assert !Blank(head + tail);
    } else {
      Concat3(pre, d, tail);
      TrimSplit(pre, d + tail);
      assert (d + tail)[|d| + i] == tail[i];
      EndLength(d + tail, |d| + i);
    }
  }

  lemma CutIsRead(j: Json)
    ensures ReadCut(j) == Read(Truncate(j))
  {
  }

  lemma CutIff(j: Json)
    ensures ReadCut(j) == Read(j) <==> Fits(j)
    ensures ReadCut(j) == "" <==> BlankWhenCut(j) || !j.Str?
  {
    CutIsRead(j);
    ReadTruncated(j);
    if j.Str? {
      TrimFixes(Clip(j.chars, MAX_CHARS));
    }
  }

  lemma ReadChild(parent: Json, key: string)
    ensures Read(Get(Truncate(parent), key)) == ReadCut(Get(parent, key))
  {
    GetTruncated(parent, key);
    CutIsRead(Get(parent, key));
  }

  lemma ConversationCut(j: Json)
    ensures ReadConversation(Read, Truncate(j)) == ReadConversation(ReadCut, j)
  {
    ReadChild(j, "id");
    ReadChild(j, "conversationType");
    ReadChild(j, "tenantId");
    ReadChild(j, "name");
    GetTruncated(j, "isGroup");
  }

  lemma SenderCut(j: Json)
    ensures ReadSender(Read, Truncate(j)) == ReadSender(ReadCut, j)
  {
    ReadChild(j, "id");
    ReadChild(j, "name");
    ReadChild(j, "aadObjectId");
  }

  lemma PlaceCut(data: Json)
    ensures ReadPlace(Read, Truncate(data)) == ReadPlace(ReadCut, data)
  {
    GetTruncated(data, "tenant");
    GetTruncated(data, "team");
    GetTruncated(data, "channel");
    GetTruncated(data, "settings");
    GetTruncated(Get(data, "settings"), "selectedChannel");
    ReadChild(Get(data, "tenant"), "id");
    ReadChild(Get(data, "team"), "id");
    ReadChild(Get(data, "team"), "aadGroupId");
    ReadChild(Get(data, "team"), "name");
    ReadChild(Get(data, "channel"), "id");
    ReadChild(Get(data, "channel"), "name");
    ReadChild(Get(Get(data, "settings"), "selectedChannel"), "id");
    ReadChild(Get(Get(data, "settings"), "selectedChannel"), "name");
    ReadChild(data, "teamsTeamId");
    ReadChild(data, "teamsChannelId");
  }

  /** A stored activity reads as the activity itself with every string cut. */
  lemma StoredFields(activity: Json)
    requires activity.Obj?
    ensures ReadFields(SafeActivity(activity)) == FieldsWith(ReadCut, activity)
  {
    GetStored(activity, "channelData");
    GetStored(activity, "conversation");
    GetStored(activity, "from");
    GetStored(activity, "serviceUrl");
    CutIsRead(Get(activity, "serviceUrl"));
    ConversationCut(Get(activity, "conversation"));
    SenderCut(Get(activity, "from"));
    PlaceCut(Get(activity, "channelData"));
  }

  // ----- when reading back gives what was captured -----

  /** An empty reading is filled from the copied field; any other must be the live one. */
  predicate Refilled(stored: string, live: string) {
    stored == "" || stored == live
  }

  /** The same for a field the capture clips. */
  predicate RefilledClip(stored: string, live: string, limit: nat) {
    stored == "" || Clip(stored, limit) == Clip(live, limit)
  }

  lemma OrRefilled(stored: string, live: string)
    ensures Or(stored, live) == live <==> Refilled(stored, live)
  {
  }

  lemma ClipRefilled(stored: string, live: string, limit: nat)
    ensures Clip(Or(stored, Clip(live, limit)), limit) == Clip(live, limit) <==> RefilledClip(stored, live, limit)
  {
  }

  /** The raw id steps in for a blank one as the copied, normalized id. */
  predicate RefilledId(stored: string, live: string) {
    stored == live || (stored == "" && NormalizeConversationId(live) == live)
  }

  predicate PlaceRefilled(cut: Fields, live: Fields) {
    var p, q := cut.place, live.place;
    && Refilled(Or(p.tenantId, cut.conversation.tenantId), Or(q.tenantId, live.conversation.tenantId))
    && Refilled(Or(p.teamId, p.teamsTeamId), Or(q.teamId, q.teamsTeamId))
    && Refilled(p.aadGroupId, q.aadGroupId)
    && RefilledClip(p.teamName, q.teamName, 200)
    && RefilledClip(Or(Or(p.channelName, p.selectedName), cut.conversation.name),
                    Or(Or(q.channelName, q.selectedName), live.conversation.name), 200)
  }

  predicate FieldsRefilled(cut: Fields, live: Fields) {
    var id := NormalizeConversationId(live.conversation.id);
    && Refilled(cut.serviceUrl, live.serviceUrl)
    && RefilledId(cut.conversation.id, live.conversation.id)
    && PlaceRefilled(cut, live)
    && Refilled(ChannelOf(cut, id), ChannelOf(live, id))
    && RefilledClip(cut.conversation.kind, live.conversation.kind, 40)
    && Refilled(cut.sender.id, live.sender.id)
    && RefilledClip(cut.sender.name, live.sender.name, 200)
    && Refilled(cut.sender.aadObjectId, live.sender.aadObjectId)
  }

  lemma RefillIff(activityType: string, cut: Fields, live: Fields)
    requires cut.conversation.isGroup == live.conversation.isGroup
    ensures Refill(cut, Capture(activityType, live)) == Capture(activityType, live) <==> FieldsRefilled(cut, live)
  {
    var p, q := cut.place, live.place;
    var id := NormalizeConversationId(live.conversation.id);
    OrRefilled(cut.serviceUrl, live.serviceUrl);
    OrRefilled(Or(p.tenantId, cut.conversation.tenantId), Or(q.tenantId, live.conversation.tenantId));
    OrRefilled(Or(p.teamId, p.teamsTeamId), Or(q.teamId, q.teamsTeamId));
    OrRefilled(p.aadGroupId, q.aadGroupId);
    OrRefilled(ChannelOf(cut, id), ChannelOf(live, id));
    ClipRefilled(cut.conversation.kind, live.conversation.kind, 40);
    ClipRefilled(p.teamName, q.teamName, 200);
    ClipRefilled(Or(Or(p.channelName, p.selectedName), cut.conversation.name),
                 Or(Or(q.channelName, q.selectedName), live.conversation.name), 200);
    OrRefilled(cut.sender.id, live.sender.id);
    ClipRefilled(cut.sender.name, live.sender.name, 200);
    OrRefilled(cut.sender.aadObjectId, live.sender.aadObjectId);
  }

  // ----- the same, said of the activity -----

  /** A string that is the only source of its field. */
  predicate TextRereads(j: Json) {
    Fits(j) || BlankWhenCut(j)
  }

  predicate IdRereads(j: Json) {
    Fits(j) || (BlankWhenCut(j) && NormalizeConversationId(Read(j)) == Read(j))
  }

  /** A name: only its first characters are captured. */
  predicate NameRereads(j: Json, limit: nat) {
    BlankWhenCut(j) || Clip(ReadCut(j), limit) == Clip(Read(j), limit)
  }

  predicate KindRereads(j: Json) {
    BlankWhenCut(j) || Clip(Lower(ReadCut(j)), 40) == Clip(Lower(Read(j)), 40)
  }

  /** The first string that has text, and the first that still has some after the cut. */
  function FirstRead(js: seq<Json>): string {
    if js == [] then "" else Or(Read(js[0]), FirstRead(js[1..]))
  }

  function FirstCut(js: seq<Json>): string {
    if js == [] then "" else Or(ReadCut(js[0]), FirstCut(js[1..]))
  }

  /** A field with several sources: the first one left after the cut, if any, gives the same text. */
  predicate ChainRereads(js: seq<Json>) {
    Refilled(FirstCut(js), FirstRead(js))
  }

  /** The channel: after its three sources the conversation itself, where the kind says so. */
  predicate ChannelRereads(js: seq<Json>, conversation: Json) {
    var id := NormalizeConversationId(Read(Get(conversation, "id")));
    var kind := Get(conversation, "conversationType");
    Refilled(
      Or(FirstCut(js), if Lower(ReadCut(kind)) == "channel" then id else ""),
      Or(FirstRead(js), if Lower(Read(kind)) == "channel" then id else ""))
  }

  /** Every captured field reads back the same, field by field. */
  predicate Rereads(activity: Json) {
    var conversation, sender := Get(activity, "conversation"), Get(activity, "from");
    var data := Get(activity, "channelData");
    var team, channel := Get(data, "team"), Get(data, "channel");
    var selected := Get(Get(data, "settings"), "selectedChannel");
    && TextRereads(Get(activity, "serviceUrl"))
    && IdRereads(Get(conversation, "id"))
    && ChainRereads([Get(Get(data, "tenant"), "id"), Get(conversation, "tenantId")])
    && ChainRereads([Get(team, "id"), Get(data, "teamsTeamId")])
    && TextRereads(Get(team, "aadGroupId"))
    && NameRereads(Get(team, "name"), 200)
    && NameChainRereads([Get(channel, "name"), Get(selected, "name"), Get(conversation, "name")])
    && ChannelRereads([Get(channel, "id"), Get(data, "teamsChannelId"), Get(selected, "id")], conversation)
    && KindRereads(Get(conversation, "conversationType"))
    && TextRereads(Get(sender, "id"))
    && NameRereads(Get(sender, "name"), 200)
    && TextRereads(Get(sender, "aadObjectId"))
  }

  predicate NameChainRereads(js: seq<Json>) {
    RefilledClip(FirstCut(js), FirstRead(js), 200)
  }

  lemma TextRereadsIff(j: Json)
    ensures Refilled(ReadCut(j), Read(j)) <==> TextRereads(j)
  {
    CutIff(j);
  }

  lemma IdRereadsIff(j: Json)
    ensures RefilledId(ReadCut(j), Read(j)) <==> IdRereads(j)
  {
    CutIff(j);
  }

  lemma NameRereadsIff(j: Json, limit: nat)
    ensures RefilledClip(ReadCut(j), Read(j), limit) <==> NameRereads(j, limit)
  {
    CutIff(j);
  }

  lemma KindRereadsIff(j: Json)
    ensures RefilledClip(Lower(ReadCut(j)), Lower(Read(j)), 40) <==> KindRereads(j)
  {
    CutIff(j);
  }

  lemma FirstOfOne(a: Json)
    ensures FirstRead([a]) == Read(a) && FirstCut([a]) == ReadCut(a)
  {
    hide ReadCut, Read;
    assert [a][1..] == [];
  }

  lemma FirstOfTwo(a: Json, b: Json)
    ensures FirstRead([a, b]) == Or(Read(a), Read(b)) && FirstCut([a, b]) == Or(ReadCut(a), ReadCut(b))
  {
    FirstOfOne(b);
    assert [a, b][1..] == [b];
  }

  lemma FirstOfThree(a: Json, b: Json, c: Json)
    ensures FirstRead([a, b, c]) == Or(Or(Read(a), Read(b)), Read(c))
    ensures FirstCut([a, b, c]) == Or(Or(ReadCut(a), ReadCut(b)), ReadCut(c))
  {
    hide Read, ReadCut;
    FirstOfTwo(b, c);
    assert [a, b, c][1..] == [b, c];
  }

  lemma RereadsIff(activity: Json)
    ensures FieldsRefilled(FieldsWith(ReadCut, activity), ReadFields(activity)) <==> Rereads(activity)
  {
    hide Trim, Lower, Clip, Read, ReadCut, FirstRead, FirstCut, TextRereads, IdRereads, NameRereads, KindRereads,
        Refilled, RefilledId, RefilledClip;
    var conversation, sender := Get(activity, "conversation"), Get(activity, "from");
    var data := Get(activity, "channelData");
    var team, channel := Get(data, "team"), Get(data, "channel");
    var selected := Get(Get(data, "settings"), "selectedChannel");
    TextRereadsIff(Get(activity, "serviceUrl"));
    IdRereadsIff(Get(conversation, "id"));
    FirstOfTwo(Get(Get(data, "tenant"), "id"), Get(conversation, "tenantId"));
    FirstOfTwo(Get(team, "id"), Get(data, "teamsTeamId"));
    TextRereadsIff(Get(team, "aadGroupId"));
    NameRereadsIff(Get(team, "name"), 200);
    FirstOfThree(Get(channel, "name"), Get(selected, "name"), Get(conversation, "name"));
    FirstOfThree(Get(channel, "id"), Get(data, "teamsChannelId"), Get(selected, "id"));
    KindRereadsIff(Get(conversation, "conversationType"));
    TextRereadsIff(Get(sender, "id"));
    NameRereadsIff(Get(sender, "name"), 200);
    TextRereadsIff(Get(sender, "aadObjectId"));
  }

  /** Startup reads from a stored event what the live handler read from the activity itself, if and
      only if every field reads back the same. */
  lemma ExtractionAgreesIff(activity: Json)
    requires activity.Obj?
    ensures ExtractStored(Store(activity)) == Extract(activity) <==> Rereads(activity)
  {
    StoredFields(activity);
    RefillIff(Read(Get(activity, "type")), FieldsWith(ReadCut, activity), ReadFields(activity));
    RereadsIff(activity);
  }

  /** The strings both extractors read. */
  function Sources(activity: Json): seq<Json> {
    var conversation, sender := Get(activity, "conversation"), Get(activity, "from");
    var data := Get(activity, "channelData");
    var team, channel := Get(data, "team"), Get(data, "channel");
    var selected := Get(Get(data, "settings"), "selectedChannel");
    [Get(activity, "serviceUrl"), Get(conversation, "id"), Get(conversation, "conversationType"),
     Get(conversation, "tenantId"), Get(conversation, "name"), Get(sender, "id"), Get(sender, "name"),
     Get(sender, "aadObjectId"), Get(Get(data, "tenant"), "id"), Get(team, "id"), Get(team, "aadGroupId"),
     Get(team, "name"), Get(data, "teamsTeamId"), Get(data, "teamsChannelId"), Get(channel, "id"),
     Get(channel, "name"), Get(selected, "id"), Get(selected, "name")]
  }

  predicate AllFit(js: seq<Json>) {
    forall i :: 0 <= i < |js| ==> Fits(js[i])
  }

  lemma SameRefilled(f: Fields)
    ensures FieldsRefilled(f, f)
  {
  }

  lemma FitFields(activity: Json)
    requires AllFit(Sources(activity))
    ensures FieldsWith(ReadCut, activity) == ReadFields(activity)
  {
    hide Read, ReadCut, Lower, Fits;
    var js := Sources(activity);
    forall i | 0 <= i < |js| ensures ReadCut(js[i]) == Read(js[i]) {
      CutIff(js[i]);
    }
    assert ReadCut(js[0]) == Read(js[0]) && ReadCut(js[1]) == Read(js[1]) && ReadCut(js[2]) == Read(js[2]);
    assert ReadCut(js[3]) == Read(js[3]) && ReadCut(js[4]) == Read(js[4]) && ReadCut(js[5]) == Read(js[5]);
    assert ReadCut(js[6]) == Read(js[6]) && ReadCut(js[7]) == Read(js[7]) && ReadCut(js[8]) == Read(js[8]);
    assert ReadCut(js[9]) == Read(js[9]) && ReadCut(js[10]) == Read(js[10]) && ReadCut(js[11]) == Read(js[11]);
    assert ReadCut(js[12]) == Read(js[12]) && ReadCut(js[13]) == Read(js[13]) && ReadCut(js[14]) == Read(js[14]);
    assert ReadCut(js[15]) == Read(js[15]) && ReadCut(js[16]) == Read(js[16]) && ReadCut(js[17]) == Read(js[17]);
  }

  /** In particular nothing is lost when only blanks are cut off. */
  lemma FittingRereads(activity: Json)
    requires AllFit(Sources(activity))
    ensures Rereads(activity)
  {
    hide Sources, AllFit, FieldsWith, ReadFields, FieldsRefilled, Rereads;
    FitFields(activity);
    SameRefilled(ReadFields(activity));
    RereadsIff(activity);
  }

  /** That is not necessary: a longer name loses nothing that is captured when its first 200
      characters are still there. */
  lemma LongNameRereads(j: Json)
    requires j.Str? && |j.chars| > MAX_CHARS && Trimmed(j.chars) && !IsSpace(j.chars[MAX_CHARS - 1])
    ensures !Fits(j) && NameRereads(j, 200)
  {
    hide Trim, Blank, Clip;
    LongTextIsCut(j.chars);
    CutTrimmed(j.chars);
    TrimFixes(j.chars);
    SameStart(j.chars, 200, MAX_CHARS);
  }

  lemma CutTrimmed(s: string)
    requires |s| > MAX_CHARS && Trimmed(s) && !IsSpace(s[MAX_CHARS - 1])
    ensures Trim(Clip(s, MAX_CHARS)) == Clip(s, MAX_CHARS)
  {
    var head := Clip(s, MAX_CHARS);
    assert head[|head| - 1] == s[MAX_CHARS - 1] && head[0] == s[0];
    TrimFixes(head);
  }

  lemma SameStart(s: string, few: nat, many: nat)
    requires few <= many <= |s|
    ensures Clip(Clip(s, many), few) == Clip(s, few)
  {
    assert s[..many][..few] == s[..few];
  }

  /** For the service URL the agreement holds exactly when only blanks were cut off, or when what was
      kept is blank and the copied field steps in. */
  lemma RereadAgreesIff(activity: Json)
    requires activity.Obj?
    ensures ExtractStored(Store(activity)).serviceUrl == Extract(activity).serviceUrl
       <==> TextRereads(Get(activity, "serviceUrl"))
  {
    var url := Get(activity, "serviceUrl");
    StoredFields(activity);
    OrRefilled(ReadCut(url), Read(url));
    TextRereadsIff(url);
  }

  /** So it fails for every service URL longer than that with text at both ends. */
  lemma LongUrlDisagrees(activity: Json, url: string)
    requires activity.Obj? && Get(activity, "serviceUrl") == Str(url)
    requires |url| > MAX_CHARS && Trimmed(url)
    ensures ExtractStored(Store(activity)).serviceUrl != Extract(activity).serviceUrl
  {
    RereadAgreesIff(activity);
    LongTextIsCut(url);
  }

  lemma LongTextIsCut(s: string)
    requires |s| > MAX_CHARS && Trimmed(s)
    ensures !Fits(Str(s)) && !BlankWhenCut(Str(s))
  {
    var tail := s[MAX_CHARS..];
    assert tail[|tail| - 1] == s[|s| - 1];
    assert Clip(s, MAX_CHARS)[0] == s[0];
  }
}
