/** The session-event policy: for each event the client delivers, the log lines the bot writes and the
    calls it makes, in order, as pure functions of the event, the room-lookup result and the configuration. */
module Policy {
  import opened Wrappers
  import opened Text
  import opened Config
  import opened Client
  import opened Journal

  /** The fixed pause before accepting a friend request and before greeting the new friend, in ms. */
  const ActionTimeout: nat := 3000

  /** The two texts that ask for an invitation into the target group; both are two characters
      ending in `群`, so no longer or shorter text, and no text containing a keyword, qualifies. */
  predicate IsJoinKeyword(text: string)
    ensures IsJoinKeyword(text) ==> |text| == 2 && text[1] == '群'
  {
    text == "进群" || text == "入群"
  }

  // The log lines and messages of the handlers.
  function ScanLine(code: string): string { "扫描二维码登录：" + code }
  function LoginLine(name: string): string { "用户 " + name + " 登录" }
  function LogoutLine(name: string): string { "用户 " + name + " 登出" }
  function ErrorLine(error: string): string { "遇到错误：" + error }
  function TypeLine(kind: nat): string { "消息类型：" + Decimal(kind) }
  function TalkerLine(name: string): string { "消息发送者备注名：" + name }
  function ReceivedLine(text: string): string { "收到消息：" + text }
  function InvitedLine(name: string, group: string): string { "已邀请 " + name + " 加入群聊 " + group }
  /** The welcome said in the group addresses the new member by name. */
  function RoomWelcome(name: string): (r: string)
    ensures Contains(r, name)
  {
    ContainsMiddle("欢迎 ", name, " 加入群聊！");
    "欢迎 " + name + " 加入群聊！"
  }
  function RoomNotFoundLine(group: string): string { "未找到指定群聊 " + group }
  function RequestLine(name: string): string { "接收到好友请求：" + name }
  function AcceptedLine(name: string): string { "已接受好友请求：" + name }
  /** The welcome sent to a new friend names the bot, the target group and the keyword `进群`. */
  function Greeting(whoAmI: string, group: string): (r: string)
    ensures Contains(r, whoAmI)
    ensures Contains(r, group)
    ensures Contains(r, "进群")
  {
    var opening, middle, closing := "你好，我是", "，回复“进群”我将邀请你加入\"", "\"。";
    ContainsMiddle(opening, whoAmI, "");
    assert opening + whoAmI + "" == opening + whoAmI;
    ContainsInLeft(opening + whoAmI, middle, whoAmI);
    ContainsInLeft(opening + whoAmI + middle, group, whoAmI);
    ContainsInLeft(opening + whoAmI + middle + group, closing, whoAmI);
    ContainsMiddle(opening + whoAmI + middle, group, closing);
    assert middle[4..6] == "进群";
    assert ContainsAt(middle, "进群", 4);
    ContainsInRight(opening + whoAmI, middle, "进群");
    ContainsInLeft(opening + whoAmI + middle, group, "进群");
    ContainsInLeft(opening + whoAmI + middle + group, closing, "进群");
    opening + whoAmI + middle + group + closing
  }
  function GreetedLine(name: string): string { "已向好友 " + name + " 发送欢迎消息" }

  function Info(text: string): Effect { Logged(Entry(Log, text)) }

  /** The session events the client delivers. */
  datatype Event =
    | ScanEvent(code: string, status: ScanStatus)
    | LoginEvent(user: Contact)
    | LogoutEvent(user: Contact)
    | ErrorEvent(error: string)
    | MessageEvent(message: Message)
    | FriendshipEvent(contact: Contact)

  /** An event together with what a room lookup made while handling it returns. */
  datatype Delivery = Delivery(event: Event, lookup: Option<Room>)

  function ScanReaction(code: string, status: ScanStatus): seq<Effect>
  {
    if status == Waiting then [Info(ScanLine(code))] else []
  }

  /** The group-invite step, once the lookup for `group` has been issued. */
  function InviteReaction(talker: Contact, found: Option<Room>, group: string): (r: seq<Effect>)
    ensures KeepsJournal(r)
  {
    match found
    case Some(room) =>
      [Issued(AddMember(room, talker)), Info(InvitedLine(talker.name, group)), Issued(RoomSay(room, RoomWelcome(talker.name)))]
    case None =>
      [Info(RoomNotFoundLine(group))]
  }

  function MessageReaction(m: Message, found: Option<Room>, group: string): (r: seq<Effect>)
    ensures KeepsJournal(r)
  {
    [Info(TypeLine(m.kind)), Info(TalkerLine(m.talker.name))] + TextReaction(m, found, group)
  }

  /** What a message does after its type and sender are logged. */
  function TextReaction(m: Message, found: Option<Room>, group: string): (r: seq<Effect>)
    ensures KeepsJournal(r)
  {
    if m.kind != TextType then []
    else if !IsJoinKeyword(m.text) then [Info(ReceivedLine(m.text))]
    else [Info(ReceivedLine(m.text)), Issued(FindRoom(group))] + InviteReaction(m.talker, found, group)
  }

  function FriendshipReaction(c: Contact, cfg: Configuration): seq<Effect>
  {
    Befriending(c, Greeting(cfg.whoAmI, cfg.targetGroupName))
  }

  /** The steps of the friendship handler, given the welcome text it sends. */
  function Befriending(c: Contact, greeting: string): (r: seq<Effect>)
    ensures KeepsJournal(r)
  {
    [Info(RequestLine(c.name)),
     Issued(Delay(ActionTimeout)), Issued(Accept(c)), Info(AcceptedLine(c.name)),
     Issued(Delay(ActionTimeout)), Issued(ContactSay(c, greeting)), Info(GreetedLine(c.name))]
  }

  /** The history one delivered event adds; no session event empties the journal. */
  function Reaction(d: Delivery, cfg: Configuration): (r: seq<Effect>)
    ensures KeepsJournal(r)
  {
    match d.event
    case ScanEvent(code, status) => ScanReaction(code, status)
    case LoginEvent(user) => [Info(LoginLine(user.name))]
    case LogoutEvent(user) => [Info(LogoutLine(user.name))]
    case ErrorEvent(error) => [Logged(Entry(Error, ErrorLine(error)))]
    case MessageEvent(m) => MessageReaction(m, d.lookup, cfg.targetGroupName)
    case FriendshipEvent(c) => FriendshipReaction(c, cfg)
  }

  /** The history a series of events adds when each handler runs to completion before the next. */
  function Replay(ds: seq<Delivery>, cfg: Configuration): seq<Effect>
  {
    if ds == [] then [] else Reaction(ds[0], cfg) + Replay(ds[1..], cfg)
  }
}

/** What the policy guarantees about each handler and about runs of them. */
module PolicyFacts {
  import opened Wrappers
  import opened Text
  import opened Config
  import opened Client
  import opened Journal
  import opened Policy

  /** How many room lookups a series of calls makes. */
  function Lookups(cs: seq<Command>): nat
  {
    if cs == [] then 0 else (if cs[0].FindRoom? then 1 else 0) + Lookups(cs[1..])
  }

  lemma {:induction false} LookupsAppend(a: seq<Command>, b: seq<Command>)
    ensures Lookups(a + b) == Lookups(a) + Lookups(b)
    decreases |a|
  {
    if a == [] {
      assert a + b == b;
    } else {
      assert (a + b)[1..] == a[1..] + b;
      LookupsAppend(a[1..], b);
    }
  }

  /** A scan event does nothing unless the code is waiting to be scanned; then it logs one line
      that carries the code, and calls nothing. */
  lemma ScanLogsCodeOnlyWhileWaiting(code: string, status: ScanStatus)
    ensures status != Waiting ==> ScanReaction(code, status) == []
    ensures status == Waiting ==>
      var r := ScanReaction(code, status);
      Commands(r) == [] && |Entries(r)| == 1 && Entries(r)[0].kind == Log && Contains(Entries(r)[0].text, code)
  {
    if status == Waiting {
      var r := ScanReaction(code, status);
      assert r[0..] == r && r[|r|..] == [];
      UnfoldAt(r, 0);
      ContainsMiddle("扫描二维码登录：", code, "");
      assert ScanLine(code) == "扫描二维码登录：" + code + "";
    }
  }

  /** Login and logout events each log one line naming the user and call nothing. */
  lemma LoginLogoutOnlyLog(user: Contact, lookup: Option<Room>, cfg: Configuration)
    ensures var r := Reaction(Delivery(LoginEvent(user), lookup), cfg);
      Commands(r) == [] && |Entries(r)| == 1 && Entries(r)[0].kind == Log && Contains(Entries(r)[0].text, user.name)
    ensures var r := Reaction(Delivery(LogoutEvent(user), lookup), cfg);
      Commands(r) == [] && |Entries(r)| == 1 && Entries(r)[0].kind == Log && Contains(Entries(r)[0].text, user.name)
  {
    var login := Reaction(Delivery(LoginEvent(user), lookup), cfg);
    var logout := Reaction(Delivery(LogoutEvent(user), lookup), cfg);
    assert login[0..] == login && login[|login|..] == [];
    UnfoldAt(login, 0);
    assert logout[0..] == logout && logout[|logout|..] == [];
    UnfoldAt(logout, 0);
    ContainsMiddle("用户 ", user.name, " 登录");
    ContainsMiddle("用户 ", user.name, " 登出");
  }

  /** An error event writes one `Error` entry, `遇到错误：` followed by the error text, and calls nothing. */
  lemma ErrorIsLoggedAsError(error: string, lookup: Option<Room>, cfg: Configuration)
    ensures var r := Reaction(Delivery(ErrorEvent(error), lookup), cfg);
      Commands(r) == [] && Entries(r) == [Entry(Error, "遇到错误：" + error)]
  {
    var r := Reaction(Delivery(ErrorEvent(error), lookup), cfg);
    assert r[0..] == r && r[|r|..] == [];
    UnfoldAt(r, 0);
  }

  /** A message that is not plain text logs its type and then its sender, and calls nothing. */
  lemma NonTextMessageOnlyLogs(m: Message, found: Option<Room>, group: string)
    requires m.kind != TextType
    ensures var r := MessageReaction(m, found, group);
      Commands(r) == [] && |Entries(r)| == 2
      && (forall i :: 0 <= i < |Entries(r)| ==> Entries(r)[i].kind == Log)
      && Contains(Entries(r)[0].text, Decimal(m.kind)) && Contains(Entries(r)[1].text, m.talker.name)
  {
    var r := MessageReaction(m, found, group);
    assert r == [Info(TypeLine(m.kind)), Info(TalkerLine(m.talker.name))];
    OnlyLogged(r);
    ContainsMiddle("消息类型：", Decimal(m.kind), "");
    ContainsMiddle("消息发送者备注名：", m.talker.name, "");
    assert TypeLine(m.kind) == "消息类型：" + Decimal(m.kind) + "";
    assert TalkerLine(m.talker.name) == "消息发送者备注名：" + m.talker.name + "";
  }

  /** A text message other than the two keywords logs its type, its sender and its text, in that
      order, and makes no room lookup or any other call. */
  lemma OrdinaryTextOnlyLogs(m: Message, found: Option<Room>, group: string)
    requires m.kind == TextType && !IsJoinKeyword(m.text)
    ensures var r := MessageReaction(m, found, group);
      Commands(r) == [] && |Entries(r)| == 3
      && (forall i :: 0 <= i < |Entries(r)| ==> Entries(r)[i].kind == Log)
      && Contains(Entries(r)[0].text, Decimal(m.kind)) && Contains(Entries(r)[1].text, m.talker.name)
      && Contains(Entries(r)[2].text, m.text)
  {
    var r := MessageReaction(m, found, group);
    assert r == [Info(TypeLine(m.kind)), Info(TalkerLine(m.talker.name)), Info(ReceivedLine(m.text))];
    OnlyLogged(r);
    ContainsMiddle("消息类型：", Decimal(m.kind), "");
    ContainsMiddle("消息发送者备注名：", m.talker.name, "");
    ContainsMiddle("收到消息：", m.text, "");
    assert TypeLine(m.kind) == "消息类型：" + Decimal(m.kind) + "";
    assert TalkerLine(m.talker.name) == "消息发送者备注名：" + m.talker.name + "";
    assert ReceivedLine(m.text) == "收到消息：" + m.text + "";
  }

  /** Reads the shape of a keyword message's history: three entries logged and a call, then `t`. */
  lemma ReadKeywordPrefix(typeLine: Entry, talkerLine: Entry, received: Entry, lookup: Command, t: seq<Effect>)
    ensures Entries([Logged(typeLine), Logged(talkerLine)] + ([Logged(received), Issued(lookup)] + t))
      == [typeLine, talkerLine, received] + Entries(t)
    ensures Commands([Logged(typeLine), Logged(talkerLine)] + ([Logged(received), Issued(lookup)] + t))
      == [lookup] + Commands(t)
  {
    var logged := [Logged(typeLine), Logged(talkerLine), Logged(received)];
    var rest := [Issued(lookup)] + t;
    assert [Logged(typeLine), Logged(talkerLine)] + ([Logged(received), Issued(lookup)] + t) == logged + rest;
    OnlyLogged(logged);
    assert Entries(logged) == [typeLine, talkerLine, received];
    assert rest[1..] == t;
    EntriesAppend(logged, rest);
    CommandsAppend(logged, rest);
  }


  /** The calls of a keyword message: the lookup of `group`, then what the invitation step calls. */
  lemma KeywordCalls(m: Message, found: Option<Room>, group: string)
    requires m.kind == TextType && IsJoinKeyword(m.text)
    ensures Commands(MessageReaction(m, found, group)) == [FindRoom(group)] + Commands(InviteReaction(m.talker, found, group))
    ensures Entries(MessageReaction(m, found, group))
      == [Entry(Log, TypeLine(m.kind)), Entry(Log, TalkerLine(m.talker.name)), Entry(Log, ReceivedLine(m.text))]
         + Entries(InviteReaction(m.talker, found, group))
  {
    var invite := InviteReaction(m.talker, found, group);
    assert MessageReaction(m, found, group)
      == [Info(TypeLine(m.kind)), Info(TalkerLine(m.talker.name))] + ([Info(ReceivedLine(m.text)), Issued(FindRoom(group))] + invite);
    ReadKeywordPrefix(Entry(Log, TypeLine(m.kind)), Entry(Log, TalkerLine(m.talker.name)), Entry(Log, ReceivedLine(m.text)),
      FindRoom(group), invite);
  }




  /** The invitation step calls nothing when the group was not found, and otherwise adds the sender
      to the room and then says the welcome in it. */
  lemma InviteCalls(talker: Contact, found: Option<Room>, group: string)
    ensures Commands(InviteReaction(talker, found, group))
      == if found.Some? then [AddMember(found.value, talker), RoomSay(found.value, RoomWelcome(talker.name))] else []
    ensures Entries(InviteReaction(talker, found, group))
      == [Entry(Log, if found.Some? then InvitedLine(talker.name, group) else RoomNotFoundLine(group))]
  {
    match found
    case Some(room) =>
      var add := [Issued(AddMember(room, talker)), Info(InvitedLine(talker.name, group))];
      var welcome := Issued(RoomSay(room, RoomWelcome(talker.name)));
      assert InviteReaction(talker, found, group) == add + [welcome];
      ReadPair(add[0], add[1]);
      ReadOne(welcome);
      EntriesAppend(add, [welcome]);
      CommandsAppend(add, [welcome]);
    case None =>
      ReadOne(Info(RoomNotFoundLine(group)));
  }

  /** A message makes exactly one room lookup when it is a text message equal to a keyword, and none
      otherwise; every lookup is for the configured group. */
  lemma LookupExactlyForKeywords(m: Message, found: Option<Room>, group: string)
    ensures var cs := Commands(MessageReaction(m, found, group));
      Lookups(cs) == (if m.kind == TextType && IsJoinKeyword(m.text) then 1 else 0)
      && forall i :: 0 <= i < |cs| && cs[i].FindRoom? ==> cs[i].topic == group
  {
    if m.kind != TextType {
      NonTextMessageOnlyLogs(m, found, group);
    } else if !IsJoinKeyword(m.text) {
      OrdinaryTextOnlyLogs(m, found, group);
    } else {
      KeywordCalls(m, found, group);
      InviteCalls(m.talker, found, group);
      var rest := Commands(InviteReaction(m.talker, found, group));
      LookupsAppend([FindRoom(group)], rest);
      assert Lookups(rest) == 0 by {
        if found.Some? {
          LookupsAppend([rest[0]], [rest[1]]);
          assert rest == [rest[0]] + [rest[1]];
        }
      }
    }
  }

  /** When the group exists, a keyword message looks it up, adds the sender to it, logs the invitation
      and then greets the sender in the room by name, in exactly that order. */
  lemma KeywordInvitesIntoFoundRoom(m: Message, room: Room, group: string)
    requires m.kind == TextType && IsJoinKeyword(m.text)
    ensures var r := MessageReaction(m, Some(room), group); var n := |r|; var cs := Commands(r);
      |cs| == 3 && cs[0] == FindRoom(group) && cs[1] == AddMember(room, m.talker)
      && cs[2].RoomSay? && cs[2].room == room && Contains(cs[2].text, m.talker.name)
      && |Entries(r)| == 4
      && n >= 3 && r[n - 3] == Issued(AddMember(room, m.talker)) && r[n - 1] == Issued(cs[2])
      && r[n - 2].Logged? && r[n - 2].entry.kind == Log
      && Contains(r[n - 2].entry.text, m.talker.name) && Contains(r[n - 2].entry.text, group)
  {
    var name := m.talker.name;
    KeywordCalls(m, Some(room), group);
    InviteCalls(m.talker, Some(room), group);
    ContainsMiddle("欢迎 ", name, " 加入群聊！");
    ContainsMiddle("已邀请 ", name, " 加入群聊 " + group);
    assert InvitedLine(name, group) == "已邀请 " + name + (" 加入群聊 " + group);
    ContainsMiddle("已邀请 " + name + " 加入群聊 ", group, "");
    assert InvitedLine(name, group) == "已邀请 " + name + " 加入群聊 " + group + "";
  }

  /** When the group does not exist, a keyword message looks it up once, adds and says nothing,
      and logs that the group was not found. */
  lemma KeywordWithoutRoomOnlyLogs(m: Message, group: string)
    requires m.kind == TextType && IsJoinKeyword(m.text)
    ensures var r := MessageReaction(m, None, group);
      Commands(r) == [FindRoom(group)] && |Entries(r)| == 4
      && Entries(r)[3].kind == Log && Contains(Entries(r)[3].text, group)
  {
    KeywordCalls(m, None, group);
    InviteCalls(m.talker, None, group);
    ContainsMiddle("未找到指定群聊 ", group, "");
    assert RoomNotFoundLine(group) == "未找到指定群聊 " + group + "";
  }

  /** The greeting tells the new friend a text that the message handler accepts as a keyword. */
  lemma GreetingTeachesKeyword(whoAmI: string, group: string)
    ensures exists k :: IsJoinKeyword(k) && Contains(Greeting(whoAmI, group), k)
  {
    assert IsJoinKeyword("进群");
  }

  /** The steps of a friend request, read one at a time, whatever the welcome text. */
  /** Reads the shape of a befriending history: log, two calls, log, two calls, log. */
  lemma ReadBefriending(request: Entry, accepted: Entry, greeted: Entry, wait: Command, accept: Command, say: Command)
    ensures Commands([Logged(request), Issued(wait), Issued(accept), Logged(accepted), Issued(wait), Issued(say), Logged(greeted)])
      == [wait, accept, wait, say]
    ensures Entries([Logged(request), Issued(wait), Issued(accept), Logged(accepted), Issued(wait), Issued(say), Logged(greeted)])
      == [request, accepted, greeted]
  {
    var greet := [Logged(accepted), Issued(wait), Issued(say)] + [Logged(greeted)];
    assert [Logged(request), Issued(wait), Issued(accept), Logged(accepted), Issued(wait), Issued(say), Logged(greeted)]
      == [Logged(request), Issued(wait), Issued(accept)] + greet;
    ReadOne(Logged(greeted));
    ReadLogThenCalls(accepted, wait, say, [Logged(greeted)]);
    ReadLogThenCalls(request, wait, accept, greet);
  }

  lemma BefriendingSteps(c: Contact, greeting: string)
    ensures Commands(Befriending(c, greeting)) == [Delay(ActionTimeout), Accept(c), Delay(ActionTimeout), ContactSay(c, greeting)]
    ensures Entries(Befriending(c, greeting))
      == [Entry(Log, RequestLine(c.name)), Entry(Log, AcceptedLine(c.name)), Entry(Log, GreetedLine(c.name))]
  {
    ReadBefriending(Entry(Log, RequestLine(c.name)), Entry(Log, AcceptedLine(c.name)), Entry(Log, GreetedLine(c.name)),
      Delay(ActionTimeout), Accept(c), ContactSay(c, greeting));
  }

  /** The steps of a friend request with the configured welcome text. */
  lemma FriendshipSteps(c: Contact, cfg: Configuration)
    ensures var greeting := Greeting(cfg.whoAmI, cfg.targetGroupName);
      Commands(FriendshipReaction(c, cfg)) == [Delay(ActionTimeout), Accept(c), Delay(ActionTimeout), ContactSay(c, greeting)]
    ensures Entries(FriendshipReaction(c, cfg))
      == [Entry(Log, RequestLine(c.name)), Entry(Log, AcceptedLine(c.name)), Entry(Log, GreetedLine(c.name))]
  {
    BefriendingSteps(c, Greeting(cfg.whoAmI, cfg.targetGroupName));
  }

  /** A friend request is accepted after one pause and greeted after a second: exactly one accept and one
      message to the requester, which names both the bot and the target group; three lines are logged. */
  lemma FriendshipAcceptsThenGreets(c: Contact, cfg: Configuration)
    ensures var r := FriendshipReaction(c, cfg); var cs := Commands(r);
      |cs| == 4 && cs[0] == Delay(3000) && cs[1] == Accept(c) && cs[2] == Delay(3000)
      && cs[3].ContactSay? && cs[3].to == c
      && Contains(cs[3].text, cfg.whoAmI) && Contains(cs[3].text, cfg.targetGroupName)
      && |Entries(r)| == 3
      && forall i :: 0 <= i < 3 ==> Entries(r)[i].kind == Log && Contains(Entries(r)[i].text, c.name)
  {
    FriendshipSteps(c, cfg);
    ContainsMiddle("接收到好友请求：", c.name, "");
    assert RequestLine(c.name) == "接收到好友请求：" + c.name + "";
    ContainsMiddle("已接受好友请求：", c.name, "");
    assert AcceptedLine(c.name) == "已接受好友请求：" + c.name + "";
    ContainsMiddle("已向好友 ", c.name, " 发送欢迎消息");
  }

  lemma {:induction false} ReplayKeepsJournal(ds: seq<Delivery>, cfg: Configuration)
    ensures KeepsJournal(Replay(ds, cfg))
    decreases |ds|
  {
    if ds != [] {
      var head, rest := Reaction(ds[0], cfg), Replay(ds[1..], cfg);
      ReplayKeepsJournal(ds[1..], cfg);
      forall i | 0 <= i < |head + rest|
        ensures !Clears((head + rest)[i])
      {
        if i < |head| {
          assert (head + rest)[i] == head[i];
        } else {
          assert (head + rest)[i] == rest[i - |head|];
        }
      }
    }
  }

  /** Session events, however many, only ever add entries at the end of the journal: in particular the
      platform's logout event does not clear it. */
  lemma SessionEventsOnlyAppend(t: seq<Effect>, ds: seq<Delivery>, cfg: Configuration)
    ensures Journaled(t + Replay(ds, cfg)) == Journaled(t) + Entries(Replay(ds, cfg))
    ensures Journaled(t) <= Journaled(t + Replay(ds, cfg))
  {
    ReplayKeepsJournal(ds, cfg);
    JournaledAppend(t, Replay(ds, cfg));
  }

  /** A logout event adds its line to the journal and leaves every earlier entry in place. */
  lemma LogoutEventKeepsJournal(t: seq<Effect>, user: Contact, lookup: Option<Room>, cfg: Configuration)
    ensures var after := Journaled(t + Reaction(Delivery(LogoutEvent(user), lookup), cfg));
      after == Journaled(t) + [Entry(Log, LogoutLine(user.name))] && Contains(after[|after| - 1].text, user.name)
  {
    var r := Reaction(Delivery(LogoutEvent(user), lookup), cfg);
    JournaledAppend(t, r);
    assert r[0..] == r && r[|r|..] == [];
    UnfoldAt(r, 0);
    ContainsMiddle("用户 ", user.name, " 登出");
  }
}
