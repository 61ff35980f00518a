/** The running bot: the module-level journal that its handlers append to, and the history of what it
    has done, updated step by step as each handler runs. */
module Session {
  import opened Wrappers
  import opened Config
  import opened Client
  import opened Journal
  import opened Policy
  import PolicyFacts

  class Bot {
    /** The settings that passed the startup check. */
    const config: Configuration
    /** The in-memory log journal. */
    var logs: seq<Entry>
    /** Everything the bot has done so far, in order: journal entries written and client calls made. */
    var trace: seq<Effect>

    /** The journal holds exactly the entries written since the last console logout. */
    ghost predicate Valid()
      reads this
    {
      logs == Journaled(trace)
    }

    constructor (config: Configuration)
      requires config.Valid()
      ensures Valid()
      ensures this.config == config && logs == [] && trace == []
    {
      this.config := config;
      logs := [];
      trace := [];
    }

    /** `debug.log`: one `Log` entry at the end of the journal; every earlier entry stays. */
    method DebugLog(text: string)
      requires Valid()
      modifies this
      ensures Valid()
      ensures logs == old(logs) + [Entry(Log, text)]
      ensures trace == old(trace) + [Logged(Entry(Log, text))]
    {
      logs := logs + [Entry(Log, text)];
      trace := trace + [Logged(Entry(Log, text))];
      assert trace[..|trace| - 1] == old(trace);
    }

    /** `debug.error`: one `Error` entry at the end of the journal; every earlier entry stays. */
    method DebugError(text: string)
      requires Valid()
      modifies this
      ensures Valid()
      ensures logs == old(logs) + [Entry(Error, text)]
      ensures trace == old(trace) + [Logged(Entry(Error, text))]
    {
      logs := logs + [Entry(Error, text)];
      trace := trace + [Logged(Entry(Error, text))];
      assert trace[..|trace| - 1] == old(trace);
    }

    /** A call into the client that leaves the journal alone. */
    method Call(c: Command)
      requires Valid() && c != SessionLogout
      modifies this
      ensures Valid()
      ensures logs == old(logs) && trace == old(trace) + [Issued(c)]
    {
      trace := trace + [Issued(c)];
      assert trace[..|trace| - 1] == old(trace);
    }

    method OnScan(code: string, status: ScanStatus)
      requires Valid()
      modifies this
      ensures Valid()
      ensures trace == old(trace) + ScanReaction(code, status)
      ensures logs == old(logs) + Entries(ScanReaction(code, status))
    {
      if status == Waiting {
        DebugLog(ScanLine(code));
      }
      JournaledAppend(old(trace), ScanReaction(code, status));
    }

    method OnLogin(user: Contact)
      requires Valid()
      modifies this
      ensures Valid()
      ensures trace == old(trace) + [Logged(Entry(Log, LoginLine(user.name)))]
      ensures logs == old(logs) + [Entry(Log, LoginLine(user.name))]
    {
      DebugLog(LoginLine(user.name));
    }

    /** The platform's logout event only logs a line: it does not empty the journal. */
    method OnLogout(user: Contact)
      requires Valid()
      modifies this
      ensures Valid()
      ensures trace == old(trace) + [Logged(Entry(Log, LogoutLine(user.name)))]
      ensures logs == old(logs) + [Entry(Log, LogoutLine(user.name))]
    {
      DebugLog(LogoutLine(user.name));
    }

    method OnError(error: string)
      requires Valid()
      modifies this
      ensures Valid()
      ensures trace == old(trace) + [Logged(Entry(Error, ErrorLine(error)))]
      ensures logs == old(logs) + [Entry(Error, ErrorLine(error))]
    {
      DebugError(ErrorLine(error));
    }

    /** The message handler; `found` is what the room lookup returns, should the handler make one. */
    method OnMessage(message: Message, found: Option<Room>)
      requires Valid()
      modifies this
      ensures Valid()
      ensures trace == old(trace) + MessageReaction(message, found, config.targetGroupName)
      ensures logs == old(logs) + Entries(MessageReaction(message, found, config.targetGroupName))
    {
      var group := config.targetGroupName;
      var messageType := message.kind;
      var name := message.talker.name;
      DebugLog(TypeLine(messageType));
      DebugLog(TalkerLine(name));
      ghost var logged := trace;
      assert logged == old(trace) + [Info(TypeLine(messageType)), Info(TalkerLine(name))];
      if messageType == TextType {
        var text := message.text;
        DebugLog(ReceivedLine(text));
        if text == "进群" || text == "入群" {
          Call(FindRoom(group));
          ghost var looked := trace;
          InviteSender(message.talker, found);
          assert trace == looked + InviteReaction(message.talker, found, group);
          assert looked == logged + [Info(ReceivedLine(text)), Issued(FindRoom(group))];
          Regroup(logged, [Info(ReceivedLine(text)), Issued(FindRoom(group))], InviteReaction(message.talker, found, group));
        } else {
          assert trace == logged + [Info(ReceivedLine(text))];
        }
      }
      assert trace == logged + TextReaction(message, found, group);
      Regroup(old(trace), [Info(TypeLine(messageType)), Info(TalkerLine(name))], TextReaction(message, found, group));
      JournaledAppend(old(trace), MessageReaction(message, found, group));
    }

    /** The group-invite step of the message handler, once the room lookup has returned `found`. */
    method InviteSender(talker: Contact, found: Option<Room>)
      requires Valid()
      modifies this
      ensures Valid()
      ensures trace == old(trace) + InviteReaction(talker, found, config.targetGroupName)
      ensures logs == old(logs) + Entries(InviteReaction(talker, found, config.targetGroupName))
    {
      var group := config.targetGroupName;
      var name := talker.name;
      match found {
        case Some(room) =>
          Call(AddMember(room, talker));
          DebugLog(InvitedLine(name, group));
          Call(RoomSay(room, RoomWelcome(name)));
        case None =>
          DebugLog(RoomNotFoundLine(group));
      }
      PolicyFacts.InviteCalls(talker, found, group);
    }

    method OnFriendship(contact: Contact)
      requires Valid()
      modifies this
      ensures Valid()
      ensures trace == old(trace) + FriendshipReaction(contact, config)
      ensures logs == old(logs) + Entries(FriendshipReaction(contact, config))
    {
      Befriend(contact, Greeting(config.whoAmI, config.targetGroupName));
    }

    /** The steps of the friendship handler, sending `greeting` as the welcome. */
    method Befriend(contact: Contact, greeting: string)
      requires Valid()
      modifies this
      ensures Valid()
      ensures trace == old(trace) + Befriending(contact, greeting)
      ensures logs == old(logs) + Entries(Befriending(contact, greeting))
    {
      var contactName := contact.name;
      ghost var before := trace;
      ghost var request, accepted, greeted := Info(RequestLine(contactName)), Info(AcceptedLine(contactName)), Info(GreetedLine(contactName));
      ghost var wait, accept, say := Issued(Delay(ActionTimeout)), Issued(Accept(contact)), Issued(ContactSay(contact, greeting));
      DebugLog(RequestLine(contactName));
      assert trace == before + [request];
      Call(Delay(ActionTimeout));
      assert trace == before + [request, wait];
      Call(Accept(contact));
      assert trace == before + [request, wait, accept];
      DebugLog(AcceptedLine(contactName));
      assert trace == before + [request, wait, accept, accepted];
      Call(Delay(ActionTimeout));
      assert trace == before + [request, wait, accept, accepted, wait];
      Call(ContactSay(contact, greeting));
      assert trace == before + [request, wait, accept, accepted, wait, say];
      DebugLog(GreetedLine(contactName));
      assert trace == before + [request, wait, accept, accepted, wait, say, greeted];
      JournaledAppend(old(trace), Befriending(contact, greeting));
    }

    /** The client delivering one event: the handler registered for it runs to completion. */
    method Handle(d: Delivery)
      requires Valid()
      modifies this
      ensures Valid()
      ensures trace == old(trace) + Reaction(d, config)
      ensures logs == old(logs) + Entries(Reaction(d, config))
    {
      match d.event {
        case ScanEvent(code, status) => OnScan(code, status);
        case LoginEvent(user) => OnLogin(user);
        case LogoutEvent(user) => OnLogout(user);
        case ErrorEvent(error) => OnError(error);
        case MessageEvent(message) => OnMessage(message, d.lookup);
        case FriendshipEvent(contact) => OnFriendship(contact);
      }
      JournaledAppend(old(trace), Reaction(d, config));
    }

    /** The console `logs` command: every journal entry, in order, on the stream its type selects. */
    method ConsoleLogs() returns (out: seq<ConsoleLine>)
      ensures |out| == |logs|
      ensures forall i :: 0 <= i < |logs| ==> out[i] == Printed(logs[i])
    {
      out := [];
      var i := 0;
      while i < |logs|
        invariant 0 <= i <= |logs|
        invariant |out| == i
        invariant forall k :: 0 <= k < i ==> out[k] == Printed(logs[k])
      {
        out := out + [Printed(logs[i])];
        i := i + 1;
      }
    }

    /** The console `logout` command: log the session out, then empty the journal. */
    method ConsoleLogout()
      requires Valid()
      modifies this
      ensures Valid()
      ensures logs == [] && trace == old(trace) + [Issued(SessionLogout)]
    {
      trace := trace + [Issued(SessionLogout)];
      logs := [];
    }
  }
}
