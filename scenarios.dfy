// Short sessions that put the handlers' contracts together: what a tab's
// log looks like when its own broadcast comes back to it, and what the
// refactored send does when the log it is handed is out of date.

module Scenarios {
  import opened ChatModel
  import opened LogStore
  import opened LogViews
  import opened Commands
  import YuiChat
  import ChatHandlers

  /** In the monolithic component, a tab that enters, sends "hello" and then
      is handed its own `chat` broadcast (should the transport deliver it
      back to the sender) holds the message twice, behind the
      join notice, and has counted it twice for its name: the inbound
      handler does not look for duplicates. */
  method YuiChatEchoIsKeptTwice() returns (log: seq<Chat>, count: nat)
    ensures |log| == 3 && log[0] == log[1]
    ensures log[0].message == "hello" && !log[0].system && log[2].system
    ensures count == 2
  {
    var tab := new YuiChat.Session("tab-1", Vacant);
    tab.name := "Yui";
    tab.Enter("a1", 1000, "greeting");
    tab.message := "hello";
    assert Classify("hello") == Post;
    tab.Send("b2", 2000);
    var echo := tab.outbox[|tab.outbox| - 1];
    tab.Receive(echo);
    log, count := tab.log, Count(tab.ranking, "Yui");
  }

  /** In the refactored hook the same echo, handed back, is also stored twice: what is
      saved is the log with both copies. */
  method HandlersEchoIsKeptTwice(validateName: string -> Option<string>)
    returns (stored: seq<Chat>)
    ensures |stored| == 2 && stored[0] == stored[1] && stored[0].message == "hello"
  {
    var tab := new ChatHandlers.Handlers("tab-1", validateName, "Yui", "#ff69b4", "", [], Vacant);
    assert Classify("hello") == Post;
    tab.Send("hello", tab.log, "b2", 2000);
    var echo := tab.outbox[|tab.outbox| - 1];
    tab.Receive(echo);
    stored := Load(tab.stored);
  }

  /** The refactored send puts the new entry in front of the log it is
      handed. When another tab's message arrives after that log was read,
      the send drops it, from the log and from storage.
      (`other` stands for another author's message.) */
  method HandlersStaleSendDropsArrival(validateName: string -> Option<string>, other: Chat)
    returns (log: seq<Chat>, stored: seq<Chat>)
    requires other.name != "Yui"
    ensures |log| == 1 && log[0].message == "hello" && log[0].name == "Yui"
    ensures other !in log && stored == log
  {
    var tab := new ChatHandlers.Handlers("tab-1", validateName, "Yui", "#ff69b4", "", [], Vacant);
    var rendered := tab.log;
    tab.Receive(ChatMsg(other));
    assert other in tab.log;
    assert Classify("hello") == Post;
    tab.Send("hello", rendered, "b2", 2000);
    log, stored := tab.log, Load(tab.stored);
  }
}
