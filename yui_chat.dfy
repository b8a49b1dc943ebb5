// The monolithic chat component: one tab's session state and its handlers
// for entering, leaving, sending, reloading and inbound broadcasts.

module YuiChat {
  import opened Text
  import opened ChatModel
  import opened LogStore
  import opened LogViews
  import opened Commands

  const DefaultColor: string := "#ff69b4"

  /** The email recorded on a sent message: `email.trim() || undefined`. */
  function EmailField(email: string): Option<string> {
    if IsBlank(email) then None else Some(Trim(email))
  }

  /** A blank email is left out of the entry; any other is recorded trimmed
      of the white space around it. */
  lemma EmailFieldTrims(before: string, address: string, after: string)
    requires AllSpace(before) && AllSpace(after)
    requires address != [] && !IsSpace(address[0]) && !IsSpace(address[|address| - 1])
    ensures EmailField(before + address + after) == Some(address)
    ensures EmailField(before + after) == None
  {
    TrimPadded(before, address, after);
    assert AllSpace(before + after);
    BlankIffAllSpace(before + after);
  }

  class Session {
    const myId: string
    var entered: bool
    var name: string
    var color: string
    var email: string
    /** The draft in the message box. */
    var message: string
    /** Newest first. */
    var log: seq<Chat>
    var ranking: map<string, nat>
    /** The local-storage slot. */
    var stored: Slot
    /** Broadcasts posted by this tab, oldest first. */
    var outbox: seq<Msg>

    /** The storage holds exactly the part of the log a save keeps. */
    ghost predicate Synced()
      reads this
    {
      Load(stored) == Kept(log)
    }

    /** Mounting the component: the entry form is shown, so the log is
        loaded from storage for preview. */
    constructor (myId: string, stored: Slot)
      ensures this.myId == myId && !entered
      ensures name == "" && color == DefaultColor && email == "" && message == ""
      ensures log == Load(stored) && ranking == map[]
      ensures this.stored == stored && outbox == []
    {
      this.myId := myId;
      entered := false;
      name, color, email, message := "", DefaultColor, "", "";
      log := Load(stored);
      ranking := map[];
      this.stored := stored;
      outbox := [];
    }

    /** The broadcast handler. `chat` prepends and saves, counting the entry
        for its author unless it is a system notice or has no name;
        `req-presence` is answered with a join only while entered; `clear`
        empties the log and saves the empty log; `join` and `leave` are
        ignored. */
    method Receive(m: Msg)
      modifies this
      ensures entered == old(entered) && name == old(name) && color == old(color)
      ensures email == old(email) && message == old(message)
      ensures m.ChatMsg? ==>
                && log == [m.chat] + old(log)
                && stored == Save(log) && Synced()
                && ranking == (if !m.chat.system && m.chat.name != ""
                               then Bump(old(ranking), m.chat.name) else old(ranking))
                && outbox == old(outbox)
      ensures m.ReqPresence? ==>
                && log == old(log) && stored == old(stored) && ranking == old(ranking)
                && outbox == old(outbox) + (if entered then [Join(User(myId, name, color))] else [])
      ensures m.ClearMsg? ==>
                && log == [] && stored == Save([]) && Load(stored) == []
                && ranking == old(ranking) && outbox == old(outbox)
      ensures (m.Join? || m.Leave?) ==>
                log == old(log) && stored == old(stored) && ranking == old(ranking) && outbox == old(outbox)
    {
      match m
      case ChatMsg(chat) =>
        log := [chat] + log;
        stored := Save(log);
        if !chat.system && chat.name != "" {
          ranking := Bump(ranking, chat.name);
        }
      case ReqPresence =>
        if entered {
          outbox := outbox + [Join(User(myId, name, color))];
        }
      case ClearMsg =>
        log := [];
        stored := Save([]);
      case Join(_) =>
      case Leave(_) =>
    }

    /** Entering: nothing happens for a blank name. Otherwise the session is
        entered and the log becomes the join notice followed by what storage
        holds, without saving; the notice is posted at once, then the join,
        then req-presence (the last two on timers). */
    method Enter(token: string, now: int, greeting: string)
      modifies this
      ensures name == old(name) && color == old(color) && email == old(email)
      ensures message == old(message) && ranking == old(ranking) && stored == old(stored)
      ensures IsBlank(old(name)) ==>
                entered == old(entered) && log == old(log) && outbox == old(outbox)
      ensures !IsBlank(old(name)) ==>
                && entered
                && log == [Notice(token, greeting, now)] + Load(stored)
                && outbox == old(outbox) + [ChatMsg(Notice(token, greeting, now)),
                                           Join(User(myId, name, color)), ReqPresence]
      ensures !IsBlank(old(name)) && |Load(stored)| < MaxChatLog ==> !Synced()
    {
      if IsBlank(name) {
        return;
      }
      entered := true;
      var joinMsg := Notice(token, greeting, now);
      log := [joinMsg] + Load(stored);
      outbox := outbox + [ChatMsg(joinMsg)];
      outbox := outbox + [Join(User(myId, name, color))];
      outbox := outbox + [ReqPresence];
    }

    /** Leaving: the farewell notice is posted (not added to the log), then
        leave; the session is left and the log, the ranking and the storage
        slot are wiped. */
    method Exit(token: string, now: int, farewell: string)
      modifies this
      ensures name == old(name) && color == old(color) && email == old(email) && message == old(message)
      ensures !entered && log == [] && ranking == map[] && stored == Vacant && Synced()
      ensures outbox == old(outbox) + [ChatMsg(Notice(token, farewell, now)),
                                      Leave(User(myId, name, color))]
    {
      outbox := outbox + [ChatMsg(Notice(token, farewell, now))];
      outbox := outbox + [Leave(User(myId, name, color))];
      entered := false;
      log := [];
      ranking := map[];
      stored := Vacant;
    }

    /** Sending the draft. A blank draft changes nothing. "cut" (after
        trimming) drops the entries mentioning img and saves, posting
        nothing. "clear" empties the log, saves the empty log and posts one
        clear. Any other draft becomes a new entry at the head of the log
        with the session's name and colour and the untrimmed text; it is
        saved, posted and counted for the session's name. The draft is
        emptied after every non-blank send. */
    method Send(token: string, now: int)
      modifies this
      ensures entered == old(entered) && name == old(name) && color == old(color) && email == old(email)
      ensures Classify(old(message)) == Blank ==>
                && message == old(message) && log == old(log) && stored == old(stored)
                && ranking == old(ranking) && outbox == old(outbox)
      ensures Classify(old(message)) != Blank ==> message == ""
      ensures Classify(old(message)) == CutCommand ==>
                && log == Cut(old(log)) && stored == Save(log) && Synced()
                && ranking == old(ranking) && outbox == old(outbox)
      ensures Classify(old(message)) == ClearCommand ==>
                && log == [] && stored == Save([]) && Synced()
                && ranking == old(ranking) && outbox == old(outbox) + [ClearMsg]
      ensures Classify(old(message)) == Post ==>
                && |log| == |old(log)| + 1 && log[1..] == old(log)
                && log[0] == Chat(token, name, color, old(message), now, false, EmailField(email))
                && stored == Save(log) && Synced()
                && outbox == old(outbox) + [ChatMsg(log[0])]
                && ranking == Bump(old(ranking), name)
    {
      match Classify(message)
      case Blank =>
      case CutCommand =>
        log := Cut(log);
        stored := Save(log);
        message := "";
      case ClearCommand =>
        log := [];
        stored := Save([]);
        outbox := outbox + [ClearMsg];
        message := "";
      case Post =>
        var chat := Chat(token, name, color, message, now, false, EmailField(email));
        log := [chat] + log;
        stored := Save(log);
        outbox := outbox + [ChatMsg(chat)];
        ranking := Bump(ranking, name);
        message := "";
    }

    /** Reloading: the log is replaced by what storage holds. */
    method Reload()
      modifies this
      ensures log == Load(stored)
      ensures entered == old(entered) && name == old(name) && color == old(color)
      ensures email == old(email) && message == old(message)
      ensures ranking == old(ranking) && stored == old(stored) && outbox == old(outbox)
    {
      log := Load(stored);
    }
  }
}
