// The refactored chat handlers hook: the same protocol as the monolithic
// component with a different policy on entering, leaving and clearing, and
// no ranking. The state it changes through its setters is kept here as the
// fields of one object.

module ChatHandlers {
  import opened ChatModel
  import opened LogStore
  import opened LogViews
  import opened Commands

  /** How an enter ends: admitted, or the validator's error (thrown). */
  datatype Outcome = Admitted | Rejected(error: string)

  /** The validator's answer rejects the name when it is a non-empty
      message: `if (err) throw new Error(err)`. */
  predicate Rejects(answer: Option<string>) {
    answer.Some? && answer.value != ""
  }

  class Handlers {
    const myId: string
    /** validateName: an error message for a bad name, none for a good one. */
    const validateName: string -> Option<string>
    var entered: bool
    var name: string
    var color: string
    var email: string
    /** The caller's draft message. */
    var message: string
    /** Newest first. */
    var log: seq<Chat>
    /** The local-storage slot behind saveChatLogs / loadChatLogs. */
    var stored: Slot
    /** Broadcasts posted by this tab, oldest first. */
    var outbox: seq<Msg>

    /** The storage holds exactly the part of the log a save keeps. */
    ghost predicate Synced()
      reads this
    {
      Load(stored) == Kept(log)
    }

    constructor (myId: string, validateName: string -> Option<string>,
                 name: string, color: string, email: string, log: seq<Chat>, stored: Slot)
      ensures this.myId == myId && this.validateName == validateName && !entered
      ensures this.name == name && this.color == color && this.email == email && message == ""
      ensures this.log == log && this.stored == stored && outbox == []
    {
      this.myId := myId;
      this.validateName := validateName;
      entered := false;
      this.name, this.color, this.email, message := name, color, email, "";
      this.log := log;
      this.stored := stored;
      outbox := [];
    }

    /** The broadcast handler. `chat` prepends and saves with no check for a
        duplicate; `req-presence` is answered with a join only while
        entered; `clear` empties the log and clears the storage; `join` and
        `leave` are ignored. */
    method Receive(m: Msg)
      modifies this
      ensures entered == old(entered) && name == old(name) && color == old(color)
      ensures email == old(email) && message == old(message)
      ensures m.ChatMsg? ==>
                log == [m.chat] + old(log) && stored == Save(log) && Synced() && outbox == old(outbox)
      ensures m.ReqPresence? ==>
                && log == old(log) && stored == old(stored)
                && outbox == old(outbox) + (if entered then [Join(User(myId, name, color))] else [])
      ensures m.ClearMsg? ==>
                log == [] && stored == Vacant && Synced() && outbox == old(outbox)
      ensures (m.Join? || m.Leave?) ==>
                log == old(log) && stored == old(stored) && outbox == old(outbox)
    {
      match m
      case ChatMsg(chat) =>
        log := [chat] + log;
        stored := Save(log);
      case ReqPresence =>
        if entered {
          outbox := outbox + [Join(User(myId, name, color))];
        }
      case ClearMsg =>
        log := [];
        stored := Vacant;
      case Join(_) =>
      case Leave(_) =>
    }

    /** Entering under entryName and entryColor. A name the validator rejects
        ends with its error and changes nothing. Otherwise the session is
        entered, the join notice is prepended to the log and saved, and the
        notice is posted at once, then the join (after 10 ms), then
        req-presence (after 30 ms). The session's own name and colour are
        the caller's to set. */
    method Enter(entryName: string, entryColor: string, token: string, now: int, greeting: string)
      returns (outcome: Outcome)
      modifies this
      ensures name == old(name) && color == old(color) && email == old(email) && message == old(message)
      ensures Rejects(validateName(entryName)) ==>
                && outcome == Rejected(validateName(entryName).value)
                && entered == old(entered) && log == old(log) && stored == old(stored)
                && outbox == old(outbox)
      ensures !Rejects(validateName(entryName)) ==>
                && outcome == Admitted && entered
                && log == [Notice(token, greeting, now)] + old(log)
                && stored == Save(log) && Synced()
                && outbox == old(outbox) + [ChatMsg(Notice(token, greeting, now)),
                                           Join(User(myId, entryName, entryColor)), ReqPresence]
    {
      var err := validateName(entryName);
      if Rejects(err) {
        return Rejected(err.value);
      }
      entered := true;
      var joinMsg := Notice(token, greeting, now);
      log := [joinMsg] + log;
      stored := Save(log);
      outbox := outbox + [ChatMsg(joinMsg)];
      outbox := outbox + [Join(User(myId, entryName, entryColor))];
      outbox := outbox + [ReqPresence];
      outcome := Admitted;
    }

    /** Leaving: the farewell notice is prepended to the log and saved (the
        log is kept), the notice is posted and then leave; the session is
        left and the name and the draft are reset. */
    method Exit(token: string, now: int, farewell: string)
      modifies this
      ensures color == old(color) && email == old(email)
      ensures !entered && name == "" && message == ""
      ensures log == [Notice(token, farewell, now)] + old(log) && stored == Save(log) && Synced()
      ensures outbox == old(outbox) + [ChatMsg(Notice(token, farewell, now)),
                                      Leave(User(myId, old(name), color))]
    {
      var leaveMsg := Notice(token, farewell, now);
      log := [leaveMsg] + log;
      stored := Save(log);
      outbox := outbox + [ChatMsg(leaveMsg)];
      outbox := outbox + [Leave(User(myId, name, color))];
      entered := false;
      name := "";
      message := "";
    }

    /** Sending msg. A blank msg changes nothing. "cut" drops the entries
        mentioning img from the current log and saves, posting nothing.
        "clear" empties the log, clears the storage and posts one clear.
        Any other text becomes a new entry with the session's name, colour
        and email, put in front of the chatLog argument (not the current
        log), saved and posted. The draft is emptied after every non-blank
        send. */
    method Send(msg: string, chatLog: seq<Chat>, token: string, now: int)
      modifies this
      ensures entered == old(entered) && name == old(name) && color == old(color) && email == old(email)
      ensures Classify(msg) == Blank ==>
                && message == old(message) && log == old(log) && stored == old(stored)
                && outbox == old(outbox)
      ensures Classify(msg) != Blank ==> message == ""
      ensures Classify(msg) == CutCommand ==>
                log == Cut(old(log)) && stored == Save(log) && Synced() && outbox == old(outbox)
      ensures Classify(msg) == ClearCommand ==>
                log == [] && stored == Vacant && Synced() && outbox == old(outbox) + [ClearMsg]
      ensures Classify(msg) == Post ==>
                && |log| == |chatLog| + 1 && log[1..] == chatLog
                && log[0] == Chat(token, name, color, msg, now, false, Some(email))
                && stored == Save(log) && Synced()
                && outbox == old(outbox) + [ChatMsg(log[0])]
    {
      match Classify(msg)
      case Blank =>
      case CutCommand =>
        log := Cut(log);
        stored := Save(log);
        message := "";
      case ClearCommand =>
        log := [];
        stored := Vacant;
        outbox := outbox + [ClearMsg];
        message := "";
      case Post =>
        var chat := Chat(token, name, color, msg, now, false, Some(email));
        log := [chat] + chatLog;
        stored := Save(log);
        outbox := outbox + [ChatMsg(chat)];
        message := "";
    }

    /** Reloading: the log is replaced wholesale by what storage holds. */
    method Reload()
      modifies this
      ensures log == Load(stored)
      ensures entered == old(entered) && name == old(name) && color == old(color)
      ensures email == old(email) && message == old(message)
      ensures stored == old(stored) && outbox == old(outbox)
    {
      log := Load(stored);
    }
  }
}
