// The persisted copy of the log: one local-storage slot holding a JSON array
// of at most MaxChatLog entries, newest first.

module LogStore {
  import opened ChatModel

  const MaxChatLog: nat := 2000

  /** What JSON.parse makes of the stored text. */
  datatype Payload =
    | Unparsable                        // JSON.parse throws
    | JsonArray(entries: seq<Chat>)     // an array of chat records
    | JsonNonArray                      // valid JSON that is not an array

  /** The storage slot: removed, or holding a payload. */
  datatype Slot = Vacant | Holds(payload: Payload)

  /** The entries a save keeps: the newest MaxChatLog. */
  function Kept(log: seq<Chat>): (r: seq<Chat>)
    ensures |r| == if |log| <= MaxChatLog then |log| else MaxChatLog
    ensures r == log[..|r|]
  {
    if |log| <= MaxChatLog then log else log[..MaxChatLog]
  }

  /** saveChatLog / saveChatLogs: overwrite the slot with the first
      MaxChatLog entries. */
  function Save(log: seq<Chat>): Slot {
    Holds(JsonArray(Kept(log)))
  }

  /** loadChatLogs: the stored array, or [] when nothing is stored, the text
      does not parse, or it parses to something other than an array. */
  function Load(slot: Slot): seq<Chat> {
    match slot
    case Holds(JsonArray(entries)) => entries
    case _ => []
  }

  /** Saving a log the store can hold and loading it gives it back. */
  lemma LoadSaveRoundTrip(log: seq<Chat>)
    requires |log| <= MaxChatLog
    ensures Load(Save(log)) == log
  {
  }

  /** Saving a longer log and loading it gives its newest MaxChatLog entries. */
  lemma LoadSaveTruncates(log: seq<Chat>)
    requires |log| > MaxChatLog
    ensures |Load(Save(log))| == MaxChatLog
    ensures forall i :: 0 <= i < MaxChatLog ==> Load(Save(log))[i] == log[i]
  {
  }

  /** Load after a clear (the slot removed) is empty, and so is Load after
      an unparsable or non-array payload. */
  lemma LoadFailsSoft()
    ensures Load(Vacant) == []
    ensures Load(Holds(Unparsable)) == []
    ensures Load(Holds(JsonNonArray)) == []
  {
  }

  /** What the monolithic component's loader can hand back: a log, or the
      parsed non-array value it passes through under the type Chat[]. */
  datatype Loaded = Entries(entries: seq<Chat>) | NotAList

  /** loadChatLog as written in the monolithic component: `dat ?
      JSON.parse(dat) : []`, with a parse failure caught as []. */
  function LoadAsWritten(slot: Slot): Loaded {
    match slot
    case Vacant => Entries([])
    case Holds(Unparsable) => Entries([])
    case Holds(JsonArray(entries)) => Entries(entries)
    case Holds(JsonNonArray) => NotAList
  }

  /** The as-written loader lets a non-array payload through, where the
      store's contract answers []. */
  lemma LoadAsWrittenPassesNonArray()
    ensures LoadAsWritten(Holds(JsonNonArray)) == NotAList
    ensures Load(Holds(JsonNonArray)) == []
  {
  }

  /** Wherever the as-written loader does return a log, Load returns the
      same log; they differ only on the non-array payload. */
  lemma LoadAgreesWithAsWritten(slot: Slot)
    ensures LoadAsWritten(slot).Entries? ==> Load(slot) == LoadAsWritten(slot).entries
    ensures LoadAsWritten(slot).NotAList? <==> slot == Holds(JsonNonArray)
  {
  }
}
