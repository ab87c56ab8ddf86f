/**
 * ChatManager: the room chat. Messages travel as events to every peer;
 * each receiver appends the message to its local history and to the copy
 * kept in the room properties, both trimmed to the newest MaxMessages.
 */
module Chat {
  import opened Text
  import opened Photon

  const ChatEventCode: int := 1
  const MaxMessages: nat := 500

  /** List.Add followed by RemoveAt(0) when the count exceeds MaxMessages. */
  function AppendBounded(history: seq<string>, message: string): (r: seq<string>)
    ensures |r| > 0 && r[|r| - 1] == message
    ensures |history| < MaxMessages ==> r == history + [message]
    ensures |history| >= MaxMessages ==> r == history[1..] + [message]
    ensures |history| <= MaxMessages ==> |r| <= MaxMessages
  {
    var added := history + [message];
    if |added| > MaxMessages then added[1..] else added
  }

  /** The newest `n` elements of `s` (all of them when there are at most `n`). */
  function LastN<T>(s: seq<T>, n: nat): (r: seq<T>)
    ensures |r| == if |s| <= n then |s| else n
    ensures forall i :: 0 <= i < |r| ==> r[i] == s[|s| - |r| + i]
  {
    if |s| <= n then s else s[|s| - n..]
  }

  /** Trimming to the newest `n` and then appending and trimming again is the same as trimming once. */
  lemma LastNAppend<T>(s: seq<T>, t: seq<T>, n: nat)
    ensures LastN(LastN(s, n) + t, n) == LastN(s + t, n)
  {
    var left, right := LastN(LastN(s, n) + t, n), LastN(s + t, n);
    assert |left| == |right|;
    forall i | 0 <= i < |left|
      ensures left[i] == right[i]
    {
      var u := LastN(s, n) + t;
      assert left[i] == u[|u| - |left| + i];
      if |u| - |left| + i >= |LastN(s, n)| {
        assert u[|u| - |left| + i] == t[|u| - |left| + i - |LastN(s, n)|];
      }
    }
  }

  /** The history after appending `messages` one by one. */
  function AppendAll(history: seq<string>, messages: seq<string>): seq<string>
    decreases |messages|
  {
    if |messages| == 0 then history
    else AppendAll(AppendBounded(history, messages[0]), messages[1..])
  }

  /** From a history within the bound, one append is trimming to the newest MaxMessages. */
  lemma AppendBoundedIsLastN(history: seq<string>, message: string)
    requires |history| <= MaxMessages
    ensures AppendBounded(history, message) == LastN(history + [message], MaxMessages)
  {
  }

  /**
   * Starting from a history within the bound, any run of appends keeps
   * exactly the newest MaxMessages messages, oldest first.
   */
  lemma {:induction false} AppendAllKeepsNewest(history: seq<string>, messages: seq<string>)
    requires |history| <= MaxMessages
    ensures AppendAll(history, messages) == LastN(history + messages, MaxMessages)
    decreases |messages|
  {
    if |messages| == 0 {
      assert history + messages == history;
    } else {
      var first, rest := messages[0], messages[1..];
      var added := history + [first];
      AppendBoundedIsLastN(history, first);
      AppendAllKeepsNewest(AppendBounded(history, first), rest);
      LastNAppend(added, rest, MaxMessages);
      assert added + rest == history + messages;
    }
  }

  /** The transcript shown: the history, one message per line. */
  function Transcript(history: seq<string>): string
  {
    Join("\n", history)
  }

  /** A non-empty history of single-line messages can be read back from its transcript. */
  lemma TranscriptLines(history: seq<string>)
    requires |history| > 0
    requires forall i :: 0 <= i < |history| ==> '\n' !in history[i]
    ensures Split(Transcript(history), '\n') == history
  {
    SplitJoin(history, '\n');
  }

  /** The history kept in the room properties, empty when there is none. */
  function StoredHistory(props: Props): (h: seq<string>)
    requires Typed(props)
    ensures ChatHistoryKey !in props ==> h == []
  {
    if ChatHistoryKey in props then props[ChatHistoryKey].strs else []
  }

  /** The room history is within the bound. */
  predicate ChatBounded(props: Props)
    requires Typed(props)
  {
    |StoredHistory(props)| <= MaxMessages
  }

  /** What SaveMessageToRoom writes. */
  function SaveWrites(props: Props, message: string): (w: Props)
    requires Typed(props)
    ensures Typed(w) && ChatHistoryKey in w
    ensures forall k :: k in w ==> k == ChatHistoryKey
  {
    map[ChatHistoryKey := StringArray(AppendBounded(StoredHistory(props), message))]
  }

  /**
   * Saving keeps the room well typed and bounded, ends the stored history
   * with the message, and leaves every other key alone.
   */
  lemma SaveKeepsBound(props: Props, message: string)
    requires Typed(props)
    ensures var after := props + SaveWrites(props, message);
      && Typed(after)
      && (ChatBounded(props) ==> ChatBounded(after))
      && StoredHistory(after) == AppendBounded(StoredHistory(props), message)
      && (forall k :: k != ChatHistoryKey ==> (k in after <==> k in props) && (k in props ==> after[k] == props[k]))
  {
    TypedMerge(props, SaveWrites(props, message));
  }

  /** An event raised to every peer. */
  datatype ChatEvent = ChatEvent(code: int, content: string)

  class ChatManager {
    var messageHistory: seq<string>
    var chatContentText: string      // chatContentText.text
    var inputText: string            // inputField.text
    var raised: seq<ChatEvent>       // events raised so far

    constructor (chatContentText: string, inputText: string)
      ensures messageHistory == [] && raised == []
      ensures this.chatContentText == chatContentText && this.inputText == inputText
    {
      messageHistory := [];
      this.chatContentText := chatContentText;
      this.inputText := inputText;
      raised := [];
    }

    /** SendMessageToChat: blank input sends nothing; otherwise "nick: msg" goes to everybody and the input is cleared. */
    method SendMessageToChat(nickName: string)
      modifies this
      ensures IsNullOrWhiteSpace(old(inputText)) ==> unchanged(this)
      ensures !IsNullOrWhiteSpace(old(inputText)) ==>
        && raised == old(raised) + [ChatEvent(ChatEventCode, nickName + ": " + old(inputText))]
        && inputText == ""
        && messageHistory == old(messageHistory) && chatContentText == old(chatContentText)
    {
      var msg := inputText;
      if IsNullOrWhiteSpace(msg) {
        return;
      }
      var fullMessage := nickName + ": " + msg;
      raised := raised + [ChatEvent(ChatEventCode, fullMessage)];
      inputText := "";
    }

    /** AppendMessage: the bounded append, then the transcript is redrawn. */
    method AppendMessage(message: string)
      modifies this
      ensures messageHistory == AppendBounded(old(messageHistory), message)
      ensures chatContentText == Transcript(messageHistory)
      ensures inputText == old(inputText) && raised == old(raised)
    {
      messageHistory := messageHistory + [message];
      if |messageHistory| > MaxMessages {
        messageHistory := messageHistory[1..];
      }
      chatContentText := Join("\n", messageHistory);
    }

    /** SaveMessageToRoom: writes the stored history with the message appended under the same bound. */
    static method SaveMessageToRoom(room: PropertyBag, message: string)
      requires Typed(room.props)
      modifies room
      ensures room.props == old(room.props) + SaveWrites(old(room.props), message)
      ensures room.log == old(room.log) + [SaveWrites(old(room.props), message)]
    {
      var history := if ChatHistoryKey in room.props then room.props[ChatHistoryKey].strs else [];
      var temp := history + [message];
      if |temp| > MaxMessages {
        temp := temp[1..];
      }
      var props := map[ChatHistoryKey := StringArray(temp)];
      room.SetCustomProperties(props);
    }

    /** LoadHistoryFromRoom: takes the stored history when there is one; nothing without a room or a history. */
    method LoadHistoryFromRoom(room: PropertyBag?)
      requires room != null ==> Typed(room.props)
      modifies this
      ensures room == null || ChatHistoryKey !in room.props ==> unchanged(this)
      ensures room != null && ChatHistoryKey in room.props ==>
        && messageHistory == StoredHistory(room.props)
        && chatContentText == Transcript(messageHistory)
        && inputText == old(inputText) && raised == old(raised)
    {
      if room == null {
        return;
      }
      if ChatHistoryKey in room.props {
        var history := room.props[ChatHistoryKey].strs;
        messageHistory := history;
        chatContentText := Join("\n", messageHistory);
      }
    }

    /** OnEvent: a chat event is saved to the room and appended locally; other codes are ignored. */
    method OnEvent(code: int, customData: string, room: PropertyBag?)
      requires code == ChatEventCode ==> room != null && Typed(room.props)
      modifies this, room
      ensures code != ChatEventCode ==> unchanged(this) && (room != null ==> unchanged(room))
      ensures code == ChatEventCode ==>
        && room.props == old(room.props) + SaveWrites(old(room.props), customData)
        && room.log == old(room.log) + [SaveWrites(old(room.props), customData)]
        && messageHistory == AppendBounded(old(messageHistory), customData)
        && chatContentText == Transcript(messageHistory)
        && inputText == old(inputText) && raised == old(raised)
    {
      if code != ChatEventCode {
        return;
      }
      var msg := customData;
      SaveMessageToRoom(room, msg);
      AppendMessage(msg);
    }
  }
}
