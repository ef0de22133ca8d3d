/** The message pane of the chat client: the list of messages of the
    selected channel, the draft being typed and the loading flag, the
    load and send operations that change them, and the rules that decide
    how each message is drawn.

    The backend's answers are parameters: `fetched` is what the message
    query returned (or the error it threw) and `reply` what the insert
    call returned. */
module ChatArea {
  import opened Types
  import opened Seqs
  import opened Text

  /** A fetched record is kept when its id, author, content and channel
      are all present: it is displayable and also names its channel. */
  predicate IsComplete(m: Message)
    ensures IsComplete(m) <==> IsDisplayable(m) && m.channelId != ""
  {
    m.id != "" && m.userId != "" && m.content != "" && m.channelId != ""
  }

  /** The check applied to the record returned by a send, and again to
      every message when it is drawn. It does not look at the channel. */
  predicate IsDisplayable(m: Message)
  {
    m.id != "" && m.userId != "" && m.content != ""
  }

  /** The records a load keeps, in the order the backend sent them. */
  function KeepComplete(fetched: seq<Message>): (r: seq<Message>)
    ensures forall i :: 0 <= i < |r| ==> IsComplete(r[i]) && IsDisplayable(r[i])
  {
    Filter(IsComplete, fetched)
  }

  /** A load keeps the complete records in fetched order: the result is a
      subsequence of the fetched list, and all of it when every record is
      complete. */
  lemma KeepCompleteInOrder(fetched: seq<Message>)
    ensures IsSubsequence(KeepComplete(fetched), fetched)
    ensures (forall i :: 0 <= i < |fetched| ==> IsComplete(fetched[i])) ==>
              KeepComplete(fetched) == fetched
  {
    FilterIsSubsequence(IsComplete, fetched);
    if forall i :: 0 <= i < |fetched| ==> IsComplete(fetched[i]) {
      FilterKeepsAll(IsComplete, fetched);
    }
  }

  /** A load keeps each complete record as often as it was fetched and no
      incomplete record at all; with `KeepCompleteInOrder` this fixes the
      loaded list exactly. */
  lemma KeepCompleteCounts(fetched: seq<Message>, m: Message)
    ensures multiset(KeepComplete(fetched))[m] == if IsComplete(m) then multiset(fetched)[m] else 0
  {
    FilterMultiplicity(IsComplete, fetched, m);
  }

  /** The guard at the top of a send: a draft that is not blank, a
      channel and a user, both with an id. A draft is blank exactly when
      every character of it is whitespace. */
  predicate CanSend(draft: string, channel: Option<Channel>, user: Option<User>)
    ensures CanSend(draft, channel, user) <==>
              !AllWhitespace(draft) && channel.Some? && channel.value.id != ""
              && user.Some? && user.value.id != ""
  {
    Trim(draft) != "" && channel.Some? && user.Some? && channel.value.id != "" && user.value.id != ""
  }

  /** The record a send asks the backend to create, if it asks at all:
      the draft without surrounding whitespace, as a text message of the
      signed-in user in the selected channel. The id is generated from the
      clock and a random number; here it is the parameter `messageId`. */
  function SendRequest(draft: string, channel: Option<Channel>, user: Option<User>,
                       messageId: string): (r: Option<MessageInput>)
    ensures r.Some? <==> CanSend(draft, channel, user)
    ensures r.Some? ==> r.value.id == messageId && r.value.channelId == channel.value.id
                        && r.value.userId == user.value.id && r.value.messageType == "text"
    ensures r.Some? ==> r.value.content == Trim(draft) && r.value.content != ""
                        && !IsJsWhitespace(r.value.content[0])
                        && !IsJsWhitespace(r.value.content[|r.value.content| - 1])
  {
    if CanSend(draft, channel, user) then
      Some(MessageInput(messageId, channel.value.id, user.value.id, Trim(draft), "text"))
    else None
  }

  /** The message the backend holds once it has stored `input` unchanged. */
  function Stored(input: MessageInput, createdAt: string): Message
  {
    Message(input.id, input.channelId, input.userId, input.content, input.messageType, createdAt)
  }

  /** A message the client sends, once stored as sent, passes the filter
      of every later load of its channel. */
  lemma SentMessageSurvivesReload(draft: string, channel: Option<Channel>, user: Option<User>,
                                  messageId: string, createdAt: string)
    requires messageId != ""
    requires SendRequest(draft, channel, user, messageId).Some?
    ensures var m := Stored(SendRequest(draft, channel, user, messageId).value, createdAt);
            IsComplete(m) && m.channelId == channel.value.id
            && KeepComplete([m]) == [m]
  {
    var m := Stored(SendRequest(draft, channel, user, messageId).value, createdAt);
    KeepCompleteInOrder([m]);
  }

  /** Whether message `index` starts a new block with the author's avatar
      and name: the first message does, and so does every message whose
      author differs from that of the message before it. */
  function ShowAvatar(messages: seq<Message>, index: nat): (r: bool)
    requires index < |messages|
    ensures index == 0 ==> r
    ensures index > 0 ==> (r <==> messages[index - 1].userId != messages[index].userId)
  {
    index == 0 || messages[index - 1].userId != messages[index].userId
  }

  /** Between `i` and `j` no avatar is shown exactly when every message in
      that stretch has the author of message `i`: avatars mark where the
      runs of one author begin. */
  lemma {:induction false} AvatarsMarkAuthorRuns(messages: seq<Message>, i: nat, j: nat)
    requires i <= j < |messages|
    ensures (forall k :: i < k <= j ==> !ShowAvatar(messages, k))
            <==> (forall k :: i <= k <= j ==> messages[k].userId == messages[i].userId)
    decreases j - i
  {
    if i < j {
      AvatarsMarkAuthorRuns(messages, i, j - 1);
      if forall k :: i < k <= j ==> !ShowAvatar(messages, k) {
        assert !ShowAvatar(messages, j);
        assert messages[j - 1].userId == messages[i].userId;
      }
      if forall k :: i <= k <= j ==> messages[k].userId == messages[i].userId {
        forall k | i < k <= j ensures !ShowAvatar(messages, k) {
          assert messages[k - 1].userId == messages[i].userId;
        }
      }
    }
  }

  /** Appending a message leaves the avatar decision of every earlier
      message as it was; the new one gets an avatar unless it continues
      the last author's run. */
  lemma AvatarsAfterAppend(messages: seq<Message>, m: Message)
    ensures forall k :: 0 <= k < |messages| ==> ShowAvatar(messages + [m], k) == ShowAvatar(messages, k)
    ensures ShowAvatar(messages + [m], |messages|)
            <==> messages == [] || messages[|messages| - 1].userId != m.userId
  {
  }

  const UnknownInitials := "U"

  /** The initials in an avatar: the first two characters of the author's
      id in upper case (one when the id is a single character), or "U"
      when there is no id. */
  function UserInitials(userId: string): (r: string)
    ensures userId == "" ==> r == UnknownInitials
    ensures userId != "" ==> |r| == (if |userId| < 2 then |userId| else 2)
    ensures userId != "" ==> forall i :: 0 <= i < |r| ==> r[i] == UpperChar(userId[i])
    ensures 1 <= |r| <= 2
    ensures forall i :: 0 <= i < |r| ==> !IsAsciiLower(r[i])
  {
    if userId == "" then UnknownInitials
    else Upper(userId[..if |userId| < 2 then |userId| else 2])
  }

  /** Ids that differ only in letter case get the same initials. */
  lemma InitialsIgnoreCase(a: string, b: string)
    requires Upper(a) == Upper(b)
    ensures UserInitials(a) == UserInitials(b)
  {
    assert |a| == |b|;
    if a != "" {
      var n := if |a| < 2 then |a| else 2;
      assert forall i :: 0 <= i < n ==> UpperChar(a[i]) == Upper(a)[i] == Upper(b)[i] == UpperChar(b[i]);
    }
  }

  const NoTime := "--:--"

  /** The time shown in a message header. Turning a non-empty timestamp
      into a local hour and minute is the platform's work; its outcome is
      `localized`. */
  function FormatTime(timestamp: string, localized: Result<string>): (r: string)
    ensures timestamp == "" ==> r == NoTime
    ensures timestamp != "" && localized.Err? ==> r == NoTime
    ensures timestamp != "" && localized.Ok? ==> r == localized.value
  {
    if timestamp == "" then NoTime
    else match localized
      case Ok(text) => text
      case Err(_) => NoTime
  }

  /** What the message area shows. */
  datatype Pane = ChooseChannel | Spinner | NoMessages | MessageList(rows: seq<Message>)

  /** Without a channel a prompt to choose one; otherwise a spinner while
      loading, a notice when there are no messages, or the messages that
      pass the drawing check, in list order. */
  function PaneView(channel: Option<Channel>, isLoading: bool, messages: seq<Message>): (r: Pane)
    ensures channel.None? <==> r == ChooseChannel
    ensures channel.Some? ==> (isLoading <==> r == Spinner)
    ensures channel.Some? && !isLoading ==> (messages == [] <==> r == NoMessages)
    ensures r.MessageList? ==>
              IsSubsequence(r.rows, messages) && forall i :: 0 <= i < |r.rows| ==> IsDisplayable(r.rows[i])
  {
    if channel.None? then ChooseChannel
    else if isLoading then Spinner
    else if messages == [] then NoMessages
    else
      FilterIsSubsequence(IsDisplayable, messages);
      MessageList(Filter(IsDisplayable, messages))
  }

  /** When every stored message is displayable, the list draws all of
      them: the check made while drawing hides nothing. */
  lemma NothingHidden(channel: Channel, messages: seq<Message>)
    requires messages != []
    requires forall i :: 0 <= i < |messages| ==> IsDisplayable(messages[i])
    ensures PaneView(Some(channel), false, messages) == MessageList(messages)
  {
    FilterKeepsAll(IsDisplayable, messages);
  }

  /** Whatever list a pane holds, once its channel is loaded the message
      area draws every stored message, in order: its invariant makes the
      check made while drawing redundant. */
  lemma PaneDrawsAll(pane: ChatPane, channel: Channel)
    requires pane.Valid() && pane.messages != []
    ensures PaneView(Some(channel), false, pane.messages) == MessageList(pane.messages)
  {
    NothingHidden(channel, pane.messages);
  }

  /** The state of the message pane. */
  class ChatPane {
    var messages: seq<Message>
    var newMessage: string
    var isLoading: bool

    /** Every stored message passes the check made while drawing. (Not
        every one need have a channel: a send does not check it.) */
    ghost predicate Valid()
      reads this
    {
      forall i :: 0 <= i < |messages| ==> IsDisplayable(messages[i])
    }

    constructor ()
      ensures Valid()
      ensures messages == [] && newMessage == "" && !isLoading
    {
      messages := [];
      newMessage := "";
      isLoading := false;
    }

    /** Typing into the input box replaces the draft. */
    method EditDraft(text: string)
      requires Valid()
      modifies this`newMessage
      ensures Valid()
      ensures newMessage == text
    {
      newMessage := text;
    }

    /** The part of a load before the fetch: it goes ahead only for a
        channel with an id, and then raises the loading flag. */
    method StartLoading(channel: Option<Channel>) returns (fetching: bool)
      requires Valid()
      modifies this`isLoading
      ensures Valid()
      ensures fetching <==> channel.Some? && channel.value.id != ""
      ensures isLoading == (fetching || old(isLoading))
    {
      fetching := channel.Some? && channel.value.id != "";
      if fetching {
        isLoading := true;
      }
    }

    /** The part of a load after the fetch: the complete fetched records
        replace the list, a failed fetch empties it, and the loading flag
        drops either way. */
    method FinishLoading(fetched: Result<seq<Message>>)
      modifies this`messages, this`isLoading
      ensures Valid()
      ensures messages == (if fetched.Ok? then KeepComplete(fetched.value) else [])
      ensures forall i :: 0 <= i < |messages| ==> IsComplete(messages[i])
      ensures !isLoading
    {
      match fetched {
        case Ok(records) =>
          messages := KeepComplete(records);
        case Err(_) =>
          messages := [];
      }
      isLoading := false;
    }

    /** Loading the messages of `channel`: nothing happens without a
        channel id; otherwise the list becomes the complete fetched
        records (empty on failure) and the pane stops loading. */
    method LoadMessages(channel: Option<Channel>, fetched: Result<seq<Message>>) returns (fetching: bool)
      requires Valid()
      modifies this`messages, this`isLoading
      ensures Valid()
      ensures fetching <==> channel.Some? && channel.value.id != ""
      ensures !fetching ==> messages == old(messages) && isLoading == old(isLoading)
      ensures fetching ==> !isLoading
      ensures fetching ==> messages == (if fetched.Ok? then KeepComplete(fetched.value) else [])
    {
      fetching := StartLoading(channel);
      if fetching {
        FinishLoading(fetched);
      }
    }

    /** The part of a send before the insert: the record to create from
        the current draft, or nothing when the guard fails. It changes no
        state; in particular the draft stays as it is until the reply. */
    method StartSending(channel: Option<Channel>, user: Option<User>, messageId: string)
      returns (request: Option<MessageInput>)
      ensures request == SendRequest(newMessage, channel, user, messageId)
    {
      request := SendRequest(newMessage, channel, user, messageId);
    }

    /** The part of a send after the insert. A reply that passes the check
        is appended after the messages held at that moment, and any reply
        clears the draft, whatever was typed meanwhile; a failed insert
        changes nothing. */
    method FinishSending(reply: Result<Message>)
      requires Valid()
      modifies this`messages, this`newMessage
      ensures Valid()
      ensures reply.Err? ==> messages == old(messages) && newMessage == old(newMessage)
      ensures reply.Ok? ==>
                newMessage == ""
                && messages == old(messages) + (if IsDisplayable(reply.value) then [reply.value] else [])
    {
      match reply {
        case Ok(m) =>
          if IsDisplayable(m) {
            messages := messages + [m];
          }
          newMessage := "";
        case Err(_) =>
      }
    }

    /** Sending the draft with nothing happening during the insert: when
        the guard fails nothing changes; otherwise the backend is asked to
        create `request`, and the reply is handled by `FinishSending`. */
    method SendMessage(channel: Option<Channel>, user: Option<User>, messageId: string,
                       reply: Result<Message>) returns (request: Option<MessageInput>)
      requires Valid()
      modifies this`messages, this`newMessage
      ensures Valid()
      ensures request == SendRequest(old(newMessage), channel, user, messageId)
      ensures request.None? || reply.Err? ==>
                messages == old(messages) && newMessage == old(newMessage)
      ensures request.Some? && reply.Ok? ==>
                newMessage == ""
                && messages == old(messages) + (if IsDisplayable(reply.value) then [reply.value] else [])
    {
      request := StartSending(channel, user, messageId);
      if request.Some? {
        FinishSending(reply);
      }
    }
  }
}
