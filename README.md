# Company chat client: verified model of the client-side logic

This project models the local, sequential logic of a small company chat
client. The client has a channel sidebar, a message pane and a root
component that picks the screen. Everything remote goes through a hosted
backend's SDK: sign-in, the channel query, the message query and the
message insert. The model does not contain those calls. Each remote
outcome is a parameter of type `Result<T>`: either the records returned
(`Ok`) or the error thrown (`Err`).

Modules, one per source file plus two helpers:

- `Types` (`types.dfy`): the `User`, `Channel` and `Message` records,
  plus `MessageInput`, the fields the client sends to the insert call.
  JavaScript truthiness of a string field means "non-empty". An absent
  required field is the empty string. The optional fields
  (`displayName`, `avatar`, `description`, `status`) are `Option`s. A
  `null` message record in the backend's answer needs no case of its own:
  every message check treats it like a record with empty fields (dropped,
  not appended). The same holds for a `null` first row of the channel
  lookup: the error it raises is caught, and the selection ends up empty,
  as for a row with an empty id.
- `Seqs` (`seqs.dfy`): `Filter`, the order-preserving `Array.filter`, with
  lemmas. The result is a subsequence of the input. Each element that
  satisfies the predicate is kept as often as it occurs, and every other
  element is dropped. Filtering keeps everything when every element
  passes. Two predicates that agree give the same result. Distinct keys
  stay distinct.
- `Text` (`text.dfy`): ASCII case folding, `includes` (`Contains`, proved
  equal to "some occurrence exists"), and `trim`. `Trim` removes exactly
  the ECMAScript whitespace and line-terminator code points.
- `ChatArea` (`chat_area.dfy`): the class `ChatPane` holds the fields
  `messages`, `newMessage` and `isLoading`. The model splits a load at the
  `await` into `StartLoading` and `FinishLoading`, so the state where the
  spinner shows is visible; `LoadMessages` composes the two. A send is
  split the same way into `StartSending` and `FinishSending`, and
  `SendMessage` composes them. The module also has the send guard and
  request, and the display rules (avatar
  headers, initials, time fallback, what the pane shows).
- `Sidebar` (`sidebar.dfy`): the class `ChannelList` holds `channels` and
  `searchQuery`. The module also has the case-insensitive search filter,
  the highlight, and the profile name and avatar-letter fallback chains.
- `App` (`app.dfy`): the class `AppState` holds `user`, `currentChannel`,
  `selectedChannel` and `isLoading`. The module also has the
  loading/login/main screen choice and the rule that picks a channel from
  a query by id.

Two checks on messages differ, and the model keeps them apart:

- A load keeps a record only when id, author, content and channel are all
  present (`IsComplete`).
- A send appends the returned record when id, author and content are
  present (`IsDisplayable`). It does not look at the channel.

So the invariant that every method of `ChatPane` keeps is "every stored
message is displayable". After a successful load, every message is
complete as well.

Failed remote calls are handled differently in each place, and the model
keeps each behaviour:

- A failed message load empties the message list (ChatArea.tsx:42).
- A failed channel-list load keeps the old list (Sidebar.tsx:26-28).
- A failed channel lookup clears the selection (App.tsx:34-36).
- A failed send changes neither the list nor the draft (ChatArea.tsx:77-80).

## Model

| member | source | states |
|---|---|---|
| `ChatArea.IsComplete` | src/components/chat/ChatArea.tsx:37 | a record passes the load filter exactly when it passes the drawing check and also names its channel |
| `ChatArea.KeepComplete` | src/components/chat/ChatArea.tsx:36-38 | every record a load keeps has a non-empty id, author, content and channel |
| `ChatArea.KeepCompleteInOrder` | src/components/chat/ChatArea.tsx:36-39 | the loaded list keeps fetched order (a subsequence of the fetched list), and is the whole fetched list when every record is complete |
| `ChatArea.KeepCompleteCounts` | src/components/chat/ChatArea.tsx:36-39 | each complete fetched record is kept as often as it was fetched and no incomplete record is kept, so with the order lemma the loaded list is exactly the complete records |
| `ChatArea.ChatPane.constructor` | src/components/chat/ChatArea.tsx:16-18 | the pane starts with no messages, an empty draft and not loading |
| `ChatArea.ChatPane.EditDraft` | src/components/chat/ChatArea.tsx:225 | typing replaces the draft |
| `ChatArea.ChatPane.StartLoading` | src/components/chat/ChatArea.tsx:26-29 | a load goes ahead exactly when there is a channel with an id, and then sets the loading flag; otherwise nothing changes |
| `ChatArea.ChatPane.FinishLoading` | src/components/chat/ChatArea.tsx:30-45 | a fetched list becomes its complete records and a failed fetch empties the list; the loading flag is false after both |
| `ChatArea.ChatPane.LoadMessages` | src/components/chat/ChatArea.tsx:25-46 | with no channel or no channel id nothing changes; otherwise the list is the complete fetched records, or empty on failure, and loading is over; every stored message stays displayable |
| `ChatArea.CanSend` | src/components/chat/ChatArea.tsx:59 | a send goes ahead exactly when the draft has a character that is not whitespace and a channel and a user, both with a non-empty id, are present |
| `ChatArea.SendRequest` | src/components/chat/ChatArea.tsx:59-70 | a request is made exactly when the trimmed draft is non-empty and channel, user and both ids are present; it carries the given id, the channel id, the user id, the trimmed draft and type "text", and its content is non-empty with no whitespace at either end |
| `ChatArea.ChatPane.StartSending` | src/components/chat/ChatArea.tsx:59-70 | before the insert the request is the one `SendRequest` builds from the current draft, and no state changes |
| `ChatArea.ChatPane.FinishSending` | src/components/chat/ChatArea.tsx:64-80 | after the insert, a reply clears the draft whatever it holds by then and is appended after the messages held at that moment exactly when it is displayable; a thrown insert changes nothing; every stored message stays displayable |
| `ChatArea.ChatPane.SendMessage` | src/components/chat/ChatArea.tsx:58-81 | a send with nothing happening during the insert: when the guard fails or the insert throws, list and draft are unchanged; on a reply the draft is cleared and the reply is appended after the unchanged earlier messages exactly when it is displayable |
| `ChatArea.SentMessageSurvivesReload` | src/components/chat/ChatArea.tsx:64-70 | a sent message, once stored as sent, is complete and belongs to the channel, so a later load of that channel keeps it |
| `ChatArea.ShowAvatar` | src/components/chat/ChatArea.tsx:168 | the first message shows its author's avatar; a later one shows it exactly when its author differs from the previous message's |
| `ChatArea.AvatarsMarkAuthorRuns` | src/components/chat/ChatArea.tsx:168 | no avatar is shown in a stretch of messages exactly when all of them have the stretch's first author, so avatars mark where each author's run starts |
| `ChatArea.AvatarsAfterAppend` | src/components/chat/ChatArea.tsx:168 | appending a message does not change the avatar decision for earlier messages; the new message gets an avatar unless the last message has the same author |
| `ChatArea.UserInitials` | src/components/chat/ChatArea.tsx:103-109 | "U" for an empty id; otherwise the first min(2, length) characters upper-cased; always 1 or 2 characters with no lower-case letter |
| `ChatArea.InitialsIgnoreCase` | src/components/chat/ChatArea.tsx:108 | ids that differ only in letter case give the same initials |
| `ChatArea.FormatTime` | src/components/chat/ChatArea.tsx:90-101 | "--:--" for an empty timestamp or a failed conversion; otherwise the platform's local time text |
| `ChatArea.PaneView` | src/components/chat/ChatArea.tsx:111-165 | a prompt when there is no channel; otherwise a spinner exactly when loading, then a notice exactly when there are no messages; the listed rows are a subsequence of the messages and all displayable |
| `ChatArea.NothingHidden` | src/components/chat/ChatArea.tsx:161-165 | when every stored message is displayable, the drawing check hides none of them |
| `ChatArea.PaneDrawsAll` | src/components/chat/ChatArea.tsx:161-165 | for any pane that keeps its invariant and holds messages, the loaded channel's message area draws exactly the stored list, so the drawing check never hides a message |
| `Text.Trim` | src/components/chat/ChatArea.tsx:59 | the trimmed draft is a contiguous piece of the draft; everything before and after it is whitespace, it has no whitespace at either end, and it is empty exactly when the draft is all whitespace |
| `Text.Lower` | src/components/layout/Sidebar.tsx:36 | lower-casing keeps the length, turns every ASCII capital into its small letter, keeps every other character, and leaves no capital |
| `Text.Upper` | src/components/chat/ChatArea.tsx:108 | upper-casing keeps the length, turns every ASCII small letter into its capital, keeps every other character, and leaves no small letter |
| `Text.Contains` | src/components/layout/Sidebar.tsx:36 | the empty query is contained in every name, a query longer than the name in none, and one of equal length only in an equal name |
| `Text.ContainsIffOccurs` | src/components/layout/Sidebar.tsx:36 | `includes` is true exactly when the query occurs in the name at some position |
| `Sidebar.NameMatches` | src/components/layout/Sidebar.tsx:36 | a channel matches exactly when the lower-cased query occurs at some position of its lower-cased name |
| `Sidebar.FilteredChannels` | src/components/layout/Sidebar.tsx:35-37 | every listed channel's lower-cased name contains the lower-cased query |
| `Sidebar.FilteredChannelsExact` | src/components/layout/Sidebar.tsx:35-37 | the listed channels are exactly the matching ones, in list order (a subsequence), each as often as it appears in the list |
| `Sidebar.EmptyQueryKeepsAll` | src/components/layout/Sidebar.tsx:35-37 | an empty search lists every channel |
| `Sidebar.QueryIgnoresCase` | src/components/layout/Sidebar.tsx:36 | two queries whose lower-cased forms are equal list the same channels |
| `Sidebar.UpperCaseQuerySame` | src/components/layout/Sidebar.tsx:36 | upper-casing the query does not change the list |
| `Sidebar.AtMostOneHighlighted` | src/components/layout/Sidebar.tsx:78 | when channel ids are unique, at most one listed entry is highlighted, whatever the query |
| `Sidebar.ProfileName` | src/components/layout/Sidebar.tsx:140 | the display name if non-empty, else the e-mail if non-empty, else "Użytkownik"; never empty |
| `Sidebar.AvatarLetter` | src/components/layout/Sidebar.tsx:133 | the avatar letter is always exactly one character |
| `Sidebar.AvatarLetterStartsProfileName` | src/components/layout/Sidebar.tsx:133 | the avatar letter is the first character of the shown profile name ("U" for "Użytkownik"): the two fallback chains pick the same source |
| `Sidebar.ChannelList.constructor` | src/components/layout/Sidebar.tsx:17-18 | the sidebar starts with no channels and an empty query |
| `Sidebar.ChannelList.LoadChannels` | src/components/layout/Sidebar.tsx:20-29 | a successful query replaces the whole list; a failed one leaves it unchanged |
| `Sidebar.ChannelList.EditSearch` | src/components/layout/Sidebar.tsx:54 | typing replaces the search query |
| `Sidebar.ChannelList.Visible` | src/components/layout/Sidebar.tsx:73 | every channel the sidebar lists matches the current query |
| `App.ClickChannel` | src/components/layout/Sidebar.tsx:76-78 | clicking a listed entry makes its id current; the listed entries then highlighted are exactly those with that id, and with unique ids exactly the clicked entry; the list does not change |
| `App.OpenSelectedChannel` | src/components/chat/ChatArea.tsx:48-52 | the channel the root selects and hands to the message pane (App.tsx:89-90) always has an id, so its load is never skipped: loading is over and the list is the complete fetched records, or empty on failure |
| `App.ChooseScreen` | src/App.tsx:50-93 | loading shows the spinner whatever the user; otherwise a missing user gets the login screen and a signed-in user gets the main view with that user |
| `App.PickChannel` | src/App.tsx:28-33 | a channel is selected exactly when the query returned rows and the first row has an id, and then it is that first row |
| `App.AppState.constructor` | src/App.tsx:8-11 | initially no user, current channel "general", nothing selected, and loading |
| `App.AppState.AuthStateChanged` | src/App.tsx:14-17 | a sign-in report sets the user and the loading flag |
| `App.AppState.LoadChannel` | src/App.tsx:21-38 | an empty id changes nothing; otherwise the selection is the picked first row, or none when no row qualifies or the query fails; a selected channel always has an id |
| `App.AppState.HandleChannelSelect` | src/App.tsx:46-48 | selecting sets the current channel id and changes nothing else |
| `App.AppState.CurrentScreen` | src/App.tsx:50-93 | the spinner while the sign-in state loads; then the login screen without a user, and otherwise the main view for exactly the signed-in user |

## Left out

- Calls to the hosted backend's SDK (channel and message queries, message insert, sign-in subscription and login) are not modelled. Their outcomes are parameters.
- The message id comes from the clock and a random number. Here it is the parameter `messageId`. `SentMessageSurvivesReload` requires it to be non-empty, which the generated `msg_…` form always is.
- Converting a timestamp to a local hour and minute is the platform's work. Its outcome is the parameter `localized` of `FormatTime`.
- React effects are not modelled as such. These are: loading the channels on mount, loading the selected channel when the current id changes, and loading the messages when the channel changes (only its composition with the root's selection, `OpenSelectedChannel`, is stated). Scrolling to the bottom, Enter-key handling and the disabled state of the send button are left out too. The operations those effects call are modelled.
- Overlapping loads can finish out of order. This is an effect of the event loop. The model gives the two halves of a load as separate methods but states no property of interleaved runs.
- ChatArea.ChatPane.SendMessage: states a send with nothing happening during the insert. Nothing in the client blocks a second Enter while the insert is pending, so the same draft can be sent twice and stored twice. Text typed during the insert is erased when the reply arrives. The halves `StartSending` and `FinishSending` show both effects (the draft is not cleared before the reply, and the reply clears whatever draft there is), but no lemma about interleaved sends is stated.
- Upper- and lower-casing cover ASCII letters only. Full Unicode case mapping is not modelled. Neither is cutting a string into UTF-16 code units: `substring(0, 2)` and `charAt(0)` count code units, and the model counts characters. So for a name or id that starts outside the Basic Multilingual Plane, the real initials and avatar letter are half a surrogate pair, while the model's are one whole character (`AvatarLetter` and `AvatarLetterStartsProfileName` rely on this).
- The `typeof userId !== 'string'` branch of the initials is left out. The field is a string in every record.
- The rest of the drawing is left out: the "Ty" author label, bubble colours, the channel header and the hard-coded direct-message entries in the sidebar.
- A `null` channel row in the sidebar's list, or one whose `name` is not a string, makes the sidebar's filter throw while drawing (Sidebar.tsx:36). The model reads an absent name as `""`, so such a row is listed for an empty query and hidden otherwise.
- The error and warning messages written to the browser console are left out (ChatArea.tsx:41, 78, 98; Sidebar.tsx:27; App.tsx:31, 35). They change no state.
- `ChannelMember` is not used by the client's logic.
