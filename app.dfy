/** The root of the chat client: which screen is shown, which channel id
    is current and which channel record is selected.

    The sign-in state is delivered by the authentication service and the
    channel record by a channel query; both arrive here as parameters. */
module App {
  import opened Types
  import Seqs
  import Sidebar
  import ChatArea

  /** The three screens of the client; the main view carries the user it
      hands to the sidebar and the message pane. */
  datatype Screen = LoadingScreen | LoginScreen | MainView(user: User)

  /** While the sign-in state is loading the spinner is shown, whoever the
      user is; after that, a missing user gets the login screen and a
      signed-in user the main view. */
  function ChooseScreen(isLoading: bool, user: Option<User>): (r: Screen)
    ensures isLoading <==> r == LoadingScreen
    ensures r == LoginScreen <==> !isLoading && user.None?
    ensures r.MainView? <==> !isLoading && user.Some?
    ensures r.MainView? ==> r.user == user.value
  {
    if isLoading then LoadingScreen
    else if user.None? then LoginScreen
    else MainView(user.value)
  }

  /** The channel a query by id selects: its first row, provided there is
      one and it has an id; otherwise no channel. */
  function PickChannel(rows: seq<Channel>): (r: Option<Channel>)
    ensures r.Some? <==> rows != [] && rows[0].id != ""
    ensures r.Some? ==> r.value == rows[0]
  {
    if |rows| > 0 && rows[0].id != "" then Some(rows[0]) else None
  }

  const InitialChannel := "general"

  /** The root component's state. */
  class AppState {
    var user: Option<User>
    var currentChannel: string
    var selectedChannel: Option<Channel>
    var isLoading: bool

    /** A selected channel always has an id, so the message pane never
        ignores it (`OpenSelectedChannel`). */
    ghost predicate Valid()
      reads this
    {
      selectedChannel.Some? ==> selectedChannel.value.id != ""
    }

    /** Before the authentication service answers: no user, the "general"
        channel current, nothing selected, and loading. */
    constructor ()
      ensures Valid()
      ensures user == None && currentChannel == InitialChannel
      ensures selectedChannel == None && isLoading
    {
      user := None;
      currentChannel := InitialChannel;
      selectedChannel := None;
      isLoading := true;
    }

    /** A sign-in state change reported by the authentication service. */
    method AuthStateChanged(newUser: Option<User>, loading: bool)
      requires Valid()
      modifies this`user, this`isLoading
      ensures Valid()
      ensures user == newUser && isLoading == loading
    {
      user := newUser;
      isLoading := loading;
    }

    /** Loading the channel record for `channelId`: an empty id changes
        nothing; otherwise the selection becomes the first row of the
        query if it has an id, and nothing when the query found no usable
        row or failed. */
    method LoadChannel(channelId: string, fetched: Result<seq<Channel>>)
      requires Valid()
      modifies this`selectedChannel
      ensures Valid()
      ensures channelId == "" ==> selectedChannel == old(selectedChannel)
      ensures channelId != "" && fetched.Ok? ==> selectedChannel == PickChannel(fetched.value)
      ensures channelId != "" && fetched.Err? ==> selectedChannel == None
    {
      if channelId == "" {
        return;
      }
      match fetched {
        case Ok(rows) =>
          selectedChannel := PickChannel(rows);
        case Err(_) =>
          selectedChannel := None;
      }
    }

    /** Clicking a channel in the sidebar makes its id current and changes
        nothing else. */
    method HandleChannelSelect(channelId: string)
      requires Valid()
      modifies this`currentChannel
      ensures Valid()
      ensures currentChannel == channelId
    {
      currentChannel := channelId;
    }

    /** The screen for the current state: the spinner while the sign-in
        state loads, then the login screen without a user and the main view
        for the signed-in user. */
    function CurrentScreen(): (r: Screen)
      reads this
      ensures isLoading ==> r == LoadingScreen
      ensures !isLoading && user.None? ==> r == LoginScreen
      ensures r.MainView? <==> !isLoading && user.Some?
      ensures r.MainView? ==> user == Some(r.user)
    {
      ChooseScreen(isLoading, user)
    }
  }

  /** Clicking entry `c` of the sidebar's list: its id becomes current,
      and from then on the listed entries highlighted are exactly those
      with that id; with unique channel ids that is `c` alone. The list
      itself does not change. */
  method ClickChannel(app: AppState, list: Sidebar.ChannelList, c: Channel)
    requires app.Valid()
    requires c in list.Visible()
    modifies app`currentChannel
    ensures app.Valid()
    ensures app.currentChannel == c.id
    ensures list.Visible() == old(list.Visible())
    ensures forall i :: 0 <= i < |list.Visible()| ==>
              (Sidebar.IsHighlighted(app.currentChannel, list.Visible()[i]) <==> list.Visible()[i].id == c.id)
    ensures Seqs.DistinctKeys(list.channels, Sidebar.ChannelId) ==>
              forall i :: 0 <= i < |list.Visible()| ==>
                (Sidebar.IsHighlighted(app.currentChannel, list.Visible()[i]) <==> list.Visible()[i] == c)
  {
    app.HandleChannelSelect(c.id);
    var shown := list.Visible();
    if Seqs.DistinctKeys(list.channels, Sidebar.ChannelId) {
      Sidebar.AtMostOneHighlighted(list.channels, list.searchQuery, c.id);
    }
  }

  /** The message pane is handed the selected channel and loads its
      messages: a channel selected by the root always has an id, so that
      load is never skipped. */
  method OpenSelectedChannel(app: AppState, pane: ChatArea.ChatPane, fetched: Result<seq<Message>>)
    returns (fetching: bool)
    requires app.Valid() && pane.Valid()
    requires app.selectedChannel.Some?
    modifies pane`messages, pane`isLoading
    ensures pane.Valid()
    ensures fetching
    ensures !pane.isLoading
    ensures pane.messages == (if fetched.Ok? then ChatArea.KeepComplete(fetched.value) else [])
  {
    fetching := pane.LoadMessages(app.selectedChannel, fetched);
  }
}
