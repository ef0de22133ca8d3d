/** The sidebar of the chat client: the channel list with its search box
    and highlight, and the signed-in user's name and avatar letter.

    What the channel query returned (or the error it threw) is the
    parameter `fetched`. */
module Sidebar {
  import opened Types
  import opened Seqs
  import opened Text

  /** A channel passes the search when its lower-cased name contains the
      lower-cased query, that is, when the query occurs in the name at some
      position once letter case is ignored. */
  predicate NameMatches(c: Channel, query: string)
    ensures NameMatches(c, query) <==> exists i :: OccursAt(Lower(c.name), Lower(query), i)
  {
    ContainsIffOccurs(Lower(c.name), Lower(query));
    Contains(Lower(c.name), Lower(query))
  }

  /** The channels listed under the search box. */
  function FilteredChannels(channels: seq<Channel>, query: string): (r: seq<Channel>)
    ensures forall i :: 0 <= i < |r| ==> NameMatches(r[i], query)
  {
    Filter((c: Channel) => NameMatches(c, query), channels)
  }

  /** The search keeps exactly the matching channels: in list order (a
      subsequence), each matching channel as often as it is listed, and no
      other channel. */
  lemma FilteredChannelsExact(channels: seq<Channel>, query: string)
    ensures IsSubsequence(FilteredChannels(channels, query), channels)
    ensures forall c :: multiset(FilteredChannels(channels, query))[c] ==
                          if NameMatches(c, query) then multiset(channels)[c] else 0
  {
    var p := (c: Channel) => NameMatches(c, query);
    FilterIsSubsequence(p, channels);
    forall c ensures multiset(FilteredChannels(channels, query))[c] ==
                       if NameMatches(c, query) then multiset(channels)[c] else 0 {
      FilterMultiplicity(p, channels, c);
    }
  }

  /** An empty search box lists every channel. */
  lemma EmptyQueryKeepsAll(channels: seq<Channel>)
    ensures FilteredChannels(channels, "") == channels
  {
    var p := (c: Channel) => NameMatches(c, "");
    forall i | 0 <= i < |channels| ensures p(channels[i]) {
      assert Contains(Lower(channels[i].name), Lower(""));
    }
    FilterKeepsAll(p, channels);
  }

  /** Queries that differ only in letter case list the same channels. */
  lemma QueryIgnoresCase(channels: seq<Channel>, q1: string, q2: string)
    requires Lower(q1) == Lower(q2)
    ensures FilteredChannels(channels, q1) == FilteredChannels(channels, q2)
  {
    FilterCongruent((c: Channel) => NameMatches(c, q1), (c: Channel) => NameMatches(c, q2), channels);
  }

  /** In particular, typing the query in capitals changes nothing. */
  lemma UpperCaseQuerySame(channels: seq<Channel>, query: string)
    ensures FilteredChannels(channels, Upper(query)) == FilteredChannels(channels, query)
  {
    LowerOfUpper(query);
    QueryIgnoresCase(channels, Upper(query), query);
  }

  /** A channel entry is highlighted when it is the current channel. */
  predicate IsHighlighted(currentChannel: string, c: Channel)
  {
    currentChannel == c.id
  }

  function ChannelId(c: Channel): string { c.id }

  /** When channel ids are unique, at most one listed entry is
      highlighted, whatever the query. */
  lemma AtMostOneHighlighted(channels: seq<Channel>, query: string, currentChannel: string)
    requires DistinctKeys(channels, ChannelId)
    ensures var r := FilteredChannels(channels, query);
            forall i, j :: 0 <= i < j < |r| ==> !(IsHighlighted(currentChannel, r[i]) && IsHighlighted(currentChannel, r[j]))
  {
    FilterKeepsDistinctKeys((c: Channel) => NameMatches(c, query), ChannelId, channels);
  }

  /** JavaScript truthiness of an optional string: present and non-empty. */
  predicate HasText(a: Option<string>)
  {
    a.Some? && a.value != ""
  }

  /** JavaScript's `a || b` for an optional string: `a` when it is truthy,
      `b` otherwise. */
  function OrElse(a: Option<string>, b: string): string
  {
    if HasText(a) then a.value else b
  }

  /** `s.charAt(0)`: the first character, or "" for the empty string. */
  function FirstChar(s: string): (r: string)
  {
    if s == "" then "" else s[..1]
  }

  /** `user?.displayName` and `user?.email`. */
  function DisplayNameOf(user: Option<User>): Option<string>
  {
    if user.None? then None else user.value.displayName
  }

  function EmailOf(user: Option<User>): Option<string>
  {
    if user.None? then None else Some(user.value.email)
  }

  const DefaultUserName := "Użytkownik"
  const DefaultUserLetter := "U"

  /** The name in the profile box: the display name, else the e-mail
      address, else the generic "Użytkownik". It is never empty. */
  function ProfileName(user: Option<User>): (r: string)
    ensures r != ""
    ensures HasText(DisplayNameOf(user)) ==> r == user.value.displayName.value
    ensures !HasText(DisplayNameOf(user)) && HasText(EmailOf(user)) ==> r == user.value.email
    ensures !HasText(DisplayNameOf(user)) && !HasText(EmailOf(user)) ==> r == DefaultUserName
  {
    OrElse(DisplayNameOf(user), OrElse(EmailOf(user), DefaultUserName))
  }

  /** The letter in the profile avatar: the first character of the display
      name, else of the e-mail address, else "U". */
  function AvatarLetter(user: Option<User>): (r: string)
    ensures |r| == 1
  {
    var dn := DisplayNameOf(user);
    var em := EmailOf(user);
    OrElse(if dn.None? then None else Some(FirstChar(dn.value)),
           OrElse(if em.None? then None else Some(FirstChar(em.value)), DefaultUserLetter))
  }

  /** The avatar letter is always exactly the first character of the
      profile name: the two fallback chains pick the same source. */
  lemma AvatarLetterStartsProfileName(user: Option<User>)
    ensures AvatarLetter(user) == ProfileName(user)[..1]
  {
    assert DefaultUserName[..1] == DefaultUserLetter;
  }

  /** The sidebar's own state: the loaded channels and the search text. */
  class ChannelList {
    var channels: seq<Channel>
    var searchQuery: string

    constructor ()
      ensures channels == [] && searchQuery == ""
    {
      channels := [];
      searchQuery := "";
    }

    /** A successful query replaces the whole list; a failed one leaves it
        as it was. */
    method LoadChannels(fetched: Result<seq<Channel>>)
      modifies this`channels
      ensures fetched.Ok? ==> channels == fetched.value
      ensures fetched.Err? ==> channels == old(channels)
    {
      if fetched.Ok? {
        channels := fetched.value;
      }
    }

    /** Typing into the search box replaces the query. */
    method EditSearch(text: string)
      modifies this`searchQuery
      ensures searchQuery == text
    {
      searchQuery := text;
    }

    /** The entries currently listed. */
    function Visible(): (r: seq<Channel>)
      reads this
      ensures forall i :: 0 <= i < |r| ==> NameMatches(r[i], searchQuery)
    {
      FilteredChannels(channels, searchQuery)
    }
  }
}
