/** The conversation list page, src/pages/Conversations.tsx: the ownership filter applied
    to the fetched conversations, the case-insensitive search over them, and the reset of a
    conversation's unread counter when it is opened. The page state is the class
    `ConversationsPage`; fetching is not modelled, its outcome is a parameter. */
module Conversations {
  import opened Domain
  import opened Text
  import Seqs

  predicate IsOwnedBy(c: Conversation, clientId: string) {
    c.recipientId == clientId
  }

  /** `convData.filter(conv => conv.recipientId === client.id)`. */
  function OwnedBy(convs: seq<Conversation>, clientId: string): (r: seq<Conversation>)
    ensures |r| <= |convs|
    ensures forall i :: 0 <= i < |r| ==> IsOwnedBy(r[i], clientId) && r[i] in convs
    ensures forall i :: 0 <= i < |convs| && IsOwnedBy(convs[i], clientId) ==> convs[i] in r
  {
    Seqs.Filter(convs, c => IsOwnedBy(c, clientId))
  }

  /** The kept conversations are exactly the owned ones, in their original order and each as
      often as it occurs. */
  lemma OwnedByKeepsOrder(convs: seq<Conversation>, clientId: string, c: Conversation)
    ensures Seqs.IsSubsequence(OwnedBy(convs, clientId), convs)
    ensures multiset(OwnedBy(convs, clientId))[c] == if IsOwnedBy(c, clientId) then multiset(convs)[c] else 0
  {
    Seqs.FilterIsSubsequence(convs, c => IsOwnedBy(c, clientId));
    Seqs.FilterCount(convs, c => IsOwnedBy(c, clientId), c);
  }

  /** The search test: the lower-cased term occurs in the lower-cased recipient name or in the
      lower-cased last message. */
  predicate MatchesSearch(c: Conversation, term: string)
    ensures MatchesSearch(c, term) <==>
      || (exists i :: OccursAt(Lower(c.recipientName), Lower(term), i))
      || (exists i :: OccursAt(Lower(c.lastMessageContent), Lower(term), i))
  {
    || Includes(Lower(c.recipientName), Lower(term))
    || Includes(Lower(c.lastMessageContent), Lower(term))
  }

  /** The list the page displays for a search term. */
  function Search(convs: seq<Conversation>, term: string): (r: seq<Conversation>)
    ensures |r| <= |convs|
    ensures forall i :: 0 <= i < |r| ==> MatchesSearch(r[i], term) && r[i] in convs
    ensures forall i :: 0 <= i < |convs| && MatchesSearch(convs[i], term) ==> convs[i] in r
  {
    Seqs.Filter(convs, c => MatchesSearch(c, term))
  }

  /** The search result is an order-preserving subsequence of the list. */
  lemma SearchKeepsOrder(convs: seq<Conversation>, term: string)
    ensures Seqs.IsSubsequence(Search(convs, term), convs)
  {
    Seqs.FilterIsSubsequence(convs, c => MatchesSearch(c, term));
  }

  /** An empty search box shows every conversation. */
  lemma EmptySearchKeepsAll(convs: seq<Conversation>)
    ensures Search(convs, "") == convs
  {
    forall i | 0 <= i < |convs| ensures MatchesSearch(convs[i], "") {
      IncludesEmpty(Lower(convs[i].recipientName));
    }
    Seqs.FilterKeepsAll(convs, c => MatchesSearch(c, ""));
  }

  /** The search ignores the case of the term: searching the lower-cased term gives the same list. */
  lemma SearchIgnoresCase(convs: seq<Conversation>, term: string)
    ensures Search(convs, Lower(term)) == Search(convs, term)
  {
    LowerIdempotent(term);
    Seqs.FilterCongruent(convs, c => MatchesSearch(c, Lower(term)), c => MatchesSearch(c, term));
  }

  /** The entry with its unread counter cleared when it carries `id`, unchanged otherwise. */
  function ResetIfId(c: Conversation, id: string): Conversation {
    if c.id == id then c.(unreadCount := 0) else c
  }

  /** `convs.map(c => c.id === id ? { ...c, unreadCount: 0 } : c)`. */
  function ResetUnread(convs: seq<Conversation>, id: string): (r: seq<Conversation>)
    ensures |r| == |convs|
    ensures forall i :: 0 <= i < |r| && convs[i].id == id ==> r[i].unreadCount == 0 && r[i] == convs[i].(unreadCount := 0)
    ensures forall i :: 0 <= i < |r| && convs[i].id != id ==> r[i] == convs[i]
  {
    Seqs.Map(convs, c => ResetIfId(c, id))
  }

  /** When no conversation with that id has unread messages left, the reset changes nothing. */
  lemma ResetUnreadWhenNoneUnread(convs: seq<Conversation>, id: string)
    requires forall i :: 0 <= i < |convs| && convs[i].id == id ==> convs[i].unreadCount == 0
    ensures ResetUnread(convs, id) == convs
  {
  }

  /** Opening the same conversation twice is the same as opening it once. */
  lemma ResetUnreadIdempotent(convs: seq<Conversation>, id: string)
    ensures ResetUnread(ResetUnread(convs, id), id) == ResetUnread(convs, id)
  {
    ResetUnreadWhenNoneUnread(ResetUnread(convs, id), id);
  }

  /** The reset touches only the counter: filtering by owner or by search term before or
      after it gives the same entries. */
  lemma ResetUnreadCommutesWithFilters(convs: seq<Conversation>, id: string, clientId: string, term: string)
    ensures OwnedBy(ResetUnread(convs, id), clientId) == ResetUnread(OwnedBy(convs, clientId), id)
    ensures Search(ResetUnread(convs, id), term) == ResetUnread(Search(convs, term), id)
  {
    Seqs.FilterMapCommute(convs, c => ResetIfId(c, id), c => IsOwnedBy(c, clientId));
    Seqs.FilterMapCommute(convs, c => ResetIfId(c, id), c => MatchesSearch(c, term));
  }

  class ConversationsPage {
    /** The logged-in client the page is given. */
    const client: Option<Client>
    var conversations: seq<Conversation>
    var loading: bool
    var error: Option<string>
    var searchTerm: string

    /** Every listed conversation belongs to the client; without a client nothing is listed. */
    ghost predicate Valid()
      reads this
    {
      match client
      case None => conversations == []
      case Some(c) => forall i :: 0 <= i < |conversations| ==> IsOwnedBy(conversations[i], c.id)
    }

    constructor (client: Option<Client>)
      ensures Valid()
      ensures this.client == client && conversations == [] && loading && error.None? && searchTerm == ""
    {
      this.client := client;
      conversations := [];
      loading := true;
      error := None;
      searchTerm := "";
    }

    /** What the page lists: the conversations matching the search box. */
    function Displayed(): (r: seq<Conversation>)
      reads this
      ensures forall i :: 0 <= i < |r| ==> r[i] in conversations && MatchesSearch(r[i], searchTerm)
    {
      Search(conversations, searchTerm)
    }

    /** The effect that loads the list, given the outcome of fetching every conversation.
        Without a client it returns at once, leaving the list empty and the page loading;
        `requested` tells whether the conversations were requested at all. */
    method Load(fetched: Result<seq<Conversation>>) returns (requested: bool)
      requires Valid()
      modifies this
      ensures Valid()
      ensures searchTerm == old(searchTerm)
      ensures requested <==> client.Some?
      ensures client.None? ==> conversations == old(conversations) && loading == old(loading) && error == old(error)
      ensures client.Some? ==> !loading
      ensures client.Some? && fetched.Ok? ==>
        conversations == OwnedBy(fetched.value, client.value.id) && error == old(error)
      ensures client.Some? && fetched.Err? ==>
        conversations == old(conversations) && error == Some(fetched.message)
    {
      requested := client.Some?;
      if client.None? {
        return;
      }
      match fetched {
        case Ok(convData) =>
          conversations := OwnedBy(convData, client.value.id);
        case Err(m) =>
          error := Some(m);
      }
      loading := false;
    }

    /** The page renders the search box and the list only once loading has ended and no
        error is shown; otherwise it shows "Carregando..." or the error text. */
    predicate ListShown()
      reads this
    {
      !loading && (error.None? || error.value == "")
    }

    /** Typing in the search box. */
    method SetSearchTerm(term: string)
      requires Valid() && ListShown()
      modifies this
      ensures Valid()
      ensures searchTerm == term
      ensures conversations == old(conversations) && loading == old(loading) && error == old(error)
    {
      searchTerm := term;
    }

    /** Clicking a listed conversation, `clicked` being the entry as displayed. Its unread
        counter is reset only when the displayed count is positive; then every entry with its id
        gets a zero count and everything else stays. */
    method OpenConversation(clicked: Conversation)
      requires Valid() && ListShown()
      modifies this
      ensures Valid()
      ensures searchTerm == old(searchTerm) && loading == old(loading) && error == old(error)
      ensures conversations == if clicked.unreadCount > 0 then ResetUnread(old(conversations), clicked.id) else old(conversations)
      ensures |conversations| == |old(conversations)|
      ensures forall i :: 0 <= i < |conversations| && old(conversations)[i].id != clicked.id ==>
        conversations[i] == old(conversations)[i]
      ensures forall i :: 0 <= i < |conversations| && old(conversations)[i].id == clicked.id && clicked.unreadCount > 0 ==>
        conversations[i] == old(conversations)[i].(unreadCount := 0)
    {
      if clicked.unreadCount > 0 {
        conversations := ResetUnread(conversations, clicked.id);
      }
    }
  }
}
