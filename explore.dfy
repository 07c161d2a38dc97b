/** The explore page: the fetched thread list, the search filter over it, the like and
    "chill" toggles whose partial responses are merged by id, and what the page shows. */
module Explore {
  import opened Wrappers
  import Text
  import Seqs
  import Session

  datatype Author = Author(id: int, username: string, name: Option<string>)

  datatype Thread = Thread(
    id: int,
    title: string,
    content: string,
    mood: string,
    likesCount: int,
    chillVotesCount: int,
    commentsCount: int,
    user: Author,
    createdAt: string,
    userLiked: bool,
    userChilled: bool)

  /** A toggle response: a partial thread whose present fields win in `{ ...t, ...res.data }`. */
  datatype ThreadPatch = ThreadPatch(
    id: Option<int>,
    title: Option<string>,
    content: Option<string>,
    mood: Option<string>,
    likesCount: Option<int>,
    chillVotesCount: Option<int>,
    commentsCount: Option<int>,
    user: Option<Author>,
    createdAt: Option<string>,
    userLiked: Option<bool>,
    userChilled: Option<bool>)

  const NoChange := ThreadPatch(None, None, None, None, None, None, None, None, None, None, None)

  /** `{ ...t, ...patch }`. */
  function MergeThread(t: Thread, p: ThreadPatch): Thread {
    Thread(
      p.id.GetOr(t.id), p.title.GetOr(t.title), p.content.GetOr(t.content),
      p.mood.GetOr(t.mood), p.likesCount.GetOr(t.likesCount),
      p.chillVotesCount.GetOr(t.chillVotesCount), p.commentsCount.GetOr(t.commentsCount),
      p.user.GetOr(t.user), p.createdAt.GetOr(t.createdAt), p.userLiked.GetOr(t.userLiked),
      p.userChilled.GetOr(t.userChilled))
  }

  /** A response without fields changes nothing. */
  lemma MergeNoChange(t: Thread)
    ensures MergeThread(t, NoChange) == t
  {
  }

  /** Merging the same response twice is merging it once. */
  lemma MergeIdempotent(t: Thread, p: ThreadPatch)
    ensures MergeThread(MergeThread(t, p), p) == MergeThread(t, p)
  {
  }

  /** Every field the response carries takes its value; every field it leaves out keeps the
      thread's. */
  lemma MergeOverrides(t: Thread, p: ThreadPatch)
    ensures p.id.Some? ==> MergeThread(t, p).id == p.id.value
    ensures p.id.None? ==> MergeThread(t, p).id == t.id
    ensures p.title.Some? ==> MergeThread(t, p).title == p.title.value
    ensures p.title.None? ==> MergeThread(t, p).title == t.title
    ensures p.content.Some? ==> MergeThread(t, p).content == p.content.value
    ensures p.content.None? ==> MergeThread(t, p).content == t.content
    ensures p.mood.Some? ==> MergeThread(t, p).mood == p.mood.value
    ensures p.mood.None? ==> MergeThread(t, p).mood == t.mood
    ensures p.likesCount.Some? ==> MergeThread(t, p).likesCount == p.likesCount.value
    ensures p.likesCount.None? ==> MergeThread(t, p).likesCount == t.likesCount
    ensures p.chillVotesCount.Some? ==> MergeThread(t, p).chillVotesCount == p.chillVotesCount.value
    ensures p.chillVotesCount.None? ==> MergeThread(t, p).chillVotesCount == t.chillVotesCount
    ensures p.commentsCount.Some? ==> MergeThread(t, p).commentsCount == p.commentsCount.value
    ensures p.commentsCount.None? ==> MergeThread(t, p).commentsCount == t.commentsCount
    ensures p.user.Some? ==> MergeThread(t, p).user == p.user.value
    ensures p.user.None? ==> MergeThread(t, p).user == t.user
    ensures p.createdAt.Some? ==> MergeThread(t, p).createdAt == p.createdAt.value
    ensures p.createdAt.None? ==> MergeThread(t, p).createdAt == t.createdAt
    ensures p.userLiked.Some? ==> MergeThread(t, p).userLiked == p.userLiked.value
    ensures p.userLiked.None? ==> MergeThread(t, p).userLiked == t.userLiked
    ensures p.userChilled.Some? ==> MergeThread(t, p).userChilled == p.userChilled.value
    ensures p.userChilled.None? ==> MergeThread(t, p).userChilled == t.userChilled
  {
  }

  /** `prev.map((t) => (t.id === threadId ? { ...t, ...res.data } : t))`. */
  function MergeById(threads: seq<Thread>, threadId: int, p: ThreadPatch): (r: seq<Thread>)
    ensures |r| == |threads|
    ensures forall i :: 0 <= i < |threads| ==>
      r[i] == if threads[i].id == threadId then MergeThread(threads[i], p) else threads[i]
  {
    seq(|threads|, i requires 0 <= i < |threads| =>
      if threads[i].id == threadId then MergeThread(threads[i], p) else threads[i])
  }

  /** A merge for an id no thread carries leaves the list as it is. */
  lemma MergeByIdAbsent(threads: seq<Thread>, threadId: int, p: ThreadPatch)
    requires forall i :: 0 <= i < |threads| ==> threads[i].id != threadId
    ensures MergeById(threads, threadId, p) == threads
  {
  }

  /** Repeating the same successful toggle response changes nothing more. */
  lemma MergeByIdIdempotent(threads: seq<Thread>, threadId: int, p: ThreadPatch)
    ensures MergeById(MergeById(threads, threadId, p), threadId, p) == MergeById(threads, threadId, p)
  {
    var once := MergeById(threads, threadId, p);
    forall i | 0 <= i < |threads|
      ensures MergeById(once, threadId, p)[i] == once[i]
    {
      if threads[i].id == threadId {
        MergeIdempotent(threads[i], p);
      }
    }
  }

  /** The worked example of a like: thread 7 gets the new count and flag; its other fields
      and every other thread stay as they were. */
  lemma LikeExample(threads: seq<Thread>, k: nat)
    requires k < |threads| && threads[k].id == 7
    ensures var r := MergeById(threads, 7, NoChange.(likesCount := Some(4), userLiked := Some(true)));
      r[k] == threads[k].(likesCount := 4, userLiked := true)
      && forall i :: 0 <= i < |threads| && threads[i].id != 7 ==> r[i] == threads[i]
  {
  }

  /** The state after a toggle: the merge on success, the old list on failure. */
  function Toggled(threads: seq<Thread>, threadId: int, response: Option<ThreadPatch>): (r: seq<Thread>)
    ensures response.None? ==> r == threads
    ensures |r| == |threads|
    ensures forall i :: 0 <= i < |threads| && threads[i].id != threadId ==> r[i] == threads[i]
    ensures response.Some? ==> forall i :: 0 <= i < |threads| && threads[i].id == threadId ==>
      r[i] == MergeThread(threads[i], response.value)
  {
    match response
    case None => threads
    case Some(p) => MergeById(threads, threadId, p)
  }

  /** Title or content contains the query, both lower-cased. */
  predicate ThreadMatches(t: Thread, query: string) {
    Text.Includes(Text.Lower(t.title), Text.Lower(query))
    || Text.Includes(Text.Lower(t.content), Text.Lower(query))
  }

  /** `filteredThreads`. */
  function FilterThreads(threads: seq<Thread>, query: string): (r: seq<Thread>)
    ensures Seqs.IsSubseq(r, threads)
    ensures forall t :: t in r ==> t in threads && ThreadMatches(t, query)
    ensures forall i :: 0 <= i < |threads| && ThreadMatches(threads[i], query) ==> threads[i] in r
    ensures forall i :: 0 <= i < |threads| ==>
      multiset(r)[threads[i]] == if ThreadMatches(threads[i], query) then multiset(threads)[threads[i]] else 0
  {
    Seqs.Filter(threads, t => ThreadMatches(t, query))
  }

  /** An empty query keeps every thread. */
  lemma FilterEmptyQuery(threads: seq<Thread>)
    ensures FilterThreads(threads, "") == threads
  {
    forall i | 0 <= i < |threads| ensures ThreadMatches(threads[i], "") {
      Text.IncludesEmpty(Text.Lower(threads[i].title));
    }
    Seqs.FilterAll(threads, t => ThreadMatches(t, ""));
  }

  /** A thread matches with the case of the query ignored. */
  lemma FilterIgnoresQueryCase(t: Thread, query: string)
    ensures ThreadMatches(t, query) == ThreadMatches(t, Text.Lower(query))
  {
    Text.LowerIdempotent(query);
  }

  const MoodColors: map<string, string> := map[
    "chill" := "#88c0d0",
    "excited" := "#bf616a",
    "curious" := "#ebcb8b",
    "supportive" := "#a3be8c",
    "casual" := "#d08770"]

  const DefaultMoodColor := "#ccc"

  /** `moodColors[thread.mood] || '#ccc'`. */
  function MoodColor(mood: string): (c: string)
    ensures mood in MoodColors ==> c == MoodColors[mood]
    ensures mood !in MoodColors ==> c == DefaultMoodColor
  {
    if mood in MoodColors && MoodColors[mood] != "" then MoodColors[mood] else DefaultMoodColor
  }

  /** The five known moods get their own colour. */
  lemma KnownMoodColors()
    ensures MoodColor("chill") == "#88c0d0" && MoodColor("excited") == "#bf616a"
    ensures MoodColor("curious") == "#ebcb8b" && MoodColor("supportive") == "#a3be8c"
    ensures MoodColor("casual") == "#d08770"
  {
  }

  const LoadError := "Failed to load threads."

  /** The text when the filtered list is empty. */
  function EmptyMessage(query: string): (m: string)
    ensures query == "" ==> m == "No threads found."
    ensures query != "" ==> m == "No threads found matching your search."
  {
    "No threads found" + (if query != "" then " matching your search" else "") + "."
  }

  datatype Card = Card(thread: Thread, moodColor: string)

  /** What the page shows. */
  datatype View = Spinner | LoadFailure(message: string) | NoThreads(message: string) | Cards(cards: seq<Card>)

  /** The spinner while loading, then the error, then the message for an empty result, then
      one card per matching thread, in list order, coloured by its mood. */
  function Render(threads: seq<Thread>, query: string, loading: bool, error: Option<string>): (v: View)
    ensures loading <==> v.Spinner?
    ensures !loading && error.Some? && error.value != "" <==> v.LoadFailure?
    ensures v.LoadFailure? ==> v.message == error.value
    ensures v.NoThreads? <==> !loading && (error.None? || error.value == "") && FilterThreads(threads, query) == []
    ensures v.NoThreads? ==> v.message == EmptyMessage(query)
    ensures v.Cards? ==> |v.cards| == |FilterThreads(threads, query)| > 0
    ensures v.Cards? ==> forall i :: 0 <= i < |v.cards| ==>
      v.cards[i] == Card(FilterThreads(threads, query)[i], MoodColor(FilterThreads(threads, query)[i].mood))
  {
    if loading then Spinner
    else if error.Some? && error.value != "" then LoadFailure(error.value)
    else
      var shown := FilterThreads(threads, query);
      if shown == [] then NoThreads(EmptyMessage(query))
      else Cards(seq(|shown|, i requires 0 <= i < |shown| => Card(shown[i], MoodColor(shown[i].mood))))
  }

  /** A toggle request: `PATCH /api/v1/forum_threads/{threadId}/{action}` with the stored token
      as bearer (`None` is sent as the text "null"). */
  datatype ToggleRequest = ToggleRequest(bearer: Option<string>, threadId: int, action: string)

  class ExplorePage {
    const browser: Session.Browser
    var threads: seq<Thread>
    var searchQuery: string
    var loading: bool
    var error: Option<string>

    constructor (browser: Session.Browser)
      ensures this.browser == browser
      ensures threads == [] && searchQuery == "" && loading && error == None
    {
      this.browser := browser;
      threads := [];
      searchQuery := "";
      loading := true;
      error := None;
    }

    /** `fetchThreads`: `GET /api/v1/forum_threads` with the stored token as bearer; the list on
        success, the error on failure, and `loading` off either way. */
    method FetchThreads(response: Option<seq<Thread>>) returns (bearer: Option<string>)
      modifies this
      ensures bearer == browser.StoredToken()
      ensures !loading
      ensures response.Some? ==> threads == response.value && error == old(error)
      ensures response.None? ==> threads == old(threads) && error == Some(LoadError)
      ensures searchQuery == old(searchQuery)
    {
      bearer := browser.StoredToken();
      if response.Some? {
        threads := response.value;
      } else {
        error := Some(LoadError);
      }
      loading := false;
    }

    /** The search field's `onChange`; the thread list itself is never filtered in place. */
    method SetSearchQuery(query: string)
      modifies this
      ensures searchQuery == query
      ensures threads == old(threads) && loading == old(loading) && error == old(error)
    {
      searchQuery := query;
    }

    /** `handleLike`: the response (`None` when the request fails) is merged into the list. */
    method HandleLike(threadId: int, response: Option<ThreadPatch>) returns (request: ToggleRequest)
      modifies this
      ensures request == ToggleRequest(browser.StoredToken(), threadId, "toggle_like")
      ensures threads == Toggled(old(threads), threadId, response)
      ensures searchQuery == old(searchQuery) && loading == old(loading) && error == old(error)
    {
      request := ToggleRequest(browser.StoredToken(), threadId, "toggle_like");
      if response.Some? {
        threads := MergeById(threads, threadId, response.value);
      }
    }

    /** `handleChill`, the same as `handleLike` on the chill-vote endpoint. */
    method HandleChill(threadId: int, response: Option<ThreadPatch>) returns (request: ToggleRequest)
      modifies this
      ensures request == ToggleRequest(browser.StoredToken(), threadId, "toggle_chill")
      ensures threads == Toggled(old(threads), threadId, response)
      ensures searchQuery == old(searchQuery) && loading == old(loading) && error == old(error)
    {
      request := ToggleRequest(browser.StoredToken(), threadId, "toggle_chill");
      if response.Some? {
        threads := MergeById(threads, threadId, response.value);
      }
    }
  }
}
