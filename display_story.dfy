/** The story display page: which related ids it requests, how it splits the
    fetched stories into predecessors and successors, the loading/error state
    it keeps, and which screen that state shows. */
module DisplayStory {
  import opened Stories

  /** The message set when the related stories cannot be fetched. */
  const FetchErrorMessage: string := "Unable to fetch related stories"

  /** The ids requested for a story's neighbours: every `prev` id, then every
      `next` id, duplicates kept. */
  function RelatedIds(story: Story): (ids: seq<string>)
    ensures |ids| == |story.prev| + |story.next|
    ensures ids[..|story.prev|] == story.prev && ids[|story.prev|..] == story.next
    ensures multiset(ids) == multiset(story.prev) + multiset(story.next)
    ensures forall id :: id in ids <==> id in story.prev || id in story.next
  {
    story.prev + story.next
  }

  /** `a` is `b` with some elements left out, the rest in their original order. */
  ghost predicate IsSubsequence(a: seq<Story>, b: seq<Story>)
    decreases |b|
  {
    if b == [] then a == []
    else (a != [] && a[0] == b[0] && IsSubsequence(a[1..], b[1..])) || IsSubsequence(a, b[1..])
  }

  /** `Array.prototype.filter` with the test "its id is one of `ids`". */
  function KeepLinked(ids: seq<string>, fetched: seq<Story>): (kept: seq<Story>)
    ensures |kept| <= |fetched|
    ensures ids == [] ==> kept == []
  {
    if fetched == [] then []
    else (if fetched[0].id in ids then [fetched[0]] else []) + KeepLinked(ids, fetched[1..])
  }

  /** The ids of the current story's predecessors; none when there is no story
      (`story?.prev.includes(...)` is then `undefined`, which filters everything out). */
  function PrevIds(story: Option<Story>): seq<string>
  {
    if story.Some? then story.value.prev else []
  }

  /** The ids of the current story's successors; none when there is no story. */
  function NextIds(story: Option<Story>): seq<string>
  {
    if story.Some? then story.value.next else []
  }

  /** The fetched stories listed as predecessors. */
  function PrevStories(story: Option<Story>, fetched: seq<Story>): (prevStories: seq<Story>)
    ensures |prevStories| <= |fetched|
    ensures story.None? ==> prevStories == []
  {
    KeepLinked(PrevIds(story), fetched)
  }

  /** The fetched stories listed as successors. */
  function NextStories(story: Option<Story>, fetched: seq<Story>): (nextStories: seq<Story>)
    ensures |nextStories| <= |fetched|
    ensures story.None? ==> nextStories == []
  {
    KeepLinked(NextIds(story), fetched)
  }

  /** The filter keeps a story exactly when it was fetched and its id is listed. */
  lemma {:induction false} KeepLinkedMembers(ids: seq<string>, fetched: seq<Story>, s: Story)
    ensures s in KeepLinked(ids, fetched) <==> s in fetched && s.id in ids
    decreases |fetched|
  {
    if fetched != [] {
      KeepLinkedMembers(ids, fetched[1..], s);
      assert fetched == [fetched[0]] + fetched[1..];
    }
  }

  /** The filter keeps every copy of a listed story and no copy of an unlisted one. */
  lemma {:induction false} KeepLinkedCounts(ids: seq<string>, fetched: seq<Story>, s: Story)
    ensures multiset(KeepLinked(ids, fetched))[s] == if s.id in ids then multiset(fetched)[s] else 0
    decreases |fetched|
  {
    if fetched != [] {
      KeepLinkedCounts(ids, fetched[1..], s);
      assert fetched == [fetched[0]] + fetched[1..];
    }
  }

  /** The filter keeps the fetched order. */
  lemma {:induction false} KeepLinkedInOrder(ids: seq<string>, fetched: seq<Story>)
    ensures IsSubsequence(KeepLinked(ids, fetched), fetched)
    decreases |fetched|
  {
    if fetched != [] {
      KeepLinkedInOrder(ids, fetched[1..]);
      var rest := KeepLinked(ids, fetched[1..]);
      if fetched[0].id in ids {
        assert ([fetched[0]] + rest)[1..] == rest;
      } else {
        assert KeepLinked(ids, fetched) == rest;
      }
    }
  }

  /** A subsequence is never longer than the sequence it is taken from. */
  lemma {:induction false} SubsequenceNoLonger(a: seq<Story>, b: seq<Story>)
    requires IsSubsequence(a, b)
    ensures |a| <= |b|
    decreases |b|
  {
    if b != [] {
      if a != [] && a[0] == b[0] && IsSubsequence(a[1..], b[1..]) {
        SubsequenceNoLonger(a[1..], b[1..]);
      } else {
        SubsequenceNoLonger(a, b[1..]);
      }
    }
  }

  /** Membership in the two partitions, in both directions. */
  lemma PartitionMembers(story: Option<Story>, fetched: seq<Story>, s: Story)
    ensures s in PrevStories(story, fetched) <==> s in fetched && story.Some? && s.id in story.value.prev
    ensures s in NextStories(story, fetched) <==> s in fetched && story.Some? && s.id in story.value.next
  {
    KeepLinkedMembers(PrevIds(story), fetched, s);
    KeepLinkedMembers(NextIds(story), fetched, s);
  }

  /** Both partitions keep the fetched order and are no longer than what was fetched. */
  lemma PartitionsInOrder(story: Option<Story>, fetched: seq<Story>)
    ensures IsSubsequence(PrevStories(story, fetched), fetched)
    ensures IsSubsequence(NextStories(story, fetched), fetched)
    ensures |PrevStories(story, fetched)| <= |fetched| && |NextStories(story, fetched)| <= |fetched|
  {
    KeepLinkedInOrder(PrevIds(story), fetched);
    KeepLinkedInOrder(NextIds(story), fetched);
    SubsequenceNoLonger(PrevStories(story, fetched), fetched);
    SubsequenceNoLonger(NextStories(story, fetched), fetched);
  }

  /** A story listed on both sides shows up on both sides, every fetched copy
      of it: the partitions are not de-duplicated against each other. */
  lemma OverlapShownTwice(story: Story, fetched: seq<Story>, s: Story)
    requires s in fetched && s.id in story.prev && s.id in story.next
    ensures s in PrevStories(Some(story), fetched) && s in NextStories(Some(story), fetched)
    ensures multiset(PrevStories(Some(story), fetched))[s] == multiset(fetched)[s]
    ensures multiset(NextStories(Some(story), fetched))[s] == multiset(fetched)[s]
  {
    KeepLinkedCounts(story.prev, fetched, s);
    KeepLinkedCounts(story.next, fetched, s);
  }

  /** The screens the page can show. */
  datatype Screen = LoadingScreen | ErrorMessage(message: string) | NoStoryFound | StoryPage(story: Story)

  /** The screen for a given state: loading first, then an error, then a
      missing story, and the story itself only when none of those applies. */
  function RenderMode(isLoading: bool, error: Option<string>, story: Option<Story>): (screen: Screen)
    ensures screen == LoadingScreen <==> isLoading
    ensures screen.ErrorMessage? <==> !isLoading && IsTruthy(error)
    ensures screen.ErrorMessage? ==> screen.message == error.value
    ensures screen == NoStoryFound <==> !isLoading && !IsTruthy(error) && story.None?
    ensures screen.StoryPage? <==> !isLoading && !IsTruthy(error) && story.Some?
    ensures screen.StoryPage? ==> screen.story == story.value
  {
    if isLoading then LoadingScreen
    else if IsTruthy(error) then ErrorMessage(error.value)
    else if story.None? then NoStoryFound
    else StoryPage(story.value)
  }

  /** The page's component state. A fetch begins when the story changes and
      ends, after the request, with exactly one of the two completions. */
  class StoryView {
    var story: Option<Story>
    var fetchedStories: seq<Story>
    var isLoading: bool
    var error: Option<string>

    /** The only error the page ever records is the fetch failure. No
      contract depends on it; it records which error values can occur. */
    ghost predicate Valid()
      reads this
    {
      error == None || error == Some(FetchErrorMessage)
    }

    constructor ()
      ensures Valid()
      ensures story == None && fetchedStories == [] && !isLoading && error == None
    {
      story := None;
      fetchedStories := [];
      isLoading := false;
      error := None;
    }

    /** What the page currently shows. */
    function CurrentScreen(): Screen
      reads this
    {
      RenderMode(isLoading, error, story)
    }

    /** The story handed over in the navigation state replaces the current
      one; a missing one leaves it as it was. */
    method SetFromNavigation(navState: Option<Story>)
      requires Valid()
      modifies this
      ensures Valid()
      ensures story == if navState.Some? then navState else old(story)
      ensures fetchedStories == old(fetchedStories) && isLoading == old(isLoading) && error == old(error)
    {
      if navState.Some? {
        story := navState;
      }
    }

    /** The effect that runs when the story changes: with a story present it
      marks the page as loading and returns the ids to request (even when there
      are none); without one it does nothing. */
    method BeginFetch() returns (request: Option<seq<string>>)
      requires Valid()
      modifies this
      ensures Valid()
      ensures request == if story.Some? then Some(RelatedIds(story.value)) else None
      ensures isLoading == (old(story).Some? || old(isLoading))
      ensures story == old(story) && fetchedStories == old(fetchedStories) && error == old(error)
      ensures story.Some? ==> CurrentScreen() == LoadingScreen
    {
      if story.Some? {
        var related := RelatedIds(story.value);
        isLoading := true;
        request := Some(related);
      } else {
        request := None;
      }
    }

    /** The request returned `result`. */
    method FetchSucceeded(result: seq<Story>)
      requires Valid()
      modifies this
      ensures Valid()
      ensures fetchedStories == result && !isLoading
      ensures story == old(story) && error == old(error)
      ensures error == None && story.Some? ==> CurrentScreen() == StoryPage(story.value)
    {
      fetchedStories := result;
      isLoading := false;
    }

    /** The request failed: the error is recorded for good and the stories
      fetched before are kept. */
    method FetchFailed()
      requires Valid()
      modifies this
      ensures Valid()
      ensures error == Some(FetchErrorMessage) && !isLoading
      ensures story == old(story) && fetchedStories == old(fetchedStories)
      ensures CurrentScreen() == ErrorMessage(FetchErrorMessage)
    {
      error := Some(FetchErrorMessage);
      isLoading := false;
    }
  }
}
