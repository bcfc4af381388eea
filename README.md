# Story map client: display and creation logic

This project models the two pieces of real logic in the story-map web client.

- **The story display page** (`DisplayStory`). It receives a story through the navigation state. It requests the story's neighbours by the ids in `prev` followed by `next`. It splits the fetched stories into predecessors and successors with a membership test. It keeps a small loading/error/story state, and that state fixes which screen is shown.
- **The story creation form** (`CreateStory`). It builds a draft from the title, the editor's HTML and the navigation context (`rootNode`, `prevStoryId`, `themeRoomId`). It rewrites the sanitized content so that every `</p><p>` becomes `</p><br><p>`. It keeps a busy flag and an error message around the single create request.

Files:

- `stories.dfy`, module `Stories`: the `Story` entity, `Option`, and JavaScript truthiness for optional strings and flags.
- `paragraph_breaks.dfy`, module `ParagraphBreaks`: the `</p><p>` rewrite (`InsertBreaks`) and a split/join description of it (`Pieces`, `Join`), with the lemmas that connect them.
- `display_story.dfy`, module `DisplayStory`: the request list, the two partitions, `RenderMode`, and the component state as class `StoryView`.
- `create_story.dfy`, module `CreateStory`: content processing, the draft, and the form state as class `StoryForm`.

Modelling choices:

- The HTML sanitizer is not part of this model. Every operation that uses it takes it as a parameter `sanitize: string -> string`, and nothing is assumed about it.
- The two network calls are not part of this model either. `fetchFilteredStories` is split into `StoryView.BeginFetch`, which returns the id list to request, and one of `StoryView.FetchSucceeded(result)` or `StoryView.FetchFailed()`. `createStory` is split into `StoryForm.BeginSubmit`, which records the draft sent in `sent`, and `StoryForm.FinishSubmit(outcome)`. The `await` sits between the two halves. `StoryForm.Submit` runs both halves in one call.
- `navigate(-1)` is counted in `backNavigations`.
- JavaScript truthiness is written out. An optional string is truthy when it is present and not `""`. The `rootNode` flag is truthy when it is present and `true`.
- `BeginFetch` stands for the effect that runs after the story changes. The caller invokes it after `SetFromNavigation`.

Three behaviours of the code worth noting:

- The code starts a fetch whenever a story is present, even when `prev` and `next` are both empty (`client/src/pages/story/DisplayStory.tsx:25-30`). It does not skip the call for an empty id list.
- The code does not stop a root draft from carrying a predecessor. When `rootNode` and `prevStoryId` are both truthy, the draft has type `root` and `prev == [prevStoryId]`. `RootDraftKeepsPrev` states this.
- After a failed fetch, the stories fetched earlier are kept in state. The error screen takes precedence over the story, so they are not shown.

## Model

| member | source | states |
|---|---|---|
| `DisplayStory.RelatedIds` | client/src/pages/story/DisplayStory.tsx:26 | The request list is all of `prev` followed by all of `next`. Its length is the length of `prev` plus the length of `next`, duplicates are kept (multiset sum), and an id is in it exactly when it is in `prev` or in `next`. |
| `DisplayStory.KeepLinked` | client/src/pages/story/DisplayStory.tsx:42-43 | The `filter`/`includes` test shared by both partitions. The result is never longer than the fetched list, and an empty id list keeps nothing. Its exact contents are stated by `KeepLinkedMembers`, `KeepLinkedCounts` and `KeepLinkedInOrder`. |
| `DisplayStory.PrevStories` | client/src/pages/story/DisplayStory.tsx:42 | `prevStories` is never longer than `fetchedStories` and is empty when there is no story (`story?.prev.includes` is undefined). Its members are stated by `PartitionMembers`, its order by `PartitionsInOrder`. |
| `DisplayStory.NextStories` | client/src/pages/story/DisplayStory.tsx:43 | `nextStories` is never longer than `fetchedStories` and is empty when there is no story. Its members are stated by `PartitionMembers`, its order by `PartitionsInOrder`. |
| `DisplayStory.KeepLinkedMembers` | client/src/pages/story/DisplayStory.tsx:42-43 | The id filter keeps a story exactly when it was fetched and its id is in the list. |
| `DisplayStory.KeepLinkedCounts` | client/src/pages/story/DisplayStory.tsx:42-43 | The id filter keeps every fetched copy of a listed story and no copy of an unlisted one. |
| `DisplayStory.KeepLinkedInOrder` | client/src/pages/story/DisplayStory.tsx:42-43 | The id filter's result is an order-preserving subsequence of the fetched stories. |
| `DisplayStory.PartitionMembers` | client/src/pages/story/DisplayStory.tsx:42-43 | A story is in `prevStories` exactly when it was fetched, a story is present, and its id is in that story's `prev`. The same holds for `nextStories` and `next`. |
| `DisplayStory.PartitionsInOrder` | client/src/pages/story/DisplayStory.tsx:42-43 | Both partitions are order-preserving subsequences of `fetchedStories` and are no longer than it. |
| `DisplayStory.OverlapShownTwice` | client/src/pages/story/DisplayStory.tsx:42-43 | A fetched story whose id is in both `prev` and `next` appears in both partitions, with all its fetched copies. There is no de-duplication. |
| `DisplayStory.RenderMode` | client/src/pages/story/DisplayStory.tsx:49-59 | Loading is shown exactly when `isLoading`. The error is shown exactly when not loading and the error is truthy. "No story found" is shown exactly when neither applies and there is no story. The story page is shown exactly when none of those applies. |
| `DisplayStory.StoryView.constructor` | client/src/pages/story/DisplayStory.tsx:13-16 | The initial state is no story, no fetched stories, not loading, and no error. |
| `DisplayStory.StoryView.SetFromNavigation` | client/src/pages/story/DisplayStory.tsx:18-22 | A story in the navigation state replaces the current story. A missing one changes nothing. No other field changes. |
| `DisplayStory.StoryView.BeginFetch` | client/src/pages/story/DisplayStory.tsx:24-30 | With a story present, the method sets loading and returns `RelatedIds(story)` as the request, even when that list is empty. With no story, it requests nothing and changes nothing. |
| `DisplayStory.StoryView.FetchSucceeded` | client/src/pages/story/DisplayStory.tsx:30-35 | `fetchedStories` becomes the result and loading ends. The error and the story are unchanged. With no error and a story present, the story page is shown. |
| `DisplayStory.StoryView.FetchFailed` | client/src/pages/story/DisplayStory.tsx:32-36 | The error becomes "Unable to fetch related stories" and loading ends. `fetchedStories` is unchanged. The error screen is shown. No method ever clears the error again. |
| `ParagraphBreaks.InsertBreaks` | client/src/pages/create-story/CreateStory.tsx:32 | The global replace of `</p><p>` by `</p><br><p>`. The output is never shorter than the input, and empty input gives empty output. Its meaning is stated by the `InsertBreaks…` lemma rows below. |
| `ParagraphBreaks.InsertBreaksIsSplitJoin` | client/src/pages/create-story/CreateStory.tsx:32 | The rewrite equals splitting at the matches of a left-to-right scan and joining the pieces with `</p><br><p>`. The text between the matches is unchanged. |
| `ParagraphBreaks.JoinPiecesRestores` | client/src/pages/create-story/CreateStory.tsx:32 | Joining the same pieces with `</p><p>` gives back the input. |
| `ParagraphBreaks.PiecesFree` | client/src/pages/create-story/CreateStory.tsx:32 | No piece contains `</p><p>`. With `JoinPiecesRestores`, this shows the pieces are exactly the text outside the matches. |
| `ParagraphBreaks.InsertBreaksLength` | client/src/pages/create-story/CreateStory.tsx:32 | The output length is the input length plus 4 times the number of non-overlapping matches. |
| `ParagraphBreaks.InsertBreaksRemovesAll` | client/src/pages/create-story/CreateStory.tsx:32 | The output contains no `</p><p>`. |
| `ParagraphBreaks.InsertBreaksIdentity` | client/src/pages/create-story/CreateStory.tsx:32 | Text that contains no `</p><p>` is returned unchanged. |
| `ParagraphBreaks.InsertBreaksIdempotent` | client/src/pages/create-story/CreateStory.tsx:32 | Rewriting the output a second time changes nothing. |
| `CreateStory.ProcessContent` | client/src/pages/create-story/CreateStory.tsx:30-33 | The stored content is the sanitized content, split at `</p><p>` and joined with `</p><br><p>`. It contains no `</p><p>`, is 4 characters longer per match, and equals the sanitized content when that has no match. |
| `CreateStory.MakeDraft` | client/src/pages/create-story/CreateStory.tsx:40-47 | The type is `root` exactly when `rootNode` is truthy, otherwise `child`. `prev` is `[prevStoryId]` exactly when `prevStoryId` is truthy, otherwise `[]`. The title and the theme room are copied. The author is `66a8449eb7c52cb3dec16071`. The content is the processed editor HTML, or `processContent('')` without an editor. |
| `CreateStory.RootDraftKeepsPrev` | client/src/pages/create-story/CreateStory.tsx:43-45 | A root draft created with a truthy `prevStoryId` keeps `[prevStoryId]` as `prev`. |
| `CreateStory.StoryForm.constructor` | client/src/pages/create-story/CreateStory.tsx:17-23 | The form starts with an empty title, not busy, and no error. It has sent nothing and navigated nowhere. |
| `CreateStory.StoryForm.SetTitle` | client/src/pages/create-story/CreateStory.tsx:63-69 | The title input sets the title and nothing else. |
| `CreateStory.StoryForm.BeginSubmit` | client/src/pages/create-story/CreateStory.tsx:35-48 | Before the create call, the form becomes busy and the error is cleared. Both submit buttons (lines 71 and 144) are then disabled, and the create button reads "Creating..." (line 146). Exactly one draft, `MakeDraft` of the current title and context, is sent. |
| `CreateStory.StoryForm.FinishSubmit` | client/src/pages/create-story/CreateStory.tsx:48-55 | Success navigates back exactly once and leaves the error alone. Failure sets 'Failed to create story. Please try again.' and does not navigate. In both cases the form is not busy afterwards, both submit buttons are enabled again, and the create button reads "Create Story". |
| `CreateStory.StoryForm.Submit` | client/src/pages/create-story/CreateStory.tsx:35-56 | One submission sends one draft. Afterwards the form is not busy, both submit buttons are enabled, and the title is kept. Success leaves no error and one step back. Failure leaves the error message and no navigation. |

## Left out

- The HTML sanitizer (`utils/htmlSanitizer`) is not part of this model. It is a parameter, and no idempotence or safety property is assumed of it. If it threw inside the submit handler, the form would show the error without sending anything; that path is not modelled.
- The `fetchFilteredStories` and `createStory` request bodies (`services/storyAPI`) are not part of this model. They are network I/O, so each is an outcome supplied by the caller.
- React's effect scheduling and async interleaving are not modelled. That includes the race in which a late response for an earlier story overwrites the state of a newer one. This is concurrency, not logic in these files.
- The rich-text editor and its toolbar commands (`toggleBold`, `isActive`, …) are a third-party library. The editor is only the optional HTML string it yields.
- `console.error` on a failed create is logging output.
- The Cancel button's `navigate(-1)` (`client/src/pages/create-story/CreateStory.tsx:138`) and `handleStoryClick` (`client/src/pages/story/DisplayStory.tsx:45-47`) are left out. Each is a bare navigation call, and `handleStoryClick`'s only callers are in commented-out markup.
- The route table (`App.tsx`), the layout shell (`Layout.js`) and the sidebar (`Sidebar.tsx`) are left out. They hold markup and a single string comparison.
- All markup, styling and commented-out JSX is left out, including `dangerouslySetInnerHTML`.
