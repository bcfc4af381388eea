/** The story creation form: the draft it builds from the title, the editor
    content and the navigation context, and the busy flag and error message it
    keeps around the single create request. */
module CreateStory {
  import opened Stories
  import opened ParagraphBreaks

  /** The author id every draft carries. */
  const PlaceholderAuthorId: string := "66a8449eb7c52cb3dec16071"

  /** The message shown when the create request fails. */
  const CreateErrorMessage: string := "Failed to create story. Please try again."

  /** What the page that opened the form passed along; any part may be missing. */
  datatype NavContext = NavContext(prevStoryId: Option<string>, themeRoomId: Option<string>, rootNode: Option<bool>)

  /** The partial story sent to the store. */
  datatype Draft = Draft(
    title: string,
    content: string,
    storyType: StoryType,
    themeRoomId: Option<string>,
    prev: seq<string>,
    authorId: string)

  /** How the create request ended. */
  datatype CreateOutcome = Created | Failed

  /** The editor's HTML, or the empty string when there is no editor. */
  function EditorHtml(editor: Option<string>): string
  {
    if editor.Some? then editor.value else ""
  }

  /** Content as stored: sanitized (by `sanitize`, whose workings are not
      modelled), then with a line break between every two adjacent paragraphs. */
  function ProcessContent(sanitize: string -> string, content: string): (stored: string)
    ensures stored == Join(Pieces(sanitize(content)), Separated)
    ensures FreeOfAdjacent(stored)
    ensures |stored| == |sanitize(content)| + 4 * MatchCount(sanitize(content))
    ensures FreeOfAdjacent(sanitize(content)) ==> stored == sanitize(content)
  {
    var clean := sanitize(content);
    InsertBreaksIsSplitJoin(clean);
    InsertBreaksRemovesAll(clean);
    InsertBreaksLength(clean);
    InsertBreaksIdentity(clean);
    InsertBreaks(clean)
  }

  /** The draft built on submit: the type and the predecessor come from the
      navigation context, the title and theme room are copied, and the author
      is the fixed placeholder. */
  function MakeDraft(title: string, editor: Option<string>, ctx: NavContext, sanitize: string -> string): (d: Draft)
    ensures d.title == title && d.themeRoomId == ctx.themeRoomId
    ensures d.storyType == Root <==> FlagSet(ctx.rootNode)
    ensures d.storyType == Child <==> !FlagSet(ctx.rootNode)
    ensures IsTruthy(ctx.prevStoryId) ==> d.prev == [ctx.prevStoryId.value]
    ensures !IsTruthy(ctx.prevStoryId) ==> d.prev == []
    ensures d.authorId == PlaceholderAuthorId
    ensures editor.Some? ==> d.content == ProcessContent(sanitize, editor.value)
    ensures editor.None? ==> d.content == ProcessContent(sanitize, "")
    ensures FreeOfAdjacent(d.content)
  {
    Draft(
      title,
      ProcessContent(sanitize, EditorHtml(editor)),
      if FlagSet(ctx.rootNode) then Root else Child,
      ctx.themeRoomId,
      if IsTruthy(ctx.prevStoryId) then [ctx.prevStoryId.value] else [],
      PlaceholderAuthorId)
  }

  /** The form does not tie the type to the linkage: a root draft still carries
      the predecessor id when one was passed along. */
  lemma RootDraftKeepsPrev(title: string, editor: Option<string>, ctx: NavContext, sanitize: string -> string)
    requires FlagSet(ctx.rootNode) && IsTruthy(ctx.prevStoryId)
    ensures MakeDraft(title, editor, ctx, sanitize).storyType == Root
    ensures MakeDraft(title, editor, ctx, sanitize).prev == [ctx.prevStoryId.value]
  {
  }

  /** The submit buttons' state. */
  datatype Controls = Controls(saveDisabled: bool, createDisabled: bool, createLabel: string)

  /** The form's component state. `sent` lists every draft handed to the
      create request, `backNavigations` counts the steps back in history. */
  class StoryForm {
    const context: NavContext
    var title: string
    var isLoading: bool
    var error: Option<string>
    var sent: seq<Draft>
    var backNavigations: nat

    /** The only error the form ever records is the create failure. No
      contract depends on it; it records which error values can occur. */
    ghost predicate Valid()
      reads this
    {
      error == None || error == Some(CreateErrorMessage)
    }

    constructor (context: NavContext)
      ensures Valid()
      ensures this.context == context
      ensures title == "" && !isLoading && error == None && sent == [] && backNavigations == 0
    {
      this.context := context;
      title := "";
      isLoading := false;
      error := None;
      sent := [];
      backNavigations := 0;
    }

    /** The two submit buttons: both disabled, and the create button reading
      "Creating...", while `isLoading`. */
    function SubmitControls(): Controls
      reads this
    {
      Controls(isLoading, isLoading, if isLoading then "Creating..." else "Create Story")
    }

    /** The title input's change handler. */
    method SetTitle(t: string)
      requires Valid()
      modifies this
      ensures Valid()
      ensures title == t
      ensures isLoading == old(isLoading) && error == old(error)
      ensures sent == old(sent) && backNavigations == old(backNavigations)
    {
      title := t;
    }

    /** Submitting, up to the create request: the form becomes busy, the old
      error is cleared, and the draft is sent. */
    method BeginSubmit(editor: Option<string>, sanitize: string -> string) returns (draft: Draft)
      requires Valid()
      modifies this
      ensures Valid()
      ensures isLoading && error == None
      ensures draft == MakeDraft(title, editor, context, sanitize)
      ensures sent == old(sent) + [draft]
      ensures title == old(title) && backNavigations == old(backNavigations)
      ensures SubmitControls() == Controls(true, true, "Creating...")
    {
      isLoading := true;
      error := None;
      draft := MakeDraft(title, editor, context, sanitize);
      sent := sent + [draft];
    }

    /** Submitting, after the create request: one step back on success, the
      error message on failure, and never busy afterwards. */
    method FinishSubmit(outcome: CreateOutcome)
      requires Valid()
      modifies this
      ensures Valid()
      ensures !isLoading
      ensures outcome == Created ==> backNavigations == old(backNavigations) + 1 && error == old(error)
      ensures outcome == Failed ==> backNavigations == old(backNavigations) && error == Some(CreateErrorMessage)
      ensures title == old(title) && sent == old(sent)
      ensures SubmitControls() == Controls(false, false, "Create Story")
    {
      if outcome == Created {
        backNavigations := backNavigations + 1;
      } else {
        error := Some(CreateErrorMessage);
      }
      isLoading := false;
    }

    /** The whole submit handler: exactly one create request per submission;
      the form keeps its title either way. */
    method Submit(editor: Option<string>, sanitize: string -> string, outcome: CreateOutcome) returns (draft: Draft)
      requires Valid()
      modifies this
      ensures Valid()
      ensures draft == MakeDraft(old(title), editor, context, sanitize)
      ensures sent == old(sent) + [draft]
      ensures !isLoading && title == old(title)
      ensures outcome == Created ==> error == None && backNavigations == old(backNavigations) + 1
      ensures outcome == Failed ==> error == Some(CreateErrorMessage) && backNavigations == old(backNavigations)
      ensures SubmitControls() == Controls(false, false, "Create Story")
    {
      draft := BeginSubmit(editor, sanitize);
      FinishSubmit(outcome);
    }
  }
}
