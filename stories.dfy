/** The story entity shared by the display page and the creation form,
    together with the small pieces of JavaScript truthiness the pages rely on. */
module Stories {

  /** A value that may be absent (`null` or `undefined` in the client). */
  datatype Option<+T> = None | Some(value: T)

  /** The two kinds of story node. */
  datatype StoryType = Root | Child

  /** A persisted story node. The graph edges `prev` and `next` are kept as ids only. */
  datatype Story = Story(
    id: string,
    title: string,
    content: string,
    storyType: StoryType,
    themeRoomId: string,
    prev: seq<string>,
    next: seq<string>,
    authorId: string)

  /** JavaScript truthiness of an optional string: present and not the empty string. */
  predicate IsTruthy(s: Option<string>)
  {
    s.Some? && s.value != ""
  }

  /** JavaScript truthiness of an optional flag: present and `true`. */
  predicate FlagSet(b: Option<bool>)
  {
    b == Some(true)
  }
}
