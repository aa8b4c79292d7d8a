/** The `content` slice of the client's store: the generated content read so
    far, the paging cursor and whether more may follow. Each reducer assigns
    one field of the state in place. The items and the cursor are opaque to
    the slice, so both are type parameters. */
module ContentSlice {
  import opened Wrappers

  class ContentState<Item, Cursor> {
    var generatedContent: seq<Item>
    /** `None` stands for `null`. */
    var lastVisible: Option<Cursor>
    var hasMore: bool

    /** `initialState`. */
    constructor()
      ensures generatedContent == [] && lastVisible == None && hasMore
    {
      generatedContent := [];
      lastVisible := None;
      hasMore := true;
    }

    method SetGeneratedContent(payload: seq<Item>)
      modifies this
      ensures generatedContent == payload
      ensures lastVisible == old(lastVisible) && hasMore == old(hasMore)
    {
      generatedContent := payload;
    }

    /** The old items keep their positions and the payload follows them;
        an empty payload changes nothing. */
    method AppendGeneratedContent(payload: seq<Item>)
      modifies this
      ensures generatedContent == old(generatedContent) + payload
      ensures |generatedContent| == |old(generatedContent)| + |payload|
      ensures generatedContent[..|old(generatedContent)|] == old(generatedContent)
      ensures payload == [] ==> generatedContent == old(generatedContent)
      ensures lastVisible == old(lastVisible) && hasMore == old(hasMore)
    {
      generatedContent := generatedContent + payload;
    }

    method SetLastVisible(payload: Option<Cursor>)
      modifies this
      ensures lastVisible == payload
      ensures generatedContent == old(generatedContent) && hasMore == old(hasMore)
    {
      lastVisible := payload;
    }

    method SetHasMore(payload: bool)
      modifies this
      ensures hasMore == payload
      ensures generatedContent == old(generatedContent) && lastVisible == old(lastVisible)
    {
      hasMore := payload;
    }
  }
}
