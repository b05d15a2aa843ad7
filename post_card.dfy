/**
 * One post card: long content is cut to 280 characters until the card is
 * expanded, and deleting goes through a confirmation dialog.
 */
module PostCard {
  import opened Wrappers

  const Limit := 280

  /** The "더 보기" (show more) button shows, and the text is cut, exactly for long content on a collapsed card. */
  predicate ShouldTruncate(content: string, isExpanded: bool) {
    |content| > Limit && !isExpanded
  }

  /** The "접기" (collapse) button shows exactly for long content on an expanded card. */
  predicate ShowsCollapse(content: string, isExpanded: bool) {
    isExpanded && |content| > Limit
  }

  /** `displayContent`: the first 280 characters and "..." when cut, else the whole content. */
  function DisplayContent(content: string, isExpanded: bool): (r: string)
    ensures ShouldTruncate(content, isExpanded) ==> r == content[..Limit] + "..." && |r| == Limit + 3
    ensures !ShouldTruncate(content, isExpanded) ==> r == content
    ensures r[..if |r| < Limit then |r| else Limit] == content[..if |r| < Limit then |r| else Limit]
  {
    if ShouldTruncate(content, isExpanded) then content[..Limit] + "..." else content
  }

  /** At most one of the two buttons shows, and for long content exactly one does. */
  lemma OneButtonForLongContent(content: string, isExpanded: bool)
    ensures !(ShouldTruncate(content, isExpanded) && ShowsCollapse(content, isExpanded))
    ensures |content| > Limit ==> ShouldTruncate(content, isExpanded) || ShowsCollapse(content, isExpanded)
    ensures |content| <= Limit ==> DisplayContent(content, isExpanded) == content
  {
  }

  class Card {
    const postId: string
    var showDeleteDialog: bool
    var isExpanded: bool

    constructor(postId: string)
      ensures this.postId == postId && !showDeleteDialog && !isExpanded
    {
      this.postId := postId;
      showDeleteDialog, isExpanded := false, false;
    }

    /** `handleDelete`: opens the dialog. */
    method HandleDelete()
      modifies this
      ensures showDeleteDialog && isExpanded == old(isExpanded)
    {
      showDeleteDialog := true;
    }

    /** `confirmDelete`: reports the post's id to `onDelete` (the result) and closes the dialog. */
    method ConfirmDelete() returns (deleted: Option<string>)
      modifies this
      ensures deleted == Some(postId)
      ensures !showDeleteDialog && isExpanded == old(isExpanded)
    {
      deleted := Some(postId);
      showDeleteDialog := false;
    }

    /** `cancelDelete`: closes the dialog without calling `onDelete`. */
    method CancelDelete() returns (deleted: Option<string>)
      modifies this
      ensures deleted == None
      ensures !showDeleteDialog && isExpanded == old(isExpanded)
    {
      deleted := None;
      showDeleteDialog := false;
    }

    /** The "show more" and "collapse" buttons. */
    method SetExpanded(value: bool)
      modifies this
      ensures isExpanded == value && showDeleteDialog == old(showDeleteDialog)
    {
      isExpanded := value;
    }
  }
}
