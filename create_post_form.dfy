/**
 * The form for a new community post: typing expands it, uploads add
 * placeholder images, and submitting hands non-blank content to the feed.
 */
module CreatePostForm {
  import opened Wrappers
  import opened Text
  import opened Lists

  /** What `onCreatePost` receives: `images` is undefined when there are none. */
  datatype Submission = Submission(content: string, images: Option<seq<string>>)

  const PlaceholderPrefix := "/placeholder.svg?height=400&width=600&query=uploaded image "

  /**
   * The demo image URL for the `i`-th file of an upload, counting from 0: the fixed prefix
   * followed by a decimal numeral that reads back as `i + 1`.
   */
  function Placeholder(i: nat): (r: string)
    ensures |r| > |PlaceholderPrefix| && r[..|PlaceholderPrefix|] == PlaceholderPrefix
    ensures forall k :: |PlaceholderPrefix| <= k < |r| ==> '0' <= r[k] <= '9'
    ensures DigitsValue(r[|PlaceholderPrefix|..]) == i + 1
  {
    var numeral := NatToString(i + 1);
    NatToStringRoundTrip(i + 1);
    assert (PlaceholderPrefix + numeral)[|PlaceholderPrefix|..] == numeral;
    PlaceholderPrefix + numeral
  }

  /** Different files of one upload get different placeholders. */
  lemma PlaceholdersDiffer(i: nat, j: nat)
    requires i != j
    ensures Placeholder(i) != Placeholder(j)
  {
    assert DigitsValue(Placeholder(i)[|PlaceholderPrefix|..]) != DigitsValue(Placeholder(j)[|PlaceholderPrefix|..]);
  }

  /** The placeholders of an upload of `n` files. */
  function Placeholders(n: nat): (r: seq<string>)
    ensures |r| == n
    ensures forall i :: 0 <= i < n ==> r[i] == Placeholder(i)
  {
    seq(n, i requires 0 <= i < n => Placeholder(i))
  }

  class Form {
    var content: string
    var images: seq<string>
    var isExpanded: bool

    constructor()
      ensures content == "" && images == [] && !isExpanded
    {
      content, images, isExpanded := "", [], false;
    }

    /** `handleContentChange`: stores the text; non-empty text expands the form, and nothing collapses it. */
    method HandleContentChange(value: string)
      modifies this
      ensures content == value && images == old(images)
      ensures isExpanded == (old(isExpanded) || value != "")
    {
      content := value;
      if !isExpanded && value != "" {
        isExpanded := true;
      }
    }

    /** A click in the text area expands the form. */
    method HandleClick()
      modifies this`isExpanded
      ensures isExpanded
    {
      isExpanded := true;
    }

    /** `handleImageUpload` for `fileCount` selected files: nothing happens without files. */
    method HandleImageUpload(fileCount: nat)
      modifies this
      ensures fileCount == 0 ==> images == old(images) && isExpanded == old(isExpanded)
      ensures fileCount > 0 ==> images == old(images) + Placeholders(fileCount) && isExpanded
      ensures content == old(content)
    {
      if fileCount > 0 {
        images := images + Placeholders(fileCount);
        isExpanded := true;
      }
    }

    /** `handleRemoveImage`: removes index `i` only. */
    method HandleRemoveImage(i: int)
      modifies this
      ensures images == RemoveAt(old(images), i)
      ensures content == old(content) && isExpanded == old(isExpanded)
    {
      images := RemoveAt(images, i);
    }

    /** `handleSubmit`: blank content is not submitted; otherwise the post goes out and the form resets. */
    method HandleSubmit() returns (submitted: Option<Submission>)
      modifies this
      ensures IsBlank(old(content)) ==>
        submitted == None && content == old(content) && images == old(images) && isExpanded == old(isExpanded)
      ensures !IsBlank(old(content)) ==>
        submitted == Some(Submission(old(content), if old(images) == [] then None else Some(old(images))))
        && content == "" && images == [] && !isExpanded
    {
      if IsBlank(content) {
        return None;
      }
      submitted := Some(Submission(content, if |images| > 0 then Some(images) else None));
      content, images, isExpanded := "", [], false;
    }
  }
}
