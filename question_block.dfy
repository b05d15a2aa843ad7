/**
 * One question of the cover-letter editor: a text area capped at 500 characters with a
 * character counter that turns amber past 90% of the cap.
 */
module QuestionBlock {
  import opened Wrappers

  const MaxChars: nat := 500

  /** The counter turns amber when `charCount > maxChars * 0.9`. */
  predicate ShowsWarning(charCount: int) {
    (charCount as real) > (MaxChars as real) * 0.9
  }

  /** The warning threshold is 450 characters, exclusive. */
  lemma WarningAbove450(charCount: int)
    ensures ShowsWarning(charCount) <==> charCount > 450
  {
    assert (MaxChars as real) * 0.9 == 450.0;
  }

  /** Within the cap, the counter is amber exactly for the last fifty characters: 451..500. */
  lemma WarningBand(content: string)
    requires |content| <= MaxChars
    ensures ShowsWarning(|content|) <==> 450 < |content| <= 500
  {
    WarningAbove450(|content|);
  }

  class Block {
    /** The content prop received from the editor. */
    var content: string
    var charCount: int
    /** Whether the title input is rendered, the `showTitle` prop. */
    var showTitle: bool

    /** After the effect on `content` has run, the counter shows the content's length. */
    predicate Synced()
      reads this
    {
      charCount == |content|
    }

    /** Mounting runs the effect, which sets the counter to the content's length. */
    constructor (content: string, showTitle: bool)
      ensures this.content == content && this.showTitle == showTitle
      ensures Synced()
    {
      this.content := content;
      this.showTitle := showTitle;
      charCount := |content|;
    }

    /**
     * A change of the text area: an edit within the cap is forwarded to the editor and
     * counted; a longer one is dropped and nothing changes.
     */
    method HandleContentChange(newContent: string) returns (forwarded: Option<string>)
      modifies this
      ensures forwarded == (if |newContent| <= MaxChars then Some(newContent) else None)
      ensures content == (if |newContent| <= MaxChars then newContent else old(content))
      ensures charCount == (if |newContent| <= MaxChars then |newContent| else old(charCount))
      ensures showTitle == old(showTitle)
      ensures old(Synced()) ==> Synced()
      ensures old(|content|) <= MaxChars ==> |content| <= MaxChars
    {
      if |newContent| <= MaxChars {
        content := newContent;
        charCount := |newContent|;
        forwarded := Some(newContent);
      } else {
        forwarded := None;
      }
    }

    /** A new `content` prop from the editor re-runs the effect. */
    method ReceiveContent(newContent: string)
      modifies this
      ensures content == newContent && showTitle == old(showTitle)
      ensures Synced()
    {
      content := newContent;
      charCount := |content|;
    }
  }
}
