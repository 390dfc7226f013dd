/**
 * Image text extraction (`OcrService::extract_text_from_image`): the Textract reply's LINE blocks
 * are concatenated, one per line, and the trimmed result is returned, or a fixed sentence when no
 * readable text was found. The Textract call itself is an input: either the send failure's message
 * or the reply's optional block list.
 */
module Ocr {

  import opened Wrappers
  import opened Text

  datatype BlockType = Line | Word | Page | OtherBlockType

  /** A Textract block: only its type and its optional text matter here. */
  datatype Block = Block(blockType: Option<BlockType>, text: Option<string>)

  datatype TextractReply = SendFailed(message: string) | Detected(blocks: Option<seq<Block>>)

  datatype OcrError = ProcessingError(message: string)

  /** The `Display` text of an OCR error: the fixed prefix, then the message unchanged. */
  function OcrErrorText(e: OcrError): (s: string)
    ensures StartsWith(s, "Image processing error: ")
    ensures |s| >= |e.message| && s[|s| - |e.message|..] == e.message
  {
    "Image processing error: " + e.message
  }

  const NoReadableText := "No readable text found"

  /** The blocks whose text is kept: LINE blocks that carry a text. */
  predicate Contributes(b: Block)
  {
    b.blockType == Some(Line) && b.text.Some?
  }

  /** The text the extraction loop builds: every contributing block's text followed by a newline, in order. */
  function LineText(blocks: seq<Block>): (s: string)
    decreases |blocks|
  {
    if |blocks| == 0 then ""
    else
      var last := blocks[|blocks| - 1];
      LineText(blocks[..|blocks| - 1]) + (if Contributes(last) then last.text.value + "\n" else "")
  }

  /** What is returned for the accumulated text: the text trimmed, or the fixed sentence when nothing is left. */
  function Readable(text: string): (r: string)
    ensures AllWhitespace(text) ==> r == NoReadableText
    ensures !AllWhitespace(text) ==> r == Trim(text)
    ensures |r| > 0 && !IsWhitespace(r[0]) && !IsWhitespace(r[|r| - 1])
  {
    TrimEmptyIffAllWhitespace(text);
    TrimmedEnds(text);
    SentenceEnds();
    var t := Trim(text);
    if t == [] then NoReadableText else t
  }

  lemma TrimmedEnds(s: string)
    ensures var t := Trim(s); |t| > 0 ==> !IsWhitespace(t[0]) && !IsWhitespace(t[|t| - 1])
  {
    var t := Trim(s);
    assert TrimEnd(TrimStart(s)) == TrimStart(s)[..|t|];
  }

  lemma SentenceEnds()
    ensures |NoReadableText| > 0 && !IsWhitespace(NoReadableText[0]) && !IsWhitespace(NoReadableText[|NoReadableText| - 1])
  {
    assert |NoReadableText| == 22 && NoReadableText[0] == 'N' && NoReadableText[21] == 'd';
  }

  /** The result of the extraction for a given Textract reply. */
  function OcrResult(reply: TextractReply): (r: Result<string, OcrError>)
  {
    match reply
    case SendFailed(message) => Failure(ProcessingError(message))
    case Detected(blocks) => Success(Readable(LineText(blocks.GetOr([]))))
  }

  /** `extract_text_from_image`: the loop over the blocks, proved to build `LineText`. */
  method ExtractTextFromImage(reply: TextractReply) returns (r: Result<string, OcrError>)
    ensures r == OcrResult(reply)
  {
    if reply.SendFailed? {
      return Failure(ProcessingError(reply.message));
    }
    var extracted := "";
    if reply.blocks.Some? {
      var blocks := reply.blocks.value;
      for i := 0 to |blocks|
        invariant extracted == LineText(blocks[..i])
      {
        assert blocks[..i + 1][..i] == blocks[..i];
        var block := blocks[i];
        if block.blockType == Some(Line) {
          if block.text.Some? {
            extracted := extracted + block.text.value + "\n";
          }
        }
      }
      assert blocks[..|blocks|] == blocks;
    }
    if Trim(extracted) == [] {
      TrimEmptyIffAllWhitespace(extracted);
      r := Success(NoReadableText);
    } else {
      TrimEmptyIffAllWhitespace(extracted);
      r := Success(Trim(extracted));
    }
  }

  /** The accumulated text of two runs of blocks is the two texts one after the other. */
  lemma {:induction false} LineTextAppend(a: seq<Block>, b: seq<Block>)
    ensures LineText(a + b) == LineText(a) + LineText(b)
    decreases |b|
  {
    if |b| == 0 {
      assert a + b == a;
    } else {
      var b' := b[..|b| - 1];
      assert (a + b)[..|a + b| - 1] == a + b';
      LineTextAppend(a, b');
    }
  }

  lemma {:induction false} AllWhitespaceAppend(s: string, t: string)
    ensures AllWhitespace(s + t) <==> AllWhitespace(s) && AllWhitespace(t)
  {
    if AllWhitespace(s + t) {
      forall i | 0 <= i < |s| ensures IsWhitespace(s[i]) {
        assert (s + t)[i] == s[i];
      }
      forall i | 0 <= i < |t| ensures IsWhitespace(t[i]) {
        assert (s + t)[|s| + i] == t[i];
      }
    }
  }

  /**
   * The fixed sentence is returned exactly when every LINE block's text is blank (or there is none):
   * blocks of other types never make the result readable.
   */
  lemma {:induction false} NothingReadableIff(blocks: seq<Block>)
    ensures AllWhitespace(LineText(blocks))
            <==> forall i :: 0 <= i < |blocks| && Contributes(blocks[i]) ==> AllWhitespace(blocks[i].text.value)
    decreases |blocks|
  {
    if |blocks| > 0 {
      var init := blocks[..|blocks| - 1];
      var last := blocks[|blocks| - 1];
      NothingReadableIff(init);
      if Contributes(last) {
        AllWhitespaceAppend(LineText(init), last.text.value + "\n");
        AllWhitespaceAppend(last.text.value, "\n");
      } else {
        assert LineText(blocks) == LineText(init) + "";
      }
      assert forall i :: 0 <= i < |init| ==> init[i] == blocks[i];
    }
  }

  /** A reply with no blocks, or only blocks that are not LINE blocks with text, reads as the fixed sentence. */
  lemma OnlyOtherBlocksReadAsNothing(blocks: seq<Block>)
    requires forall i :: 0 <= i < |blocks| ==> !Contributes(blocks[i])
    ensures OcrResult(Detected(Some(blocks))) == Success(NoReadableText)
    ensures OcrResult(Detected(None)) == Success(NoReadableText)
  {
    NothingReadableIff(blocks);
    NothingReadableIff([]);
  }

  /** One LINE block with visible text is returned trimmed, without the newline the loop adds. */
  lemma {:induction false} SingleLineIsTrimmed(text: string)
    requires !AllWhitespace(text)
    ensures OcrResult(Detected(Some([Block(Some(Line), Some(text))]))) == Success(Trim(text))
  {
    var b := Block(Some(Line), Some(text));
    assert [b][..0] == [];
    assert LineText([b]) == text + "\n";
    AllWhitespaceAppend(text, "\n");
    TrimDropsNewline(text);
  }

  lemma TrimDropsNewline(text: string)
    requires !AllWhitespace(text)
    ensures Trim(text + "\n") == Trim(text)
  {
    TrimStartAppend(text, "\n");
    var u := TrimStart(text);
    assert (u + "\n")[..|u|] == u;
  }

  lemma {:induction false} TrimStartAppend(s: string, u: string)
    requires !AllWhitespace(s)
    ensures TrimStart(s + u) == TrimStart(s) + u
    decreases |s|
  {
    assert (s + u)[0] == s[0];
    if IsWhitespace(s[0]) {
      assert (s + u)[1..] == s[1..] + u;
      assert !AllWhitespace(s[1..]) by {
        var i :| 0 <= i < |s| && !IsWhitespace(s[i]);
        assert s[1..][i - 1] == s[i];
      }
      TrimStartAppend(s[1..], u);
    }
  }
}
