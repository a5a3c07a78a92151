/**
 * Choosing the assistant's answer from the messages the agent service lists
 * for a thread after a run: the last message whose role is "assistant", and
 * within it the first content block whose type is "text".
 */
module Reply {
  import opened Wrappers

  /** One content block of a listed message. `kind` is the block's `type`
      attribute, `None` when the block has no such attribute; `text` is the
      block's `text.value`, read only when the block is a text block. */
  datatype Block = Block(kind: Option<string>, text: string)

  /** A message as listed by the service: its role and its content blocks. */
  datatype Msg = Msg(role: string, content: seq<Block>)

  /** Why no reply could be taken from a listing, one case per error the
      page shows. */
  datatype ReplyError =
    | NoResponse     // no `data`, or no message with role "assistant"
    | NoContent      // the latest assistant message has no content blocks
    | NoTextContent  // it has content, but no block of type "text"

  predicate IsAssistant(m: Msg) {
    m.role == "assistant"
  }

  predicate IsText(b: Block) {
    b.kind == Some("text")
  }

  /** The assistant messages of `data`, in list order. */
  function AssistantMessages(data: seq<Msg>): (r: seq<Msg>)
    ensures |r| <= |data|
    ensures forall i :: 0 <= i < |r| ==> IsAssistant(r[i])
  {
    if data == [] then []
    else
      var last := data[|data| - 1];
      AssistantMessages(data[..|data| - 1]) + (if IsAssistant(last) then [last] else [])
  }

  /** The text blocks of `content`, in order. */
  function TextBlocks(content: seq<Block>): (r: seq<Block>)
    ensures |r| <= |content|
    ensures forall i :: 0 <= i < |r| ==> IsText(r[i])
  {
    if content == [] then []
    else (if IsText(content[0]) then [content[0]] else []) + TextBlocks(content[1..])
  }

  /** Every assistant message of `data` is collected, and only messages of
      `data` are. */
  lemma {:induction false} AssistantMessagesKept(data: seq<Msg>)
    ensures forall i :: 0 <= i < |data| && IsAssistant(data[i]) ==> data[i] in AssistantMessages(data)
    ensures forall m :: m in AssistantMessages(data) ==> m in data
  {
    if data != [] {
      var n := |data| - 1;
      var front := data[..n];
      AssistantMessagesKept(front);
      assert forall i :: 0 <= i < n ==> front[i] == data[i];
      assert AssistantMessages(data) ==
        AssistantMessages(front) + (if IsAssistant(data[n]) then [data[n]] else []);
    }
  }

  /** Collecting keeps list order: the assistant messages of `a + b` are
      those of `a` followed by those of `b`. */
  lemma {:induction false} AssistantMessagesSplit(a: seq<Msg>, b: seq<Msg>)
    ensures AssistantMessages(a + b) == AssistantMessages(a) + AssistantMessages(b)
  {
    if b == [] {
      assert a + b == a;
    } else {
      var n := |b| - 1;
      AssistantMessagesSplit(a, b[..n]);
      assert (a + b)[..|a + b| - 1] == a + b[..n];
      assert (a + b)[|a + b| - 1] == b[n];
    }
  }

  /** Every text block of `content` is kept, and only blocks of `content`
      are. */
  lemma {:induction false} TextBlocksKept(content: seq<Block>)
    ensures forall i :: 0 <= i < |content| && IsText(content[i]) ==> content[i] in TextBlocks(content)
    ensures forall b :: b in TextBlocks(content) ==> b in content
  {
    if content != [] {
      var rest := content[1..];
      TextBlocksKept(rest);
      assert forall i :: 0 < i < |content| ==> content[i] == rest[i - 1];
    }
  }

  /** Filtering keeps block order: the text blocks of `a + b` are those of
      `a` followed by those of `b`. */
  lemma {:induction false} TextBlocksSplit(a: seq<Block>, b: seq<Block>)
    ensures TextBlocks(a + b) == TextBlocks(a) + TextBlocks(b)
  {
    if a == [] {
      assert a + b == b;
    } else {
      var head := if IsText(a[0]) then [a[0]] else [];
      assert (a + b)[1..] == a[1..] + b;
      calc {
        TextBlocks(a + b);
        head + TextBlocks(a[1..] + b);
        { TextBlocksSplit(a[1..], b); }
        head + (TextBlocks(a[1..]) + TextBlocks(b));
        (head + TextBlocks(a[1..])) + TextBlocks(b);
        TextBlocks(a) + TextBlocks(b);
      }
    }
  }

  /** `k` is the position of the last assistant message of `data`. */
  predicate IsLastAssistant(data: seq<Msg>, k: int) {
    0 <= k < |data| && IsAssistant(data[k]) &&
    forall j :: k < j < |data| ==> !IsAssistant(data[j])
  }

  /** `j` is the position of the first text block of `content`. */
  predicate IsFirstText(content: seq<Block>, j: int) {
    0 <= j < |content| && IsText(content[j]) &&
    forall i :: 0 <= i < j ==> !IsText(content[i])
  }

  /** The reply the page shows for a listing; `None` stands for a listing
      object without a `data` attribute. */
  function ExtractReply(listing: Option<seq<Msg>>): Result<string, ReplyError> {
    var assistant := if listing.Some? then AssistantMessages(listing.value) else [];
    if assistant == [] then Err(NoResponse)
    else
      var latest := assistant[|assistant| - 1];
      if latest.content == [] then Err(NoContent)
      else
        var texts := TextBlocks(latest.content);
        if texts == [] then Err(NoTextContent) else Ok(texts[0].text)
  }

  /** There are assistant messages exactly when some listed message has role
      "assistant". */
  lemma {:induction false} NoAssistantMessages(data: seq<Msg>)
    ensures AssistantMessages(data) == [] <==> forall i :: 0 <= i < |data| ==> !IsAssistant(data[i])
  {
    if data != [] {
      var n := |data| - 1;
      var front := data[..n];
      NoAssistantMessages(front);
      assert forall i :: 0 <= i < n ==> front[i] == data[i];
      if !IsAssistant(data[n]) {
        assert AssistantMessages(data) == AssistantMessages(front);
      }
    }
  }

  /** When there are assistant messages, there is a last assistant position,
      and the last assistant message collected is the message there. */
  lemma {:induction false} LatestAssistant(data: seq<Msg>)
    ensures AssistantMessages(data) != [] ==> exists k :: IsLastAssistant(data, k)
    ensures forall k :: IsLastAssistant(data, k) ==>
      var a := AssistantMessages(data); a != [] && a[|a| - 1] == data[k]
  {
    if data != [] {
      var n := |data| - 1;
      var front := data[..n];
      LatestAssistant(front);
      assert forall i :: 0 <= i < n ==> front[i] == data[i];
      if IsAssistant(data[n]) {
        assert AssistantMessages(data) == AssistantMessages(front) + [data[n]];
        assert IsLastAssistant(data, n);
        forall k | IsLastAssistant(data, k) ensures k == n {
        }
      } else {
        assert AssistantMessages(data) == AssistantMessages(front);
        forall k | IsLastAssistant(front, k) ensures IsLastAssistant(data, k) { }
        forall k | IsLastAssistant(data, k) ensures IsLastAssistant(front, k) {
          assert k < n;
        }
      }
    }
  }

  /** The first text block is the block at the first text position, and there
      is one exactly when some block is a text block. */
  lemma {:induction false} FirstTextBlock(content: seq<Block>)
    ensures TextBlocks(content) == [] <==> forall i :: 0 <= i < |content| ==> !IsText(content[i])
    ensures TextBlocks(content) != [] ==> exists j :: IsFirstText(content, j)
    ensures forall j :: IsFirstText(content, j) ==>
      TextBlocks(content) != [] && TextBlocks(content)[0] == content[j]
  {
    if content != [] {
      var rest := content[1..];
      FirstTextBlock(rest);
      assert forall i :: 0 < i < |content| ==> content[i] == rest[i - 1];
      if IsText(content[0]) {
        assert IsFirstText(content, 0);
        forall j | IsFirstText(content, j) ensures j == 0 {
        }
      } else {
        assert TextBlocks(content) == TextBlocks(rest);
        forall j | IsFirstText(rest, j) ensures IsFirstText(content, j + 1) {
          forall i | 0 <= i < j + 1 ensures !IsText(content[i]) {
            if i > 0 { assert content[i] == rest[i - 1]; }
          }
        }
        forall j | IsFirstText(content, j) ensures j > 0 && IsFirstText(rest, j - 1) {
          forall i | 0 <= i < j - 1 ensures !IsText(rest[i]) {
            assert rest[i] == content[i + 1];
          }
        }
      }
    }
  }

  /** The reply is `text` exactly when the listing has data, its last
      assistant message has a first text block, and `text` is that block's
      text. */
  lemma ExtractReplyAnswers(listing: Option<seq<Msg>>, text: string)
    ensures ExtractReply(listing) == Ok(text) <==>
      listing.Some? &&
      exists k, j :: IsLastAssistant(listing.value, k) &&
                     IsFirstText(listing.value[k].content, j) &&
                     listing.value[k].content[j].text == text
  {
    if listing.Some? {
      var data := listing.value;
      LatestAssistant(data);
      if AssistantMessages(data) != [] {
        var k :| IsLastAssistant(data, k);
        var c := data[k].content;
        FirstTextBlock(c);
        if TextBlocks(c) != [] {
          var j :| IsFirstText(c, j);
          if ExtractReply(listing) == Ok(text) {
            assert IsLastAssistant(data, k) && IsFirstText(c, j) && c[j].text == text;
          }
        }
      }
    }
  }

  /** Each error of the extraction happens exactly in its own case. */
  lemma ExtractReplyFailures(listing: Option<seq<Msg>>)
    ensures ExtractReply(listing) == Err(NoResponse) <==>
      listing.None? || forall i :: 0 <= i < |listing.value| ==> !IsAssistant(listing.value[i])
    ensures ExtractReply(listing) == Err(NoContent) <==>
      listing.Some? &&
      exists k :: IsLastAssistant(listing.value, k) && listing.value[k].content == []
    ensures ExtractReply(listing) == Err(NoTextContent) <==>
      listing.Some? &&
      exists k :: IsLastAssistant(listing.value, k) && listing.value[k].content != [] &&
                  forall i :: 0 <= i < |listing.value[k].content| ==> !IsText(listing.value[k].content[i])
  {
    if listing.Some? {
      var data := listing.value;
      NoAssistantMessages(data);
      LatestAssistant(data);
      if AssistantMessages(data) != [] {
        var k :| IsLastAssistant(data, k);
        FirstTextBlock(data[k].content);
      }
    }
  }

  /** The loop of the page: collect the assistant messages of the listing
      in order, take the last one, and take its first text block. */
  method SelectReply(listing: Option<seq<Msg>>) returns (r: Result<string, ReplyError>)
    ensures r == ExtractReply(listing)
  {
    var assistant: seq<Msg> := [];
    if listing.Some? {
      var data := listing.value;
      var i := 0;
      while i < |data|
        invariant 0 <= i <= |data|
        invariant assistant == AssistantMessages(data[..i])
      {
        assert data[..i + 1][..i] == data[..i];
        if data[i].role == "assistant" {
          assistant := assistant + [data[i]];
        }
        i := i + 1;
      }
      assert data[..i] == data;
    }
    if assistant == [] {
      return Err(NoResponse);
    }
    var latest := assistant[|assistant| - 1];
    if latest.content == [] {
      return Err(NoContent);
    }
    var texts := TextBlocks(latest.content);
    if texts == [] {
      return Err(NoTextContent);
    }
    return Ok(texts[0].text);
  }

  /** With two assistant messages in the listing, the later one answers. */
  lemma LaterAssistantWins(question: Msg, first: Msg, second: Msg, text: string)
    requires !IsAssistant(question) && IsAssistant(first) && IsAssistant(second)
    requires second.content == [Block(Some("text"), text)]
    ensures ExtractReply(Some([question, first, second])) == Ok(text)
  {
  }

  /** Content blocks [image, text a, text b] give the reply `a`. */
  lemma FirstTextBlockWins(image: Block, a: string, b: string)
    requires !IsText(image)
    ensures ExtractReply(Some([Msg("assistant", [image, Block(Some("text"), a), Block(Some("text"), b)])])) == Ok(a)
  {
    var data := [Msg("assistant", [image, Block(Some("text"), a), Block(Some("text"), b)])];
    ExtractReplyAnswers(Some(data), a);
    assert IsLastAssistant(data, 0);
    assert IsFirstText(data[0].content, 1);
  }
}
