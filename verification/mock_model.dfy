/** `MockAIModel` of `app/chat/ai_models.py`: a deterministic reply chosen
    from five canned sentences by the length of the last message, decorated
    with a greeting and a question prefix, and streamed word by word. The
    model sees the conversation as the list of message texts the workflow
    hands it; the 100 ms pause between words is not modelled. */
module MockModel {
  import opened Wrappers
  import opened Text

  const MockResponses: seq<string> := [
    "这是一个模拟的AI响应，用于测试对话流程。",
    "我理解您的问题，这里是一个模拟回答。",
    "作为一个模拟AI，我可以提供基本的回应功能。",
    "您的输入已被记录，这是一个预设的回复。",
    "这是测试环境中的自动回复，实际AI将提供更智能的回答。"
  ]

  const GreetingPrefix: string := "你好！很高兴见到你。"
  const QuestionPrefix: string := "关于您的问题，"

  /** The lowercased content contains one of "你好", "hello", "hi", "嗨".
      This is a substring test, so "hi" also matches inside words such as "this". */
  predicate IsGreeting(content: string) {
    var lower := Lower(content);
    Contains(lower, "你好") || Contains(lower, "hello") || Contains(lower, "hi") || Contains(lower, "嗨")
  }

  /** The content contains an ASCII or a full-width question mark. */
  predicate IsQuestion(content: string) {
    Contains(content, "?") || Contains(content, "？")
  }

  /** `generate_response`: the canned reply for the conversation's message texts. */
  function MockReply(history: seq<string>): string {
    if history == [] then MockResponses[0]
    else
      var content := history[|history| - 1];
      var base := MockResponses[|content| % |MockResponses|];
      var greeted := if IsGreeting(content) then GreetingPrefix + base else base;
      if IsQuestion(content) then QuestionPrefix + greeted else greeted
  }

  /** What a reply says about the message it answers: whether it was read as a
      question, whether it was read as a greeting, and which canned sentence
      was chosen. */
  datatype ReplyShape = ReplyShape(question: bool, greeting: bool, index: nat)

  /** The position of `base` among the canned sentences. */
  function CannedIndex(base: string): (k: Option<nat>)
    ensures k.Some? ==> k.value < |MockResponses| && MockResponses[k.value] == base
  {
    if base == MockResponses[0] then Some(0)
    else if base == MockResponses[1] then Some(1)
    else if base == MockResponses[2] then Some(2)
    else if base == MockResponses[3] then Some(3)
    else if base == MockResponses[4] then Some(4)
    else None
  }

  /** The canned sentences have different lengths, so each is found at its own position. */
  lemma CannedIndexOf(k: nat)
    requires k < |MockResponses|
    ensures CannedIndex(MockResponses[k]) == Some(k)
  {
    assert |MockResponses[0]| == 21 && |MockResponses[1]| == 18 && |MockResponses[2]| == 22
        && |MockResponses[3]| == 19 && |MockResponses[4]| == 27;
  }

  /** Reads a reply back into its shape by peeling off the prefixes in the
      order `MockReply` put them on. */
  function DescribeReply(reply: string): Option<ReplyShape> {
    var question := StartsWith(reply, QuestionPrefix);
    var afterQuestion := if question then reply[|QuestionPrefix|..] else reply;
    var greeting := StartsWith(afterQuestion, GreetingPrefix);
    var base := if greeting then afterQuestion[|GreetingPrefix|..] else afterQuestion;
    match CannedIndex(base)
    case Some(k) => Some(ReplyShape(question, greeting, k))
    case None => None
  }

  lemma CannedSentencesHaveNoPrefix(k: nat)
    requires k < |MockResponses|
    ensures !StartsWith(MockResponses[k], QuestionPrefix)
    ensures !StartsWith(MockResponses[k], GreetingPrefix)
  {
    assert MockResponses[k][0] != QuestionPrefix[0];
    assert MockResponses[k][0] != GreetingPrefix[0];
  }

  /** The reply to an empty conversation is the first canned sentence, with no prefix. */
  lemma MockReplyToEmpty()
    ensures DescribeReply(MockReply([])) == Some(ReplyShape(false, false, 0))
  {
    CannedSentencesHaveNoPrefix(0);
    CannedIndexOf(0);
  }

  /** The reply to a conversation whose last text is `content` chose sentence
      `len(content) % 5`, carries the greeting prefix exactly when the content
      greets, and carries the question prefix, outermost, exactly when the
      content asks a question. */
  lemma MockReplyShape(history: seq<string>)
    requires history != []
    ensures var content := history[|history| - 1];
            DescribeReply(MockReply(history))
              == Some(ReplyShape(IsQuestion(content), IsGreeting(content), |content| % 5))
  {
    var content := history[|history| - 1];
    var k := |content| % 5;
    var base := MockResponses[k];
    CannedSentencesHaveNoPrefix(k);
    CannedIndexOf(k);
    var greeted := if IsGreeting(content) then GreetingPrefix + base else base;
    assert greeted[0] != QuestionPrefix[0];
    assert !StartsWith(greeted, QuestionPrefix);
    if IsGreeting(content) {
      assert (GreetingPrefix + base)[|GreetingPrefix|..] == base;
    }
    if IsQuestion(content) {
      assert (QuestionPrefix + greeted)[|QuestionPrefix|..] == greeted;
    }
  }

  /** The substring test reads "this" as a greeting. */
  lemma GreetingMatchesInsideWords()
    ensures IsGreeting("this")
  {
    assert Lower("this") == "this";
    assert StartsWith("this"[1..], "hi");
  }

  /** The pieces `generate_response_stream` yields for a list of words: the
      first word as is, every later word after one space. */
  function StreamPieces(words: seq<string>): (pieces: seq<string>)
    ensures |pieces| == |words|
    ensures forall i :: 0 <= i < |words| && IsWord(words[i]) ==> pieces[i] != []
  {
    seq(|words|, i requires 0 <= i < |words| => if i == 0 then words[i] else " " + words[i])
  }

  /** The pieces concatenate to the words joined by single spaces. */
  lemma {:induction false} StreamPiecesConcat(words: seq<string>)
    ensures Concat(StreamPieces(words)) == JoinWith(words, " ")
  {
    if |words| > 1 {
      var tail := words[1..];
      var pieces := StreamPieces(words);
      var tailPieces := StreamPieces(tail);
      assert pieces[1..] == seq(|tail|, i requires 0 <= i < |tail| => " " + tail[i]);
      SpacedConcat(tail);
      assert Concat(pieces) == words[0] + Concat(pieces[1..]);
    } else if |words| == 1 {
      assert Concat(StreamPieces(words)[1..]) == [];
    }
  }

  lemma {:induction false} SpacedConcat(words: seq<string>)
    requires words != []
    ensures Concat(seq(|words|, i requires 0 <= i < |words| => " " + words[i])) == " " + JoinWith(words, " ")
  {
    var spaced := seq(|words|, i requires 0 <= i < |words| => " " + words[i]);
    if |words| > 1 {
      var tail := words[1..];
      assert spaced[1..] == seq(|tail|, i requires 0 <= i < |tail| => " " + tail[i]);
      SpacedConcat(tail);
      assert Concat(spaced) == spaced[0] + Concat(spaced[1..]);
    } else {
      assert Concat(spaced) == spaced[0] + Concat(spaced[1..]);
      assert spaced[1..] == [];
    }
  }

  /** `generate_response_stream`: the reply split on whitespace and streamed one
      word per piece. */
  function MockStream(history: seq<string>): (pieces: seq<string>)
    ensures forall i :: 0 <= i < |pieces| ==> pieces[i] != []
    ensures Concat(pieces) == JoinWith(SplitWords(MockReply(history)), " ")
  {
    var words := SplitWords(MockReply(history));
    StreamPiecesConcat(words);
    StreamPieces(words)
  }

  lemma WordConcat(a: string, b: string)
    requires IsWord(a) && IsWord(b)
    ensures IsWord(a + b)
  {
    assert forall i :: 0 <= i < |a + b| ==> (a + b)[i] == if i < |a| then a[i] else b[i - |a|];
  }

  /** Every character of `w` is an upper-case ASCII letter or lies above
      U+3000, the last whitespace code point; true of all the canned texts. */
  predicate CjkOrCapitals(w: string) {
    forall i :: 0 <= i < |w| ==> 'A' <= w[i] <= 'Z' || w[i] > '\U{3000}'
  }

  lemma Sentence0Chars() ensures CjkOrCapitals(MockResponses[0]) {}
  lemma Sentence1Chars() ensures CjkOrCapitals(MockResponses[1]) {}
  lemma Sentence2Chars() ensures CjkOrCapitals(MockResponses[2]) {}
  lemma Sentence3Chars() ensures CjkOrCapitals(MockResponses[3]) {}
  lemma Sentence4Chars() ensures CjkOrCapitals(MockResponses[4]) {}
  lemma PrefixChars() ensures CjkOrCapitals(GreetingPrefix) && CjkOrCapitals(QuestionPrefix) {}

  lemma CannedSentenceIsWord(k: nat)
    requires k < |MockResponses|
    ensures IsWord(MockResponses[k])
  {
    if k == 0 { Sentence0Chars(); }
    else if k == 1 { Sentence1Chars(); }
    else if k == 2 { Sentence2Chars(); }
    else if k == 3 { Sentence3Chars(); }
    else { Sentence4Chars(); }
  }

  /** Every mock reply is one short word: no canned text contains
      whitespace, and the longest reply has fewer than 64 characters. */
  lemma MockReplyIsWord(history: seq<string>)
    ensures IsWord(MockReply(history)) && |MockReply(history)| < 64
  {
    PrefixChars();
    if history == [] {
      CannedSentenceIsWord(0);
    } else {
      var content := history[|history| - 1];
      var base := MockResponses[|content| % |MockResponses|];
      CannedSentenceIsWord(|content| % |MockResponses|);
      var greeted := if IsGreeting(content) then GreetingPrefix + base else base;
      if IsGreeting(content) {
        WordConcat(GreetingPrefix, base);
      }
      if IsQuestion(content) {
        WordConcat(QuestionPrefix, greeted);
      }
    }
  }

  /** Hence every mock reply streams as a single piece holding the whole reply. */
  lemma MockStreamIsOnePiece(history: seq<string>)
    ensures MockStream(history) == [MockReply(history)]
  {
    MockReplyIsWord(history);
    SplitSingleWord(MockReply(history));
  }
}
