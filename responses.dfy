/** The typed-question panel of the session screen (src/app/SimpleApp.tsx,
    `handleQASubmit`): the answer picked out of the responses endpoint's
    body, the split of that answer into words and the white space between
    them, and the word-by-word reveal. */
module Responses {
  import opened Wrappers
  import opened Text
  import opened Json

  const NoAnswer: string := "No answer."
  const ErrorAnswer: string := "Error getting answer."

  /** What the request to the responses endpoint gave: a parsed body, or
      the error that `fetch` or the body parser threw. */
  datatype ResponsesReply = Body(data: Json) | RequestThrew(message: string)

  /** `typeof v === 'string'`. */
  predicate IsString(v: Json) {
    v.JStr?
  }

  /** The shapes tried for `output[0].content`, in order: a string, an
      array whose first element has a truthy `text`, an object with a
      truthy `text`. `content` is truthy here, so an array or object
      always qualifies as `content && typeof content === 'object'`. */
  function FromContent(content: Json): (r: Json)
    requires Truthy(content)
    ensures r == JStr(NoAnswer) || Truthy(r)
    ensures content.JStr? ==> r == content
    ensures content.JArr? && TruthyOpt(Field(First(Some(content)), "text")) ==>
              r == content.elems[0].fields["text"]
    ensures content.JObj? && TruthyOpt(Field(Some(content), "text")) ==> r == content.fields["text"]
    ensures content.JArr? && !TruthyOpt(Field(First(Some(content)), "text")) ==> r == JStr(NoAnswer)
    ensures content.JObj? && !TruthyOpt(Field(Some(content), "text")) ==> r == JStr(NoAnswer)
    ensures content.JBool? || content.JNum? ==> r == JStr(NoAnswer)
  {
    if IsString(content) then content
    else if content.JArr? && TruthyOpt(Field(First(Some(content)), "text")) then
      Field(First(Some(content)), "text").value
    else if content.JObj? && TruthyOpt(Field(Some(content), "text")) then
      Field(Some(content), "text").value
    else JStr(NoAnswer)
  }

  /** `data.output[0]?.content`, when `data.output` is an array. */
  function OutputContent(data: Json): Option<Json> {
    Field(First(Field(Some(data), "output")), "content")
  }

  /** `data.choices[0]?.message?.content`, when `data.choices` is an array. */
  function ChoiceContent(data: Json): Option<Json> {
    Field(Field(First(Field(Some(data), "choices")), "message"), "content")
  }

  /** The last step of the cascade, on `data?.answer`: a string is the
      answer, anything else truthy gives its `text` when that is truthy;
      otherwise "No answer.". */
  function FromAnswer(answer: Option<Json>): (r: Json)
    ensures r == JStr(NoAnswer) || Truthy(r)
    ensures !TruthyOpt(answer) ==> r == JStr(NoAnswer)
    ensures TruthyOpt(answer) && answer.value.JStr? ==> r == answer.value
    ensures TruthyOpt(answer) && answer.value.JObj? && TruthyOpt(Field(answer, "text")) ==>
              r == answer.value.fields["text"]
    ensures TruthyOpt(answer) && !answer.value.JStr? && !TruthyOpt(Field(answer, "text")) ==>
              r == JStr(NoAnswer)
  {
    if TruthyOpt(answer) then
      if IsString(answer.value) then answer.value
      else if TruthyOpt(Field(answer, "text")) then Field(answer, "text").value
      else JStr(NoAnswer)
    else JStr(NoAnswer)
  }

  /** The cascade: `output[0].content` in one of its shapes, else
      `choices[0].message.content`, else `answer` (a string, or its
      `text`), else "No answer.". Once `output[0].content` is present,
      `choices` and `answer` are not looked at, even when the content has
      none of the three shapes. The result is the value the source assigns
      to `answer`: it need not be a string. */
  function ExtractAnswer(data: Json): (r: Json)
    ensures r == JStr(NoAnswer) || Truthy(r)
    ensures TruthyOpt(OutputContent(data)) ==> r == FromContent(OutputContent(data).value)
    ensures (!TruthyOpt(OutputContent(data)) && TruthyOpt(ChoiceContent(data)))
              ==> r == ChoiceContent(data).value
    ensures (!TruthyOpt(OutputContent(data)) && !TruthyOpt(ChoiceContent(data)))
              ==> r == FromAnswer(Field(Some(data), "answer"))
  {
    var output := Field(Some(data), "output");
    var choices := Field(Some(data), "choices");
    if TruthyOpt(output) && IsArray(output) && TruthyOpt(OutputContent(data)) then
      FromContent(OutputContent(data).value)
    else if TruthyOpt(choices) && IsArray(choices) && TruthyOpt(ChoiceContent(data)) then
      ChoiceContent(data).value
    else FromAnswer(Field(Some(data), "answer"))
  }

  /** With none of `output`, `choices` and `answer` present, the answer is
      "No answer.". */
  lemma {:induction false} EmptyBodyHasNoAnswer(data: Json)
    requires !data.JObj? || ("output" !in data.fields && "choices" !in data.fields && "answer" !in data.fields)
    ensures ExtractAnswer(data) == JStr(NoAnswer)
  {
  }

  /** The answer of one submission: the cascade over the body, or "Error
      getting answer." when the request or the body parser threw. */
  function AnswerOf(reply: ResponsesReply): (r: Json)
    ensures reply.RequestThrew? ==> r == JStr(ErrorAnswer)
    ensures reply.Body? ==> r == ExtractAnswer(reply.data)
    ensures reply.Body? ==> r == JStr(NoAnswer) || Truthy(r)
  {
    match reply
    case RequestThrew(_) => JStr(ErrorAnswer)
    case Body(data) => ExtractAnswer(data)
  }

  /** A body carrying both an `output` with content and `choices` answers
      from the output: adding `choices` to such a body changes nothing. */
  lemma {:induction false} OutputTakesPrecedence(data: Json, choices: Json)
    requires data.JObj? && TruthyOpt(OutputContent(data))
    ensures ExtractAnswer(WithField(data, "choices", choices)) == ExtractAnswer(data)
  {
    var d := WithField(data, "choices", choices);
    FieldOfOtherKey(data, "choices", choices, "output");
    assert OutputContent(d) == OutputContent(data);
  }

  /** Three envelopes with the answer "42": in `output[0].content` as a
      string, in `choices[0].message.content`, and in `answer` (as a string
      or as its `text`). */
  lemma {:induction false} EnvelopeExamples()
    ensures ExtractAnswer(JObj(map["output" := JArr([JObj(map["content" := JStr("42")])])])) == JStr("42")
    ensures ExtractAnswer(JObj(map["choices" := JArr([JObj(map["message" := JObj(map["content" := JStr("42")])])])]))
            == JStr("42")
    ensures ExtractAnswer(JObj(map["answer" := JStr("42")])) == JStr("42")
    ensures ExtractAnswer(JObj(map["answer" := JObj(map["text" := JStr("42")])])) == JStr("42")
  {
  }

  /** Output content as an array whose first element has `text`, and as
      an object with `text`: both give that text. */
  lemma {:induction false} ContentShapeExamples()
    ensures ExtractAnswer(JObj(map["output" := JArr([JObj(map["content" := JArr([JObj(map["text" := JStr("42")])])])])]))
            == JStr("42")
    ensures ExtractAnswer(JObj(map["output" := JArr([JObj(map["content" := JObj(map["text" := JStr("42")])])])]))
            == JStr("42")
  {
  }

  /** A content of none of the three shapes gives "No answer." even when
      `choices` holds an answer. */
  lemma {:induction false} UnshapedContentExample()
    ensures ExtractAnswer(JObj(map["output" := JArr([JObj(map["content" := JNum(7.0)])]),
                                   "choices" := JArr([JObj(map["message" := JObj(map["content" := JStr("42")])])])]))
            == JStr(NoAnswer)
  {
    var c := JObj(map["content" := JNum(7.0)]);
    var m := JObj(map["message" := JObj(map["content" := JStr("42")])]);
    var d := JObj(map["output" := JArr([c]), "choices" := JArr([m])]);
    assert Field(Some(d), "output") == Some(JArr([c]));
    assert OutputContent(d) == Some(JNum(7.0));
  }

  // ---------------------------------------------------------------------
  // `answer.split(/(\s+)/)`: words and the white space between them
  // ---------------------------------------------------------------------

  /** The longest prefix of `s` without white space. */
  function WordPrefix(s: string): (w: string)
    ensures |w| <= |s| && w == s[..|w|] && NoWhitespace(w)
    ensures w == s || IsWhitespace(s[|w|])
  {
    if s == [] || IsWhitespace(s[0]) then []
    else
      var w := WordPrefix(s[1..]);
      assert s == [s[0]] + s[1..];
      [s[0]] + w
  }

  /** The longest prefix of `s` made of white space. */
  function SpacePrefix(s: string): (w: string)
    ensures |w| <= |s| && w == s[..|w|] && AllWhitespace(w)
    ensures w == s || !IsWhitespace(s[|w|])
  {
    if s == [] || !IsWhitespace(s[0]) then []
    else
      var w := SpacePrefix(s[1..]);
      assert s == [s[0]] + s[1..];
      [s[0]] + w
  }

  /** The tokens of a split on white-space runs that keeps the runs: a word
      (possibly empty), then alternately a run of white space and a word. */
  function SplitKeepingSpaces(s: string): (r: seq<string>)
    ensures Concat(r) == s
    decreases |s|
  {
    var w := WordPrefix(s);
    if w == s then [s]
    else
      var tail := s[|w|..];
      var sp := SpacePrefix(tail);
      assert sp != [] by {
        assert tail[0] == s[|w|];
      }
      var rest := tail[|sp|..];
      var t := SplitKeepingSpaces(rest);
      SplitConcat(s, w, tail, sp, rest, t);
      [w, sp] + t
  }

  lemma {:induction false} SplitConcat(s: string, w: string, tail: string, sp: string, rest: string, t: seq<string>)
    requires |w| <= |s| && w == s[..|w|] && tail == s[|w|..]
    requires |sp| <= |tail| && sp == tail[..|sp|] && rest == tail[|sp|..] && Concat(t) == rest
    ensures Concat([w, sp] + t) == s
  {
    ConcatAppend([w, sp], t);
    assert Concat([w, sp]) == w + sp by {
      assert [w, sp][1..] == [sp];
      assert [sp][1..] == [];
    }
    assert tail == sp + rest;
    assert s == w + tail;
  }

  /** The tokens alternate, starting and ending with a word: words (never
      holding white space) at even positions, non-empty white-space runs at
      odd positions, and every word strictly between two runs non-empty.
      Only the first and the last word may be empty. */
  predicate Alternating(r: seq<string>)
    decreases |r|
  {
    if |r| == 1 then NoWhitespace(r[0])
    else
      && |r| >= 3
      && NoWhitespace(r[0]) && r[1] != [] && AllWhitespace(r[1])
      && (|r| > 3 ==> r[2] != [])
      && Alternating(r[2..])
  }

  /** An alternating token list has an odd number of tokens. */
  lemma {:induction false} AlternatingOddLength(r: seq<string>)
    requires Alternating(r)
    ensures |r| % 2 == 1
    decreases |r|
  {
    if |r| != 1 {
      AlternatingOddLength(r[2..]);
    }
  }

  /** `split(/(\s+)/)` yields alternating tokens: its words hold no white
      space, its separators are non-empty white-space runs, and only the
      first and the last word can be empty. */
  lemma {:induction false} SplitAlternates(s: string)
    ensures Alternating(SplitKeepingSpaces(s))
    decreases |s|
  {
    var w := WordPrefix(s);
    if w != s {
      var tail := s[|w|..];
      var sp := SpacePrefix(tail);
      assert sp != [] by {
        assert tail[0] == s[|w|];
      }
      var rest := tail[|sp|..];
      SplitAlternates(rest);
      var t := SplitKeepingSpaces(rest);
      if rest != [] {
        assert rest[0] == tail[|sp|];
        SplitStartsWithWord(rest);
      }
      var r := [w, sp] + t;
      assert SplitKeepingSpaces(s) == r;
      assert r[2..] == t;
    }
  }

  /** A text that starts outside white space splits into a first word that
      is not empty. */
  lemma {:induction false} SplitStartsWithWord(s: string)
    requires s != [] && !IsWhitespace(s[0])
    ensures SplitKeepingSpaces(s)[0] == WordPrefix(s) != []
  {
  }

  /** The answer shown after each step of the reveal: for `i` from 0 to
      the number of tokens, the first `i` tokens joined. */
  function RevealFrames(words: seq<string>): (frames: seq<string>)
    ensures |frames| == |words| + 1
    ensures forall i :: 0 <= i < |frames| ==> frames[i] == Concat(words[..i])
  {
    seq(|words| + 1, i requires 0 <= i <= |words| => Concat(words[..i]))
  }

  /** The first `i + 1` frames are the first `i` followed by the first `i`
      tokens joined. */
  lemma {:induction false} RevealFramesSnoc(words: seq<string>, i: nat)
    requires i <= |words|
    ensures RevealFrames(words)[..i + 1] == RevealFrames(words)[..i] + [Concat(words[..i])]
  {
  }

  /** Every frame of the reveal is a prefix of the answer, frames never get
      shorter, the first is empty and the last is the whole answer. */
  lemma {:induction false} RevealGrowsToAnswer(answer: string)
    ensures var frames := RevealFrames(SplitKeepingSpaces(answer));
            && frames[0] == ""
            && frames[|frames| - 1] == answer
            && (forall i :: 0 <= i < |frames| ==> frames[i] <= answer)
            && (forall i, j :: 0 <= i <= j < |frames| ==> frames[i] <= frames[j])
  {
    var words := SplitKeepingSpaces(answer);
    var frames := RevealFrames(words);
    assert words[..0] == [];
    assert words[..|words|] == words;
    forall i, j | 0 <= i <= j < |frames|
      ensures frames[i] <= frames[j]
    {
      ConcatPrefix(words, i, j);
    }
    forall i | 0 <= i < |frames|
      ensures frames[i] <= answer
    {
      ConcatPrefix(words, i, |words|);
    }
  }
}
