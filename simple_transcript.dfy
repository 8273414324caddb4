/** The transcript panel (src/app/components/SimpleTranscript.tsx): the
    question-and-answer view derived from the transcript, the split of an
    answer into its first fenced code block and the rest, the screenshot
    ("vision") request flow, and the rule that enables the Save button of
    the instructions editor. */
module SimpleTranscript {
  import opened Wrappers
  import opened Text
  import opened Transcript

  // ---------------------------------------------------------------------
  // Question-and-answer projection of the transcript
  // ---------------------------------------------------------------------

  datatype QAPair = QAPair(id: string, question: string, answer: string, timestamp: string)

  /** The id of the k-th derived pair: `qa-${k}`. */
  function PairId(k: nat): string {
    "qa-" + NatToString(k)
  }

  predicate IsQuestion(item: Item) {
    item.itemType == Message && item.role == User
  }

  predicate IsReply(item: Item) {
    item.itemType == Message && item.role == Assistant
  }

  /** One assistant title added to the answer gathered so far: separated by
      a single space once the answer is non-empty. */
  function AppendReply(acc: string, title: string): string {
    acc + (if acc != "" then " " else "") + title
  }

  /** The answer gathered from `acc` and then the titles, in order. */
  function Accumulate(acc: string, titles: seq<string>): string
    decreases |titles|
  {
    if titles == [] then acc else Accumulate(AppendReply(acc, titles[0]), titles[1..])
  }

  /** The titles of the assistant messages before the first user message. */
  function Replies(items: seq<Item>): seq<string>
    decreases |items|
  {
    if items == [] || IsQuestion(items[0]) then []
    else (if IsReply(items[0]) then [items[0].title] else []) + Replies(items[1..])
  }

  /** What follows the leading run of non-question items: a suffix of
      `items` that is empty or starts with a user message. */
  function AfterReplies(items: seq<Item>): (r: seq<Item>)
    ensures |r| <= |items|
    ensures r == [] || IsQuestion(r[0])
    decreases |items|
  {
    if items == [] || IsQuestion(items[0]) then items else AfterReplies(items[1..])
  }

  /** What follows the replies is the rest of the transcript from the next
      user message on: a suffix of `items`, and everything it skips is not a
      user message. */
  lemma {:induction false} AfterRepliesIsSuffix(items: seq<Item>)
    ensures var r := AfterReplies(items);
            && r == items[|items| - |r|..]
            && forall j :: 0 <= j < |items| - |r| ==> !IsQuestion(items[j])
    decreases |items|
  {
    if items != [] && !IsQuestion(items[0]) {
      AfterRepliesIsSuffix(items[1..]);
      var r := AfterReplies(items[1..]);
      assert items[1..][|items| - 1 - |r|..] == items[|items| - |r|..];
      forall j | 0 < j < |items| - |r|
        ensures !IsQuestion(items[j])
      {
        assert items[j] == items[1..][j - 1];
      }
    }
  }

  /** A user question with the answer gathered from the replies after it. */
  datatype Block = Block(question: string, timestamp: string, answer: string)

  /** The reference reading of the projection: one block per user message,
      its answer gathered from the assistant messages up to the next user
      message; anything before the first user message belongs to no block. */
  function Blocks(items: seq<Item>): seq<Block>
    decreases |items|
  {
    if items == [] then []
    else if IsQuestion(items[0]) then
      [Block(items[0].title, items[0].timestamp, Accumulate("", Replies(items[1..])))]
      + Blocks(AfterReplies(items[1..]))
    else Blocks(items[1..])
  }

  predicate Complete(b: Block) {
    b.question != "" && b.answer != ""
  }

  /** The blocks that become pairs: those with a question and an answer. */
  function Kept(bs: seq<Block>): (r: seq<Block>)
    ensures |r| <= |bs|
    ensures forall i :: 0 <= i < |r| ==> Complete(r[i])
  {
    if bs == [] then []
    else (if Complete(bs[0]) then [bs[0]] else []) + Kept(bs[1..])
  }

  /** A block is kept exactly when it is complete. */
  lemma {:induction false} KeptExactly(bs: seq<Block>)
    ensures forall b :: b in Kept(bs) <==> b in bs && Complete(b)
    decreases |bs|
  {
    if bs != [] {
      KeptExactly(bs[1..]);
      assert bs == [bs[0]] + bs[1..];
    }
  }

  /** Kept on one block; with `KeptAppend` this makes `Kept` the
      order-preserving filter of the complete blocks. */
  lemma {:induction false} KeptOfOne(b: Block)
    ensures Kept([b]) == if Complete(b) then [b] else []
  {
    assert [b][1..] == [];
  }

  /** Pairs numbered from `k` on. */
  function Number(bs: seq<Block>, k: nat): (r: seq<QAPair>)
    ensures |r| == |bs|
    decreases |bs|
  {
    if bs == [] then []
    else [QAPair(PairId(k), bs[0].question, bs[0].answer, bs[0].timestamp)] + Number(bs[1..], k + 1)
  }

  lemma {:induction false} NumberAt(bs: seq<Block>, k: nat)
    ensures forall i :: 0 <= i < |bs| ==>
              Number(bs, k)[i] == QAPair(PairId(k + i), bs[i].question, bs[i].answer, bs[i].timestamp)
    decreases |bs|
  {
    if bs != [] {
      NumberAt(bs[1..], k + 1);
    }
  }

  /** The Q&A pairs the panel derives from a transcript. Every pair has a
      question and an answer, and the k-th pair has id `qa-k`. */
  function QAPairs(items: seq<Item>): (r: seq<QAPair>)
    ensures forall i :: 0 <= i < |r| ==>
              r[i].id == PairId(i) && r[i].question != "" && r[i].answer != ""
  {
    NumberAt(Kept(Blocks(items)), 0);
    Number(Kept(Blocks(items)), 0)
  }

  lemma {:induction false} KeptAppend(a: seq<Block>, b: seq<Block>)
    ensures Kept(a + b) == Kept(a) + Kept(b)
    decreases |a|
  {
    if a == [] {
      assert a + b == b;
    } else {
      assert (a + b)[1..] == a[1..] + b;
      KeptAppend(a[1..], b);
    }
  }

  lemma {:induction false} NumberAppend(a: seq<Block>, b: seq<Block>, k: nat)
    ensures Number(a + b, k) == Number(a, k) + Number(b, k + |a|)
    decreases |a|
  {
    if a == [] {
      assert a + b == b;
    } else {
      assert (a + b)[1..] == a[1..] + b;
      NumberAppend(a[1..], b, k + 1);
    }
  }

  lemma {:induction false} BlocksSkipReplies(items: seq<Item>)
    ensures Blocks(AfterReplies(items)) == Blocks(items)
    decreases |items|
  {
    if items != [] && !IsQuestion(items[0]) {
      BlocksSkipReplies(items[1..]);
    }
  }

  /** Closing the current question: a pair is pushed only when both the
      question and the answer are non-empty. */
  function Emit(pairs: seq<QAPair>, q: string, a: string, ts: string): seq<QAPair> {
    if q != "" && a != "" then pairs + [QAPair(PairId(|pairs|), q, a, ts)] else pairs
  }

  /** The pairs the scan ends with when it has built `pairs`, holds the
      question `q` (asked at `ts`) with answer `a` so far, and `rest` is
      unread. */
  function Resume(pairs: seq<QAPair>, q: string, a: string, ts: string, rest: seq<Item>): seq<QAPair> {
    var closed := Emit(pairs, q, Accumulate(a, Replies(rest)), ts);
    closed + Number(Kept(Blocks(AfterReplies(rest))), |closed|)
  }

  /** Emitting one block and numbering the rest after it. */
  lemma {:induction false} EmitThenNumber(pairs: seq<QAPair>, b: Block, bs: seq<Block>)
    ensures pairs + Number(Kept([b] + bs), |pairs|)
            == var p' := Emit(pairs, b.question, b.answer, b.timestamp);
               p' + Number(Kept(bs), |p'|)
  {
    assert ([b] + bs)[0] == b && ([b] + bs)[1..] == bs;
    if Complete(b) {
      var kb := [b] + Kept(bs);
      assert Kept([b] + bs) == kb;
      assert kb[0] == b && kb[1..] == Kept(bs);
      var pair := QAPair(PairId(|pairs|), b.question, b.answer, b.timestamp);
      assert Number(kb, |pairs|) == [pair] + Number(Kept(bs), |pairs| + 1);
      assert pairs + ([pair] + Number(Kept(bs), |pairs| + 1)) == (pairs + [pair]) + Number(Kept(bs), |pairs| + 1);
    } else {
      assert Kept([b] + bs) == Kept(bs);
    }
  }

  lemma {:induction false} ResumeStart(items: seq<Item>)
    ensures Resume([], "", "", "", items) == QAPairs(items)
  {
    BlocksSkipReplies(items);
  }

  lemma {:induction false} ResumeEnd(pairs: seq<QAPair>, q: string, a: string, ts: string)
    ensures Resume(pairs, q, a, ts, []) == Emit(pairs, q, a, ts)
  {
  }

  /** A user message closes the current question and opens a new one. */
  lemma {:induction false} ResumeQuestion(pairs: seq<QAPair>, q: string, a: string, ts: string, rest: seq<Item>)
    requires rest != [] && IsQuestion(rest[0])
    ensures Resume(pairs, q, a, ts, rest)
            == Resume(Emit(pairs, q, a, ts), rest[0].title, "", rest[0].timestamp, rest[1..])
  {
    assert Replies(rest) == [] && AfterReplies(rest) == rest;
    var p' := Emit(pairs, q, a, ts);
    var b := Block(rest[0].title, rest[0].timestamp, Accumulate("", Replies(rest[1..])));
    assert Blocks(rest) == [b] + Blocks(AfterReplies(rest[1..]));
    EmitThenNumber(p', b, Blocks(AfterReplies(rest[1..])));
  }

  /** Any other item adds at most one title to the current answer. */
  lemma {:induction false} ResumeOther(pairs: seq<QAPair>, q: string, a: string, ts: string, rest: seq<Item>)
    requires rest != [] && !IsQuestion(rest[0])
    ensures Resume(pairs, q, a, ts, rest)
            == Resume(pairs, q, if IsReply(rest[0]) then AppendReply(a, rest[0].title) else a, ts, rest[1..])
  {
    if IsReply(rest[0]) {
      assert Replies(rest) == [rest[0].title] + Replies(rest[1..]);
    } else {
      assert Replies(rest) == Replies(rest[1..]);
    }
    assert AfterReplies(rest) == AfterReplies(rest[1..]);
  }

  /** The projection as the panel runs it: one forward pass over the
      transcript that keeps the current question, its answer and its
      timestamp, and pushes a pair whenever a new user message closes a
      question that has an answer, and once more at the end. It computes
      exactly the reference reading `QAPairs`. */
  method DeriveQAPairs(items: seq<Item>) returns (pairs: seq<QAPair>)
    ensures pairs == QAPairs(items)
  {
    pairs := [];
    var question, answer, timestamp := "", "", "";
    ResumeStart(items);
    var i := 0;
    while i < |items|
      invariant 0 <= i <= |items|
      invariant Resume(pairs, question, answer, timestamp, items[i..]) == QAPairs(items)
    {
      var item := items[i];
      assert items[i..][1..] == items[i + 1..];
      if IsQuestion(item) {
        ResumeQuestion(pairs, question, answer, timestamp, items[i..]);
      } else {
        ResumeOther(pairs, question, answer, timestamp, items[i..]);
      }
      if item.itemType == Message {
        if item.role == User {
          if question != "" && answer != "" {
            pairs := pairs + [QAPair(PairId(|pairs|), question, answer, timestamp)];
          }
          question := item.title;
          timestamp := item.timestamp;
          answer := "";
        } else if item.role == Assistant {
          answer := answer + (if answer != "" then " " else "") + item.title;
        }
      }
      i := i + 1;
    }
    ResumeEnd(pairs, question, answer, timestamp);
    if question != "" && answer != "" {
      pairs := pairs + [QAPair(PairId(|pairs|), question, answer, timestamp)];
    }
  }

  /** No two derived pairs share an id. */
  lemma {:induction false} QAPairIdsDistinct(items: seq<Item>, i: nat, j: nat)
    requires i < j < |QAPairs(items)|
    ensures QAPairs(items)[i].id != QAPairs(items)[j].id
  {
    var r := QAPairs(items);
    if r[i].id == r[j].id {
      assert NatToString(i) == r[i].id[3..] == r[j].id[3..] == NatToString(j);
      NatToStringInjective(i, j);
    }
  }

  function QuestionCount(items: seq<Item>): nat {
    if items == [] then 0 else (if IsQuestion(items[0]) then 1 else 0) + QuestionCount(items[1..])
  }

  lemma {:induction false} QuestionCountAfterReplies(items: seq<Item>)
    ensures QuestionCount(AfterReplies(items)) == QuestionCount(items)
    decreases |items|
  {
    if items != [] && !IsQuestion(items[0]) {
      QuestionCountAfterReplies(items[1..]);
    }
  }

  lemma {:induction false} BlockCount(items: seq<Item>)
    ensures |Blocks(items)| == QuestionCount(items)
    decreases |items|
  {
    if items != [] {
      if IsQuestion(items[0]) {
        BlockCount(AfterReplies(items[1..]));
        QuestionCountAfterReplies(items[1..]);
      } else {
        BlockCount(items[1..]);
      }
    }
  }

  /** There are never more pairs than user messages. */
  lemma {:induction false} QAPairsAtMostQuestions(items: seq<Item>)
    ensures |QAPairs(items)| <= QuestionCount(items)
  {
    BlockCount(items);
  }

  /** The MESSAGE items of a transcript, in order. */
  function Messages(items: seq<Item>): (r: seq<Item>)
    ensures |r| <= |items|
    ensures forall i :: 0 <= i < |r| ==> r[i].itemType == Message
  {
    if items == [] then []
    else (if items[0].itemType == Message then [items[0]] else []) + Messages(items[1..])
  }

  lemma {:induction false} MessagesAppend(a: seq<Item>, b: seq<Item>)
    ensures Messages(a + b) == Messages(a) + Messages(b)
    decreases |a|
  {
    if a == [] {
      assert a + b == b;
    } else {
      assert (a + b)[1..] == a[1..] + b;
      MessagesAppend(a[1..], b);
    }
  }

  lemma {:induction false} RepliesIgnoreNonMessages(items: seq<Item>)
    ensures Replies(Messages(items)) == Replies(items)
    decreases |items|
  {
    if items != [] {
      var m := Messages(items);
      RepliesIgnoreNonMessages(items[1..]);
      if items[0].itemType == Message {
        assert m == [items[0]] + Messages(items[1..]);
        assert m[0] == items[0] && m[1..] == Messages(items[1..]);
      } else {
        assert m == Messages(items[1..]);
        assert Replies(items) == Replies(items[1..]);
      }
    }
  }

  lemma {:induction false} AfterRepliesIgnoreNonMessages(items: seq<Item>)
    ensures AfterReplies(Messages(items)) == Messages(AfterReplies(items))
    decreases |items|
  {
    if items != [] {
      var m := Messages(items);
      if items[0].itemType == Message {
        assert m == [items[0]] + Messages(items[1..]);
        assert m[0] == items[0] && m[1..] == Messages(items[1..]);
      } else {
        assert m == Messages(items[1..]);
      }
      if !IsQuestion(items[0]) {
        AfterRepliesIgnoreNonMessages(items[1..]);
      }
    }
  }

  lemma {:induction false} BlocksIgnoreNonMessages(items: seq<Item>)
    ensures Blocks(Messages(items)) == Blocks(items)
    decreases |items|
  {
    if items != [] {
      var m := Messages(items);
      if items[0].itemType == Message {
        assert m == [items[0]] + Messages(items[1..]);
        assert m[0] == items[0] && m[1..] == Messages(items[1..]);
      } else {
        assert m == Messages(items[1..]);
      }
      if IsQuestion(items[0]) {
        RepliesIgnoreNonMessages(items[1..]);
        AfterRepliesIgnoreNonMessages(items[1..]);
        BlocksIgnoreNonMessages(AfterReplies(items[1..]));
      } else {
        BlocksIgnoreNonMessages(items[1..]);
      }
    }
  }

  /** Only MESSAGE items matter: the pairs of a transcript are those of its
      messages alone, so a breadcrumb inserted anywhere changes nothing. */
  lemma {:induction false} QAPairsIgnoreBreadcrumbs(before: seq<Item>, crumb: Item, after: seq<Item>)
    requires crumb.itemType != Message
    ensures QAPairs(before + after) == QAPairs(Messages(before + after))
    ensures QAPairs(before + [crumb] + after) == QAPairs(before + after)
  {
    BlocksIgnoreNonMessages(before + after);
    BlocksIgnoreNonMessages(before + [crumb] + after);
    MessagesAppend(before + [crumb], after);
    MessagesAppend(before, [crumb]);
    MessagesAppend(before, after);
    assert [crumb][1..] == [];
    assert Messages([crumb]) == [];
    assert Messages(before + [crumb]) == Messages(before);
    assert Messages(before + [crumb] + after) == Messages(before + after);
    assert Blocks(before + [crumb] + after) == Blocks(before + after);
  }

  lemma {:induction false} RepliesBeforeQuestion(xs: seq<Item>, ys: seq<Item>)
    requires ys == [] || IsQuestion(ys[0])
    ensures Replies(xs + ys) == Replies(xs)
    ensures AfterReplies(xs + ys) == AfterReplies(xs) + ys
    decreases |xs|
  {
    if xs == [] {
      assert xs + ys == ys;
    } else if !IsQuestion(xs[0]) {
      assert (xs + ys)[1..] == xs[1..] + ys;
      RepliesBeforeQuestion(xs[1..], ys);
    }
  }

  lemma {:induction false} BlocksAppend(xs: seq<Item>, ys: seq<Item>)
    requires ys == [] || IsQuestion(ys[0])
    ensures Blocks(xs + ys) == Blocks(xs) + Blocks(ys)
    decreases |xs|
  {
    if xs == [] {
      assert xs + ys == ys;
    } else {
      assert (xs + ys)[1..] == xs[1..] + ys;
      if IsQuestion(xs[0]) {
        RepliesBeforeQuestion(xs[1..], ys);
        BlocksAppend(AfterReplies(xs[1..]), ys);
      } else {
        BlocksAppend(xs[1..], ys);
      }
    }
  }

  /** Pairs renumbered from `k` on. */
  function Renumbered(ps: seq<QAPair>, k: nat): (r: seq<QAPair>)
    ensures |r| == |ps|
    ensures forall i :: 0 <= i < |r| ==> r[i] == ps[i].(id := PairId(k + i))
  {
    seq(|ps|, i requires 0 <= i < |ps| => ps[i].(id := PairId(k + i)))
  }

  /** A transcript cut just before a user message derives its pairs part by
      part: the pairs of the first part, then those of the second numbered
      on from there. */
  lemma {:induction false} QAPairsAppend(xs: seq<Item>, ys: seq<Item>)
    requires ys == [] || IsQuestion(ys[0])
    ensures QAPairs(xs + ys) == QAPairs(xs) + Renumbered(QAPairs(ys), |QAPairs(xs)|)
  {
    var a, b := Kept(Blocks(xs)), Kept(Blocks(ys));
    calc {
      QAPairs(xs + ys);
      Number(Kept(Blocks(xs + ys)), 0);
      { BlocksAppend(xs, ys); KeptAppend(Blocks(xs), Blocks(ys)); }
      Number(a + b, 0);
      { NumberAppend(a, b, 0); }
      Number(a, 0) + Number(b, |a|);
      { NumberFrom(b, |a|); }
      QAPairs(xs) + Renumbered(QAPairs(ys), |QAPairs(xs)|);
    }
  }

  /** Numbering from `k` is numbering from 0 and then renumbering. */
  lemma {:induction false} NumberFrom(bs: seq<Block>, k: nat)
    ensures Number(bs, k) == Renumbered(Number(bs, 0), k)
  {
    NumberAt(bs, 0);
    NumberAt(bs, k);
  }

  /** A question that has no reply yet yields no pair: appending a user
      message leaves the derived pairs as they were. */
  lemma {:induction false} TrailingQuestionYieldsNoPair(items: seq<Item>, question: Item)
    requires IsQuestion(question)
    ensures QAPairs(items + [question]) == QAPairs(items)
  {
    BlocksAppend(items, [question]);
    KeptAppend(Blocks(items), Blocks([question]));
    assert [question][1..] == [];
    var b := Block(question.title, question.timestamp, "");
    assert Blocks([question]) == [b];
    assert Kept([b]) == [];
    assert Kept(Blocks(items) + [b]) == Kept(Blocks(items));
  }

  /** The titles of the assistant messages, in order. */
  function ReplyTitles(items: seq<Item>): seq<string> {
    if items == [] then []
    else (if IsReply(items[0]) then [items[0].title] else []) + ReplyTitles(items[1..])
  }

  predicate NonEmptyTitles(titles: seq<string>) {
    forall i :: 0 <= i < |titles| ==> titles[i] != ""
  }

  lemma {:induction false} AccumulateJoins(acc: string, titles: seq<string>)
    requires NonEmptyTitles(titles)
    ensures acc != "" ==> Accumulate(acc, titles) == if titles == [] then acc else acc + " " + JoinSpaces(titles)
    ensures acc == "" ==> Accumulate(acc, titles) == JoinSpaces(titles)
    decreases |titles|
  {
    if titles != [] {
      AccumulateJoins(AppendReply(acc, titles[0]), titles[1..]);
    }
  }

  lemma {:induction false} RepliesWithoutQuestion(items: seq<Item>)
    requires forall i :: 0 <= i < |items| ==> !IsQuestion(items[i])
    ensures Replies(items) == ReplyTitles(items) && AfterReplies(items) == []
    decreases |items|
  {
    if items != [] {
      RepliesWithoutQuestion(items[1..]);
    }
  }

  /** One exchange: a user question followed by assistant messages whose
      titles are all non-empty yields exactly one pair, whose answer is
      those titles in order, joined by single spaces. */
  lemma {:induction false} SingleExchange(question: Item, replies: seq<Item>)
    requires IsQuestion(question) && question.title != ""
    requires forall i :: 0 <= i < |replies| ==> !IsQuestion(replies[i])
    requires ReplyTitles(replies) != [] && NonEmptyTitles(ReplyTitles(replies))
    ensures QAPairs([question] + replies)
            == [QAPair(PairId(0), question.title, JoinSpaces(ReplyTitles(replies)), question.timestamp)]
  {
    var items := [question] + replies;
    assert items[1..] == replies;
    RepliesWithoutQuestion(replies);
    AccumulateJoins("", ReplyTitles(replies));
    assert JoinSpaces(ReplyTitles(replies)) != "";
    var b := Block(question.title, question.timestamp, JoinSpaces(ReplyTitles(replies)));
    assert Blocks(items) == [b];
    assert Kept([b]) == [b];
  }

  /** `s` backwards. */
  function Reverse<T>(s: seq<T>): (r: seq<T>)
    ensures |r| == |s|
    ensures forall i :: 0 <= i < |s| ==> r[i] == s[|s| - 1 - i]
  {
    if s == [] then [] else Reverse(s[1..]) + [s[0]]
  }

  /** The pair shown as the latest: the last one, if any. */
  function LatestQA(pairs: seq<QAPair>): (r: Option<QAPair>)
    ensures r.Some? <==> pairs != []
    ensures r.Some? ==> r.value == pairs[|pairs| - 1]
  {
    if pairs == [] then None else Some(pairs[|pairs| - 1])
  }

  /** The history list: every pair but the latest, newest first. */
  function HistoryQAs(pairs: seq<QAPair>): (r: seq<QAPair>)
    ensures |r| == if pairs == [] then 0 else |pairs| - 1
    ensures forall i :: 0 <= i < |r| ==> r[i] == pairs[|pairs| - 2 - i]
  {
    if pairs == [] then [] else Reverse(pairs[..|pairs| - 1])
  }

  // ---------------------------------------------------------------------
  // Splitting an answer into its first fenced code block and the rest
  // ---------------------------------------------------------------------

  /** Three backticks start at index `i`. */
  predicate FenceAt(s: string, i: nat) {
    i + 3 <= |s| && s[i] == '`' && s[i + 1] == '`' && s[i + 2] == '`'
  }

  /** The first fence at or after `from`. */
  function FindFence(s: string, from: nat): (r: Option<nat>)
    ensures r.Some? ==> from <= r.value && FenceAt(s, r.value)
    ensures r.Some? ==> forall j: nat :: from <= j < r.value ==> !FenceAt(s, j)
    ensures r.None? ==> forall j: nat :: from <= j ==> !FenceAt(s, j)
    decreases |s| - from
  {
    if from + 3 > |s| then None
    else if FenceAt(s, from) then Some(from)
    else FindFence(s, from + 1)
  }

  predicate IsAsciiLetter(c: char) {
    'a' <= c <= 'z' || 'A' <= c <= 'Z'
  }

  /** The end of the run of ASCII letters starting at `from`. */
  function LetterRunEnd(s: string, from: nat): (e: nat)
    requires from <= |s|
    ensures from <= e <= |s|
    ensures forall j :: from <= j < e ==> IsAsciiLetter(s[j])
    ensures e == |s| || !IsAsciiLetter(s[e])
    decreases |s| - from
  {
    if from < |s| && IsAsciiLetter(s[from]) then LetterRunEnd(s, from + 1) else from
  }

  /** Where the captured content of a block opened by the fence at `p`
      starts: after the greedy `[a-zA-Z]*` tag and an optional newline. */
  function ContentStart(s: string, p: nat): (c: nat)
    requires p + 3 <= |s|
    ensures p + 3 <= c <= |s|
  {
    var e := LetterRunEnd(s, p + 3);
    if e < |s| && s[e] == '\n' then e + 1 else e
  }

  /** Some fence is followed, three or more characters later, by another. */
  ghost predicate HasFencePair(s: string) {
    exists p: nat, q: nat :: FenceAt(s, p) && FenceAt(s, q) && p + 3 <= q
  }

  /** Where the pattern /```[a-zA-Z]*\n?([\s\S]*?)```/ first matches: the
      match runs from `start` to `contentEnd + 3`, and the captured group is
      `s[contentStart..contentEnd]`. */
  datatype FenceMatch = FenceMatch(start: nat, contentStart: nat, contentEnd: nat)

  /** The leftmost match of the pattern: the first fence, a greedy language
      tag, an optional newline, and the shortest content up to the next
      fence. There is a match exactly when the text holds two fences three
      or more characters apart. */
  function FirstCodeBlock(s: string): (m: Option<FenceMatch>)
    ensures m.Some? <==> HasFencePair(s)
    ensures m.Some? ==>
              && m.value.start + 3 <= m.value.contentStart <= m.value.contentEnd
              && m.value.contentEnd + 3 <= |s|
              && FenceAt(s, m.value.start) && FenceAt(s, m.value.contentEnd)
              && (forall j: nat :: j < m.value.start ==> !FenceAt(s, j))
              && m.value.contentStart == ContentStart(s, m.value.start)
              && (forall j: nat :: m.value.contentStart <= j < m.value.contentEnd ==> !FenceAt(s, j))
  {
    match FindFence(s, 0)
    case None => None
    case Some(p) =>
      var e := LetterRunEnd(s, p + 3);
      var cs := ContentStart(s, p);
      match FindFence(s, cs)
      case None =>
        assert forall j :: p + 3 <= j < cs ==> s[j] != '`' by {
          forall j | p + 3 <= j < cs
            ensures s[j] != '`'
          {
            if j < e { assert IsAsciiLetter(s[j]); }
          }
        }
        forall p0: nat, q0: nat | FenceAt(s, p0) && FenceAt(s, q0)
          ensures q0 < p0 + 3
        {
          assert p <= p0 && q0 < cs;
        }
        None
      case Some(q) => Some(FenceMatch(p, cs, q))
  }

  datatype Split = Split(code: string, explanation: string)

  /** The text of `s` before the match followed by the text after it. */
  function Outside(s: string, m: FenceMatch): (r: string)
    requires m.start <= m.contentEnd && m.contentEnd + 3 <= |s|
    ensures |r| == |s| - (m.contentEnd + 3 - m.start)
  {
    s[..m.start] + s[m.contentEnd + 3..]
  }

  /** `splitAnswer`: without a fenced block the code is "" and the
      explanation is the answer untouched; with one, the code is the block's
      content, trimmed, and the explanation is the answer with that first
      block cut out, trimmed. */
  function SplitAnswer(answer: string): (r: Split)
    ensures r == Split("", answer) <==> !HasFencePair(answer)
    ensures HasFencePair(answer) ==>
              IsTrimmed(r.code) && IsTrimmed(r.explanation)
              && |r.code| + |r.explanation| + 6 <= |answer|
    ensures FirstCodeBlock(answer).Some? ==>
              var m := FirstCodeBlock(answer).value;
              r == Split(Trim(answer[m.contentStart..m.contentEnd]), Trim(Outside(answer, m)))
  {
    match FirstCodeBlock(answer)
    case None => Split("", answer)
    case Some(m) =>
      Split(Trim(answer[m.contentStart..m.contentEnd]), Trim(Outside(answer, m)))
  }

  predicate NoBacktick(s: string) {
    forall i :: 0 <= i < |s| ==> s[i] != '`'
  }

  lemma {:induction false} FindFenceAt(s: string, from: nat, p: nat)
    requires from <= p && FenceAt(s, p)
    requires forall j :: from <= j < p ==> !FenceAt(s, j)
    ensures FindFence(s, from) == Some(p)
    decreases p - from
  {
    if from < p {
      FindFenceAt(s, from + 1, p);
    }
  }

  lemma {:induction false} LetterRunEndAt(s: string, from: nat, e: nat)
    requires from <= e < |s| && !IsAsciiLetter(s[e])
    requires forall j :: from <= j < e ==> IsAsciiLetter(s[j])
    ensures LetterRunEnd(s, from) == e
    decreases e - from
  {
    if from < e {
      LetterRunEndAt(s, from + 1, e);
    }
  }

  /** `splitAnswer` on an answer whose first fence is at `p` and whose
      next fence at or after the start `cs` of the content is at `q`. */
  lemma {:induction false} SplitAnswerAt(s: string, p: nat, cs: nat, q: nat)
    requires FenceAt(s, p) && forall j :: 0 <= j < p ==> !FenceAt(s, j)
    requires cs == ContentStart(s, p) && cs <= q && FenceAt(s, q)
    requires forall j :: cs <= j < q ==> !FenceAt(s, j)
    ensures SplitAnswer(s) == Split(Trim(s[cs..q]), Trim(Outside(s, FenceMatch(p, cs, q))))
  {
    FindFenceAt(s, 0, p);
    FindFenceAt(s, cs, q);
  }

  /** A stretch with no backtick holds no fence. */
  lemma NoFenceWithin(s: string, from: nat, to: nat, part: string)
    requires from <= to <= |s| && s[from..to] == part && NoBacktick(part)
    ensures forall j :: from <= j < to ==> !FenceAt(s, j)
  {
    forall j | from <= j < to ensures !FenceAt(s, j) {
      assert s[j] == part[j - from];
    }
  }

  /** The reference reading of `splitAnswer`: for an answer laid out as
      text, a fence with a language tag and a newline, code, a closing
      fence and more text (no backtick before the block or inside it), the
      code is the trimmed code and the explanation the trimmed text around
      the block. */
  lemma {:induction false} SplitAnswerOfBlock(before: string, lang: string, code: string, after: string)
    requires NoBacktick(before) && NoBacktick(code)
    requires forall i :: 0 <= i < |lang| ==> IsAsciiLetter(lang[i])
    ensures SplitAnswer(before + "```" + lang + "\n" + code + "```" + after)
            == Split(Trim(code), Trim(before + after))
  {
    var s := before + "```" + lang + "\n" + code + "```" + after;
    var p := |before|;
    var cs := p + 3 + |lang| + 1;
    BlockLayout(before, lang, code, after);
    LayoutFences(s, before, lang, code, after);
    SplitAnswerOfLayout(s, p, cs, cs + |code|, code, before + after);
  }

  /** `SplitAnswerAt` with the captured text and the text around the block
      named. */
  lemma {:induction false} SplitAnswerOfLayout(s: string, p: nat, cs: nat, q: nat, code: string, rest: string)
    requires FenceAt(s, p) && forall j :: 0 <= j < p ==> !FenceAt(s, j)
    requires cs == ContentStart(s, p) && cs <= q && FenceAt(s, q)
    requires forall j :: cs <= j < q ==> !FenceAt(s, j)
    requires s[cs..q] == code && Outside(s, FenceMatch(p, cs, q)) == rest
    ensures SplitAnswer(s) == Split(Trim(code), Trim(rest))
  {
    SplitAnswerAt(s, p, cs, q);
  }

  /** The fences of that layout are where `SplitAnswerAt` needs them. */
  lemma {:induction false} LayoutFences(s: string, before: string, lang: string, code: string, after: string)
    requires NoBacktick(before) && NoBacktick(code)
    requires forall i :: 0 <= i < |lang| ==> IsAsciiLetter(lang[i])
    requires var p := |before|;
             var cs := p + 3 + |lang| + 1;
             var q := cs + |code|;
             && |s| == q + 3 + |after|
             && s[..p] == before && FenceAt(s, p) && s[p + 3..cs - 1] == lang && s[cs - 1] == '\n'
             && s[cs..q] == code && FenceAt(s, q)
    ensures var p := |before|;
            var cs := p + 3 + |lang| + 1;
            var q := cs + |code|;
            && (forall j :: 0 <= j < p ==> !FenceAt(s, j))
            && cs == ContentStart(s, p)
            && (forall j :: cs <= j < q ==> !FenceAt(s, j))
  {
    var p := |before|;
    var cs := p + 3 + |lang| + 1;
    var q := cs + |code|;
    NoFenceWithin(s, 0, p, before);
    NoFenceWithin(s, cs, q, code);
    TaggedContentStart(s, p, lang);
  }

  /** After a fence at `p`, a letter tag and a newline, the content starts
      just past the newline. */
  lemma {:induction false} TaggedContentStart(s: string, p: nat, lang: string)
    requires p + 3 + |lang| < |s| && s[p + 3..p + 3 + |lang|] == lang && s[p + 3 + |lang|] == '\n'
    requires forall i :: 0 <= i < |lang| ==> IsAsciiLetter(lang[i])
    ensures ContentStart(s, p) == p + 3 + |lang| + 1
  {
    var e := p + 3 + |lang|;
    forall j | p + 3 <= j < e ensures IsAsciiLetter(s[j]) {
      assert s[j] == lang[j - (p + 3)];
    }
    LetterRunEndAt(s, p + 3, e);
  }

  /** Where the parts of a fenced block with a tag and a newline lie. */
  lemma {:induction false} BlockLayout(before: string, lang: string, code: string, after: string)
    ensures var s := before + "```" + lang + "\n" + code + "```" + after;
            var p := |before|;
            var cs := p + 3 + |lang| + 1;
            var q := cs + |code|;
            && |s| == q + 3 + |after|
            && s[..p] == before && FenceAt(s, p) && s[p + 3..cs - 1] == lang && s[cs - 1] == '\n'
            && s[cs..q] == code && FenceAt(s, q)
            && Outside(s, FenceMatch(p, cs, q)) == before + after
  {
    var head := before + "```" + lang + "\n";
    var s := head + code + "```" + after;
    var p := |before|;
    var cs := |head|;
    var q := cs + |code|;
    assert s[..cs] == head && s[cs..q] == code && s[q..q + 3] == "```" && s[q + 3..] == after;
    assert head[..p] == before && head[p..p + 3] == "```" && head[p + 3..cs - 1] == lang;
    assert s[p..p + 3] == head[p..p + 3];
    assert s[..p] == before;
    assert s[p + 3..cs - 1] == lang;
  }

  // ---------------------------------------------------------------------
  // The Save button of the instructions editor
  // ---------------------------------------------------------------------

  /** Save is enabled when the draft and the current instructions differ
      once trimmed. */
  function SaveEnabled(draft: string, current: string): bool {
    Trim(draft) != Trim(current)
  }

  /** White space around the draft or the current instructions never
      changes whether Save is enabled, and a blank draft cannot replace
      empty instructions. */
  lemma {:induction false} SaveIgnoresSurroundingWhitespace(pre: string, draft: string, post: string, current: string)
    requires AllWhitespace(pre) && AllWhitespace(post)
    ensures SaveEnabled(pre + draft + post, current) == SaveEnabled(draft, current)
    ensures SaveEnabled(current, pre + draft + post) == SaveEnabled(current, draft)
    ensures AllWhitespace(draft) ==> !SaveEnabled(draft, "")
  {
    TrimAbsorbsPadding(pre, draft, post);
    TrimEmptyIffWhitespace(draft);
    TrimEmptyIffWhitespace("");
  }

  // ---------------------------------------------------------------------
  // The screenshot ("vision") request
  // ---------------------------------------------------------------------

  /** The outcome of grabbing the screen: the encoded image, or the message
      of what was thrown (permission denied, no source). */
  datatype Capture = Captured(image: string) | CaptureFailed(message: string)

  /** The outcome of posting the image: a response with its `ok` flag and
      the `answer` of its body, or the message of what `fetch` or the body
      parser threw. */
  datatype VisionReply = VisionResponse(ok: bool, answer: Option<string>) | VisionThrew(message: string)

  const ScreenPlaceholder: string := "Analyzing your screen"
  const ImagePlaceholder: string := "Analyzing image\U{2026}"
  const NoVisionAnswer: string := "No answer from Vision API."
  const VisionFailedPrefix: string := "Vision API failed: "
  const AlertPrefix: string := "Screenshot or Vision API failed: "

  /** `sendToVisionAPI`: a response that is not OK throws "Vision API
      error"; a missing or empty answer becomes the fixed fallback text. */
  function SendToVisionAPI(reply: VisionReply): (r: Result<string, string>)
    ensures r.Ok? <==> reply.VisionResponse? && reply.ok
    ensures r.Ok? ==> r.value != ""
    ensures r.Ok? && reply.answer.Some? && reply.answer.value != "" ==> r.value == reply.answer.value
    ensures r.Ok? && (reply.answer.None? || reply.answer.value == "") ==> r.value == NoVisionAnswer
  {
    match reply
    case VisionThrew(msg) => Err(msg)
    case VisionResponse(ok, answer) =>
      if !ok then Err("Vision API error")
      else if answer.Some? && answer.value != "" then Ok(answer.value)
      else Ok(NoVisionAnswer)
  }

  /** The whole request: capture first, then upload; the first failure
      wins. */
  function ScreenshotResult(capture: Capture, reply: VisionReply): (r: Result<string, string>)
    ensures r.Err? <==> capture.CaptureFailed? || !(reply.VisionResponse? && reply.ok)
    ensures capture.CaptureFailed? ==> r == Err(capture.message)
    ensures capture.Captured? ==> r == SendToVisionAPI(reply)
  {
    match capture
    case CaptureFailed(msg) => Err(msg)
    case Captured(_) => SendToVisionAPI(reply)
  }

  /** The text the assistant entry ends with: the answer, or the failure
      prefixed by "Vision API failed: ". */
  function AnswerEntryText(result: Result<string, string>): (text: string)
    ensures result.Ok? ==> text == result.value
    ensures result.Err? ==> text == VisionFailedPrefix + result.error
  {
    match result
    case Ok(answer) => answer
    case Err(msg) => VisionFailedPrefix + msg
  }

  /** Every outcome of a screenshot request replaces the "Analyzing image"
      placeholder: with an answer that is never empty, or with a text that
      starts with "Vision API failed: ". */
  lemma {:induction false} ScreenshotAlwaysSettles(capture: Capture, reply: VisionReply)
    ensures var text := AnswerEntryText(ScreenshotResult(capture, reply));
            && text != ""
            && (ScreenshotResult(capture, reply).Err? ==> VisionFailedPrefix <= text)
            && (capture.Captured? && reply == VisionResponse(true, None) ==> text == NoVisionAnswer)
            && ((capture.Captured? && reply.VisionResponse? && !reply.ok)
                  ==> text == VisionFailedPrefix + "Vision API error")
  {
    var r := ScreenshotResult(capture, reply);
    if r.Err? {
      assert (VisionFailedPrefix + r.error)[..|VisionFailedPrefix|] == VisionFailedPrefix;
    }
  }

  /** After appending two entries under fresh, distinct ids, only the
      last entry carries the second id. */
  lemma {:induction false} OnlyLastHasId(items: seq<Item>, x: Item, y: Item)
    requires x.id != y.id && y.id !in Ids(items)
    ensures var all := items + [x, y];
            forall k :: 0 <= k < |all| - 1 ==> all[k].id != y.id
  {
    var all := items + [x, y];
    forall k | 0 <= k < |all| - 1
      ensures all[k].id != y.id
    {
      if k < |items| {
        assert all[k] == items[k];
      }
    }
  }

  /** Overwriting the text of the item with id `id`, when only the last item
      has that id, changes the last item's title and nothing else. */
  lemma {:induction false} UpdateOfLast(before: seq<Item>, after: seq<Item>, id: string, text: string)
    requires before != [] && before[|before| - 1].id == id
    requires forall k :: 0 <= k < |before| - 1 ==> before[k].id != id
    requires |after| == |before|
    requires forall k :: 0 <= k < |after| ==>
               after[k] == if before[k].id == id
                           then before[k].(title := UpdatedTitle(before[k].title, text, false))
                           else before[k]
    ensures after == before[..|before| - 1] + [before[|before| - 1].(title := text)]
  {
    assert forall k :: 0 <= k < |before| - 1 ==> after[k] == before[k];
  }

  /** The two placeholder entries of a screenshot request: the user's
      "Analyzing your screen" and the assistant's "Analyzing image…". */
  method AddPlaceholders(log: Log, questionId: string, answerId: string, now: string)
    requires log.Valid() && questionId != answerId
    requires questionId !in Ids(log.items) && answerId !in Ids(log.items)
    modifies log
    ensures log.Valid()
    ensures log.items == old(log.items) + [Item(questionId, Message, User, ScreenPlaceholder, now),
                                           Item(answerId, Message, Assistant, ImagePlaceholder, now)]
    ensures forall k :: 0 <= k < |log.items| - 1 ==> log.items[k].id != answerId
  {
    log.AddMessage(questionId, User, ScreenPlaceholder, now);
    log.AddMessage(answerId, Assistant, ImagePlaceholder, now);
    OnlyLastHasId(old(log.items), Item(questionId, Message, User, ScreenPlaceholder, now),
                  Item(answerId, Message, Assistant, ImagePlaceholder, now));
  }

  /** Overwriting the text of the assistant placeholder, the last entry. */
  method ReplaceLast(log: Log, answerId: string, text: string)
    requires log.Valid() && log.items != [] && log.items[|log.items| - 1].id == answerId
    requires forall k :: 0 <= k < |log.items| - 1 ==> log.items[k].id != answerId
    modifies log
    ensures log.Valid()
    ensures log.items == old(log.items)[..|old(log.items)| - 1]
                         + [old(log.items)[|old(log.items)| - 1].(title := text)]
  {
    log.UpdateMessage(answerId, text, false);
    UpdateOfLast(old(log.items), log.items, answerId, text);
  }

  /** The transcript panel's own state. */
  class Panel {
    var qaPairs: seq<QAPair>
    var isVisionLoading: bool

    constructor ()
      ensures qaPairs == [] && !isVisionLoading
    {
      qaPairs := [];
      isVisionLoading := false;
    }

    /** The effect that re-derives the pairs whenever the transcript
        changes. */
    method SyncQAPairs(log: Log)
      modifies this
      ensures qaPairs == QAPairs(log.items)
      ensures isVisionLoading == old(isVisionLoading)
    {
      qaPairs := DeriveQAPairs(log.items);
    }

    /** `handleScreenshot`: raise the loading flag, write the two
        placeholders, capture and upload, then overwrite the assistant
        placeholder with the answer or the failure (a failure also raises an
        alert), and lower the loading flag whatever happened. The two fresh
        ids stand for the two `uuidv4()` calls and `now` for the time the
        transcript stamps on the new entries. */
    method HandleScreenshot(log: Log, questionId: string, answerId: string, now: string,
                            capture: Capture, reply: VisionReply)
      returns (alert: Option<string>, ghost placeholders: seq<Item>)
      requires log.Valid()
      requires questionId != answerId
      requires questionId !in Ids(log.items) && answerId !in Ids(log.items)
      modifies this`isVisionLoading, log
      ensures log.Valid()
      ensures placeholders == old(log.items) + [Item(questionId, Message, User, ScreenPlaceholder, now),
                                                Item(answerId, Message, Assistant, ImagePlaceholder, now)]
      ensures log.items == old(log.items) + [Item(questionId, Message, User, ScreenPlaceholder, now),
                Item(answerId, Message, Assistant, AnswerEntryText(ScreenshotResult(capture, reply)), now)]
      ensures alert == if ScreenshotResult(capture, reply).Ok? then None
                       else Some(AlertPrefix + ScreenshotResult(capture, reply).error)
      ensures !isVisionLoading
    {
      isVisionLoading := true;
      AddPlaceholders(log, questionId, answerId, now);
      placeholders := log.items;
      // The answer on success (`try`), the failure text otherwise (`catch`).
      var text: string;
      match ScreenshotResult(capture, reply) {
        case Ok(answer) =>
          text := answer;
          alert := None;
        case Err(msg) =>
          text := VisionFailedPrefix + msg;
          alert := Some(AlertPrefix + msg);
      }
      ReplaceLast(log, answerId, text);
      assert placeholders[..|placeholders| - 1] == old(log.items) + [placeholders[|old(log.items)|]];
      isVisionLoading := false;
    }
  }
}
