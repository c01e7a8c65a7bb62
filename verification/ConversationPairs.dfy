/** Whose answer an edit or a delete takes away. */
module ConversationPairs {
  import opened Results
  import opened Conversations

  /** The save goes through. */
  ghost predicate Saves(chat: Chat, c: Call) {
    c.Save? && c.first !in chat.messages && c.first in Next(chat, c).messages
  }

  /** For each answer ever saved, the question it was saved with. */
  ghost function Pairs(calls: seq<Call>): map<nat, nat> {
    if calls == [] then map[]
    else
      var k := |calls| - 1;
      var c := calls[k];
      if Saves(Run(NO_CHAT, calls[..k]), c) then Pairs(calls[..k])[c.second := c.first] else Pairs(calls[..k])
  }

  /** All messages of the thread have smaller ids. */
  ghost predicate Above(messages: Messages, thread: string, id: nat) {
    forall other :: other in messages && messages[other].thread == thread ==> other < id
  }

  /** The saves of one thread do not overlap: each takes its ids after the one before it is done. */
  ghost predicate InTurn(calls: seq<Call>) {
    calls != [] ==>
      var k := |calls| - 1;
      InTurn(calls[..k]) &&
      (Saves(Run(NO_CHAT, calls[..k]), calls[k]) ==>
         Above(Run(NO_CHAT, calls[..k]).messages, Named(calls[k]), calls[k].first))
  }

  /** An answer stands right behind the question it was saved with. */
  ghost predicate Follows(messages: Messages, pairs: map<nat, nat>, answer: nat)
    requires answer in messages
  {
    && answer in pairs && pairs[answer] in messages && pairs[answer] < answer
    && messages[pairs[answer]].role == User
    && messages[pairs[answer]].thread == messages[answer].thread
    && forall m :: m in messages && messages[m].thread == messages[answer].thread ==> !(pairs[answer] < m < answer)
  }

  ghost predicate AnswersFollow(messages: Messages, pairs: map<nat, nat>) {
    forall a :: a in messages && messages[a].role == Assistant ==> Follows(messages, pairs, a)
  }

  // ---------------------------------------------------------------- what a call takes

  function Later(messages: Messages, thread: string, after: nat): set<nat> {
    set id | id in messages && messages[id].thread == thread && id > after
  }

  /** The answer a call removes, if any. */
  ghost function Taken(chat: Chat, c: Call): Option<nat> {
    if (c.Edit? || c.Delete?) && OwnedQuestion(chat, c.name, c.visitor, c.id)
       && AnswersAfter(chat.messages, c.name, c.id) != {} then Some(Least(AnswersAfter(chat.messages, c.name, c.id)))
    else None
  }

  lemma EditedAnswers(chat: Chat, c: Call)
    requires c.Edit? && OwnedQuestion(chat, c.name, c.visitor, c.id)
    ensures AnswersAfter(chat.messages[c.id := chat.messages[c.id].(content := c.content)], c.name, c.id)
         == AnswersAfter(chat.messages, c.name, c.id)
  {
  }

  /** That answer, and a deleted question, are all that disappears. */
  lemma TakenIsWhatGoes(chat: Chat, c: Call, id: nat)
    requires id in chat.messages
    ensures id !in Next(chat, c).messages <==>
            Taken(chat, c) == Some(id) || (c.Delete? && id == c.id && OwnedQuestion(chat, c.name, c.visitor, c.id))
  {
    if c.Edit? && OwnedQuestion(chat, c.name, c.visitor, c.id) {
      EditedAnswers(chat, c);
    }
  }

  /** An edit or a delete leaves the rest of every message but its text. */
  lemma TakingKeepsTheRest(chat: Chat, c: Call, id: nat)
    requires (c.Edit? || c.Delete?) && id in Next(chat, c).messages
    ensures id in chat.messages
    ensures Next(chat, c).messages[id].role == chat.messages[id].role
    ensures Next(chat, c).messages[id].thread == chat.messages[id].thread
  {
    if c.Edit? && OwnedQuestion(chat, c.name, c.visitor, c.id) {
      EditedAnswers(chat, c);
    }
  }

  // ---------------------------------------------------------------- saves in turn

  lemma SaveKeepsFollowing(chat: Chat, pairs: map<nat, nat>, c: Call)
    requires AnswersFollow(chat.messages, pairs) && Saves(chat, c)
    requires Above(chat.messages, Named(c), c.first)
    ensures AnswersFollow(Next(chat, c).messages, pairs[c.second := c.first])
  {
    var after := Next(chat, c).messages;
    var question, answer := Message(Named(c), User, c.question), Message(Named(c), Assistant, c.answer);
    assert after == chat.messages[c.first := question][c.second := answer];
    assert c.second !in chat.messages && c.first < c.second;
    forall a | a in after && after[a].role == Assistant ensures Follows(after, pairs[c.second := c.first], a) {
      if a != c.second {
        assert Follows(chat.messages, pairs, a);
      }
    }
  }

  lemma TakingKeepsFollowing(chat: Chat, pairs: map<nat, nat>, c: Call)
    requires AnswersFollow(chat.messages, pairs) && (c.Edit? || c.Delete?)
    ensures AnswersFollow(Next(chat, c).messages, pairs)
  {
    var before, after := chat.messages, Next(chat, c).messages;
    forall a | a in after && after[a].role == Assistant ensures Follows(after, pairs, a) {
      TakingKeepsTheRest(chat, c, a);
      assert Follows(before, pairs, a);
      var q := pairs[a];
      TakenIsWhatGoes(chat, c, a);
      TakenIsWhatGoes(chat, c, q);
      if q !in after {
        OwnAnswerIsTaken(chat, pairs, c, a);
      }
      TakingKeepsTheRest(chat, c, q);
      forall m | m in after && after[m].thread == after[a].thread ensures !(q < m < a) {
        TakingKeepsTheRest(chat, c, m);
      }
    }
  }

  /** A deleted question takes its own answer along if that stands right behind it. */
  lemma OwnAnswerIsTaken(chat: Chat, pairs: map<nat, nat>, c: Call, answer: nat)
    requires c.Edit? || c.Delete?
    requires OwnedQuestion(chat, c.name, c.visitor, c.id)
    requires answer in chat.messages && chat.messages[answer].role == Assistant
    requires Follows(chat.messages, pairs, answer) && pairs[answer] == c.id
    ensures Taken(chat, c) == Some(answer)
  {
    assert answer in AnswersAfter(chat.messages, c.name, c.id);
  }

  lemma {:induction false} RunKeepsFollowing(calls: seq<Call>)
    requires InTurn(calls)
    ensures AnswersFollow(Run(NO_CHAT, calls).messages, Pairs(calls))
    decreases |calls|
  {
    if calls != [] {
      var k := |calls| - 1;
      var before, c := Run(NO_CHAT, calls[..k]), calls[k];
      RunKeepsFollowing(calls[..k]);
      if Saves(before, c) {
        SaveKeepsFollowing(before, Pairs(calls[..k]), c);
      } else if c.Edit? || c.Delete? {
        TakingKeepsFollowing(before, Pairs(calls[..k]), c);
      } else {
        assert Next(before, c).messages == before.messages;
      }
    }
  }

  predicate IsPair(pairs: map<nat, nat>, answer: nat, question: nat) {
    answer in pairs && pairs[answer] == question
  }

  /** The next message, if it is an answer, is the question's own. */
  lemma NextIsOwn(messages: Messages, pairs: map<nat, nat>, thread: string, q: nat)
    requires AnswersFollow(messages, pairs) && q in messages && messages[q].thread == thread
    requires Later(messages, thread, q) != {}
    requires messages[Least(Later(messages, thread, q))].role == Assistant
    ensures IsPair(pairs, Least(Later(messages, thread, q)), q)
  {
    var next := Least(Later(messages, thread, q));
    assert Follows(messages, pairs, next);
    var own := pairs[next];
    assert own > q ==> own in Later(messages, thread, q);
  }

  lemma NextAnswerIsNextMessage(messages: Messages, thread: string, q: nat)
    requires Later(messages, thread, q) != {} && messages[Least(Later(messages, thread, q))].role == Assistant
    ensures AnswersAfter(messages, thread, q) != {}
    ensures Least(AnswersAfter(messages, thread, q)) == Least(Later(messages, thread, q))
  {
    assert Least(Later(messages, thread, q)) in AnswersAfter(messages, thread, q);
    assert Least(AnswersAfter(messages, thread, q)) in Later(messages, thread, q);
  }

  /** The next answer is the question's own exactly when it is the next message. */
  lemma NextAnswerIsOwnIff(messages: Messages, pairs: map<nat, nat>, thread: string, q: nat)
    requires AnswersFollow(messages, pairs) && q in messages && messages[q].thread == thread
    requires AnswersAfter(messages, thread, q) != {}
    ensures var answer := Least(AnswersAfter(messages, thread, q));
            && Later(messages, thread, q) != {} && answer in pairs && pairs[answer] in messages
            && pairs[answer] >= q
            && (pairs[answer] == q <==> messages[Least(Later(messages, thread, q))].role == Assistant)
  {
    var answer := Least(AnswersAfter(messages, thread, q));
    assert Follows(messages, pairs, answer);
    assert answer in Later(messages, thread, q);
    var next := Least(Later(messages, thread, q));
    if messages[next].role == Assistant {
      NextIsOwn(messages, pairs, thread, q);
      NextAnswerIsNextMessage(messages, thread, q);
    } else {
      assert q < next < answer;
    }
  }

  /**
   When the saves of a thread do not overlap, an edit or a delete takes the question's own
   answer if and only if the next message of the thread is an answer. Otherwise it takes
   the answer of a later question, which stays without one.
   */
  lemma TakesItsOwnAnswerIff(calls: seq<Call>, c: Call)
    requires InTurn(calls) && Taken(Run(NO_CHAT, calls), c).Some?
    ensures var messages, answer := Run(NO_CHAT, calls).messages, Taken(Run(NO_CHAT, calls), c).value;
            && answer in Pairs(calls) && Later(messages, c.name, c.id) != {}
            && (Pairs(calls)[answer] == c.id <==> messages[Least(Later(messages, c.name, c.id))].role == Assistant)
            && (Pairs(calls)[answer] != c.id ==>
                  && Pairs(calls)[answer] > c.id && Pairs(calls)[answer] in Next(Run(NO_CHAT, calls), c).messages)
  {
    var chat, pairs := Run(NO_CHAT, calls), Pairs(calls);
    RunKeepsFollowing(calls);
    NextAnswerIsOwnIff(chat.messages, pairs, c.name, c.id);
    var answer := Taken(chat, c).value;
    assert Follows(chat.messages, pairs, answer);
    TakenIsWhatGoes(chat, c, pairs[answer]);
  }

  /** After an edit the question has no answer, so what a later edit or delete takes is never its own. */
  lemma EditedQuestionHasNoAnswer(calls: seq<Call>, edit: Call, answer: nat)
    requires InTurn(calls) && edit.Edit? && OwnedQuestion(Run(NO_CHAT, calls), edit.name, edit.visitor, edit.id)
    requires var after := Run(NO_CHAT, calls + [edit]).messages; answer in after && after[answer].role == Assistant
    ensures Pairs(calls + [edit]) == Pairs(calls) && answer in Pairs(calls) && Pairs(calls)[answer] != edit.id
  {
    var chat := Run(NO_CHAT, calls);
    assert (calls + [edit])[..|calls + [edit]| - 1] == calls;
    RunKeepsFollowing(calls);
    TakingKeepsTheRest(chat, edit, answer);
    TakenIsWhatGoes(chat, edit, answer);
    assert Follows(chat.messages, Pairs(calls), answer);
    if Pairs(calls)[answer] == edit.id {
      OwnAnswerIsTaken(chat, Pairs(calls), edit, answer);
    }
  }

  // ---------------------------------------------------------------- overlapping saves

  /** Looking at the next message tells, for every question of the thread, whether the next answer is its own. */
  ghost predicate NextMessageTells(messages: Messages, pairs: map<nat, nat>, thread: string) {
    forall q :: q in messages && messages[q].thread == thread && messages[q].role == User
                && AnswersAfter(messages, thread, q) != {} && Later(messages, thread, q) != {} ==>
      (IsPair(pairs, Least(AnswersAfter(messages, thread, q)), q) <==>
       messages[Least(Later(messages, thread, q))].role == Assistant)
  }

  /** Every answer that comes right behind a question is that question's own. */
  ghost predicate NeighboursArePairs(messages: Messages, pairs: map<nat, nat>, thread: string) {
    forall q :: q in messages && messages[q].thread == thread && messages[q].role == User
                && Later(messages, thread, q) != {}
                && messages[Least(Later(messages, thread, q))].role == Assistant ==>
      IsPair(pairs, Least(Later(messages, thread, q)), q)
  }

  /** For any table at all, overlapping saves or not: exactly when the next message tells. */
  lemma NextMessageTellsIff(messages: Messages, pairs: map<nat, nat>, thread: string)
    ensures NextMessageTells(messages, pairs, thread) <==> NeighboursArePairs(messages, pairs, thread)
  {
    forall q | q in messages && Later(messages, thread, q) != {}
               && messages[Least(Later(messages, thread, q))].role == Assistant
      ensures AnswersAfter(messages, thread, q) != {}
      ensures Least(AnswersAfter(messages, thread, q)) == Least(Later(messages, thread, q))
    {
      NextAnswerIsNextMessage(messages, thread, q);
    }
    if NeighboursArePairs(messages, pairs, thread) {
      forall q | q in messages && messages[q].thread == thread && messages[q].role == User
                 && AnswersAfter(messages, thread, q) != {} && Later(messages, thread, q) != {}
        ensures IsPair(pairs, Least(AnswersAfter(messages, thread, q)), q) <==>
                messages[Least(Later(messages, thread, q))].role == Assistant
      {
        if messages[Least(Later(messages, thread, q))].role == User {
          LastQuestionBefore(messages, pairs, thread, q);
        }
      }
    }
  }

  /** The message just before the next answer is a question too, and the answer's own. */
  lemma LastQuestionBefore(messages: Messages, pairs: map<nat, nat>, thread: string, q: nat)
    requires NeighboursArePairs(messages, pairs, thread)
    requires q in messages && AnswersAfter(messages, thread, q) != {} && Later(messages, thread, q) != {}
    requires messages[Least(Later(messages, thread, q))].role == User
    ensures !IsPair(pairs, Least(AnswersAfter(messages, thread, q)), q)
  {
    var answer := Least(AnswersAfter(messages, thread, q));
    var next := Least(Later(messages, thread, q));
    assert answer in Later(messages, thread, q);
    var between := set id | id in Later(messages, thread, q) && id < answer;
    assert next in between;
    var last := Greatest(between);
    assert last in between;
    assert messages[last].role == User by {
      assert messages[last].role == Assistant ==> last in AnswersAfter(messages, thread, q);
    }
    assert answer in Later(messages, thread, last);
    var behind := Least(Later(messages, thread, last));
    assert behind == answer by {
      assert behind in Later(messages, thread, q);
      assert behind < answer ==> behind in between;
    }
  }

  /** Non-overlapping saves are enough for that. */
  lemma InTurnMeansNeighbours(calls: seq<Call>, thread: string)
    requires InTurn(calls)
    ensures NeighboursArePairs(Run(NO_CHAT, calls).messages, Pairs(calls), thread)
  {
    var messages := Run(NO_CHAT, calls).messages;
    RunKeepsFollowing(calls);
    forall q | q in messages && messages[q].thread == thread && messages[q].role == User
               && Later(messages, thread, q) != {}
               && messages[Least(Later(messages, thread, q))].role == Assistant
      ensures IsPair(Pairs(calls), Least(Later(messages, thread, q)), q)
    {
      NextIsOwn(messages, Pairs(calls), thread, q);
    }
  }

  // ---------------------------------------------------------------- histories

  lemma RunMore(calls: seq<Call>, c: Call)
    ensures Run(NO_CHAT, calls + [c]) == Next(Run(NO_CHAT, calls), c)
    ensures Pairs(calls + [c]) ==
            if Saves(Run(NO_CHAT, calls), c) then Pairs(calls)[c.second := c.first] else Pairs(calls)
  {
    assert (calls + [c])[..|calls + [c]| - 1] == calls;
  }

  function Turn(question: string, answer: string, first: nat, second: nat): Call {
    Save(Some("t"), Some("u"), question, answer, first, second, false)
  }

  /** Two saved turns, at any ids that are free and in order. */
  lemma TwoTurns(a: nat, b: nat, x: nat, y: nat)
    requires a < b && x < y && a != x && a != y && b != x && b != y
    ensures var calls := [Turn("q1", "a1", a, b), Turn("q2", "a2", x, y)];
            && Run(NO_CHAT, calls).owners == map["t" := "u"]
            && Run(NO_CHAT, calls).messages == map[a := Message("t", User, "q1"), b := Message("t", Assistant, "a1"),
                                                   x := Message("t", User, "q2"), y := Message("t", Assistant, "a2")]
            && Pairs(calls) == map[b := a, y := x]
  {
    var one, two := Turn("q1", "a1", a, b), Turn("q2", "a2", x, y);
    assert "t" != "" && "u" != "";
    RunMore([], one);
    assert [] + [one] == [one] && [one] + [two] == [one, two];
    RunMore([one], two);
  }

  lemma OneEdit(chat: Chat, id: nat, content: string, answer: nat)
    requires OwnedQuestion(chat, "t", "u", id) && IsLeast(AnswersAfter(chat.messages, "t", id), answer)
    ensures Next(chat, Edit("t", "u", id, content)).owners == chat.owners
    ensures Next(chat, Edit("t", "u", id, content)).messages
         == chat.messages[id := Message("t", User, content)] - {answer}
  {
    EditedAnswers(chat, Edit("t", "u", id, content));
  }

  const TURNS := map[1 := Message("t", User, "q1"), 2 := Message("t", Assistant, "a1"),
                     3 := Message("t", User, "q2"), 4 := Message("t", Assistant, "a2")]

  lemma FirstEdit(chat: Chat)
    requires chat == Chat(map["t" := "u"], TURNS)
    ensures Next(chat, Edit("t", "u", 1, "x")) ==
            Chat(chat.owners, map[1 := Message("t", User, "x"), 3 := Message("t", User, "q2"), 4 := Message("t", Assistant, "a2")])
  {
    OneEdit(chat, 1, "x", 2);
  }

  lemma SecondEdit(chat: Chat)
    requires chat == Chat(map["t" := "u"], map[1 := Message("t", User, "x"), 3 := Message("t", User, "q2"),
                                               4 := Message("t", Assistant, "a2")])
    ensures Next(chat, Edit("t", "u", 1, "y")).messages
         == map[1 := Message("t", User, "y"), 3 := Message("t", User, "q2")]
  {
    OneEdit(chat, 1, "y", 4);
  }

  /** Editing one question twice: the second edit removes the answer of the next turn. */
  lemma SecondEditTakesTheNextTurnsAnswer()
    ensures var calls := [Turn("q1", "a1", 1, 2), Turn("q2", "a2", 3, 4)];
            Run(NO_CHAT, calls + [Edit("t", "u", 1, "x")] + [Edit("t", "u", 1, "y")]).messages
            == map[1 := Message("t", User, "y"), 3 := Message("t", User, "q2")]
  {
    var turns := [Turn("q1", "a1", 1, 2), Turn("q2", "a2", 3, 4)];
    TwoTurns(1, 2, 3, 4);
    RunMore(turns, Edit("t", "u", 1, "x"));
    FirstEdit(Run(NO_CHAT, turns));
    RunMore(turns + [Edit("t", "u", 1, "x")], Edit("t", "u", 1, "y"));
    SecondEdit(Run(NO_CHAT, turns + [Edit("t", "u", 1, "x")]));
  }

  lemma OverlappedTable(messages: Messages)
    requires messages == map[1 := Message("t", User, "q1"), 3 := Message("t", Assistant, "a1"),
                             2 := Message("t", User, "q2"), 4 := Message("t", Assistant, "a2")]
    ensures IsLeast(AnswersAfter(messages, "t", 1), 3) && IsLeast(Later(messages, "t", 1), 2)
    ensures IsLeast(AnswersAfter(messages, "t", 2), 3) && IsLeast(Later(messages, "t", 2), 3)
    ensures !NextMessageTells(messages, map[3 := 1, 4 := 2], "t")
  {
  }

  /**
   Two overlapping saves, questions at 1 and 2 and their answers at 3 and 4. Editing the
   second question takes the first one's answer though the next message is an answer;
   deleting the first takes its own answer though the next message is a question.
   */
  lemma OverlappingSavesMislead()
    ensures var calls := [Turn("q1", "a1", 1, 3), Turn("q2", "a2", 2, 4)];
            var chat := Run(NO_CHAT, calls);
            && !InTurn(calls) && !NextMessageTells(chat.messages, Pairs(calls), "t")
            && Taken(chat, Edit("t", "u", 2, "x")) == Some(3) && Pairs(calls)[3] == 1
            && IsLeast(Later(chat.messages, "t", 2), 3) && chat.messages[3].role == Assistant
            && Taken(chat, Delete("t", "u", 1)) == Some(3)
            && IsLeast(Later(chat.messages, "t", 1), 2) && chat.messages[2].role == User
  {
    var calls := [Turn("q1", "a1", 1, 3), Turn("q2", "a2", 2, 4)];
    var chat := Run(NO_CHAT, calls);
    TwoTurns(1, 3, 2, 4);
    OverlappedTable(chat.messages);
    if InTurn(calls) {
      InTurnMeansNeighbours(calls, "t");
      NextMessageTellsIff(chat.messages, Pairs(calls), "t");
    }
  }
}
