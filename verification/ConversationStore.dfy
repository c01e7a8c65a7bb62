/** The conversation tables in place: the calls of the memory service as transactions. */
module ConversationStores {
  import opened Results
  import opened Conversations

  class ConversationStore {
    var owners: map<string, string>
    var messages: Messages

    function Contents(): Chat
      reads this
    {
      Chat(owners, messages)
    }

    constructor ()
      ensures Contents() == NO_CHAT && Sound(Contents())
    {
      owners, messages := map[], map[];
    }

    /** Returns false, and writes nothing, when the thread is someone else's. */
    method Ensure(thread: string, user: string) returns (mine: bool)
      modifies this`owners
      ensures mine <==> EnsureConversation(old(Contents()), thread, user).Some?
      ensures Contents() == if mine then EnsureConversation(old(Contents()), thread, user).value else old(Contents())
    {
      if thread !in owners {
        owners := owners[thread := user];
        return true;
      }
      return owners[thread] == user;
    }

    /**
     Saves a question and its answer. The ids are those the database hands out; an
     exception before the commit takes a newly opened thread back as well.
     */
    method SaveMemoryTurn(thread: Option<string>, user: Option<string>, question: string, answer: string,
                          first: nat, second: nat, raises: bool)
      requires first !in messages && second !in messages && first < second
      modifies this
      ensures Contents() == SaveTurn(old(Contents()), thread, user, question, answer, first, second, raises)
      ensures old(Sound(Contents())) ==> Sound(Contents())
    {
      if Given(thread) {
        var ownersBefore := owners;
        var mine := Ensure(thread.value, UserOr(user));
        if mine {
          if raises {
            owners := ownersBefore;
          } else {
            messages := messages[first := Message(thread.value, User, question)];
            messages := messages[second := Message(thread.value, Assistant, answer)];
          }
        }
      }
      if old(Sound(Contents())) {
        NextKeepsSound(old(Contents()), Save(thread, user, question, answer, first, second, raises));
      }
    }

    /** SELECT id .. ORDER BY id LIMIT 1. */
    method NextAnswer(thread: string, after: nat) returns (answer: Option<nat>)
      ensures answer == None ==> AnswersAfter(messages, thread, after) == {}
      ensures answer.Some? ==> IsLeast(AnswersAfter(messages, thread, after), answer.value)
    {
      var rest := AnswersAfter(messages, thread, after);
      answer := None;
      while rest != {}
        invariant rest <= AnswersAfter(messages, thread, after)
        invariant answer == None ==> rest == AnswersAfter(messages, thread, after)
        invariant answer.Some? ==> IsLeast(AnswersAfter(messages, thread, after) - rest, answer.value)
        decreases rest
      {
        var id :| id in rest;
        ghost var seen := AnswersAfter(messages, thread, after) - rest;
        assert AnswersAfter(messages, thread, after) - (rest - {id}) == seen + {id};
        if answer == None || id < answer.value {
          answer := Some(id);
        }
        rest := rest - {id};
      }
      assert AnswersAfter(messages, thread, after) - rest == AnswersAfter(messages, thread, after);
    }

    method DeleteAnswerAfter(thread: string, question: nat)
      modifies this`messages
      ensures messages == WithoutNextAnswer(old(messages), thread, question)
    {
      var answer := NextAnswer(thread, question);
      if answer.Some? {
        messages := messages - {answer.value};
      }
    }

    method EditQuestion(thread: string, user: string, id: nat, content: string) returns (found: bool)
      modifies this
      ensures found <==> OwnedQuestion(old(Contents()), thread, user, id)
      ensures Contents() == UpdateUserMessage(old(Contents()), thread, user, id, content)
      ensures old(Sound(Contents())) ==> Sound(Contents())
    {
      found := OwnedQuestion(Contents(), thread, user, id);
      if found {
        messages := messages[id := messages[id].(content := content)];
        DeleteAnswerAfter(thread, id);
      }
      if old(Sound(Contents())) {
        NextKeepsSound(old(Contents()), Edit(thread, user, id, content));
      }
    }

    method DeleteTurn(thread: string, user: string, id: nat) returns (found: bool)
      modifies this
      ensures found <==> OwnedQuestion(old(Contents()), thread, user, id)
      ensures Contents() == DeleteUserTurn(old(Contents()), thread, user, id)
      ensures old(Sound(Contents())) ==> Sound(Contents())
    {
      found := OwnedQuestion(Contents(), thread, user, id);
      if found {
        DeleteAnswerAfter(thread, id);
        messages := messages - {id};
      }
      if old(Sound(Contents())) {
        NextKeepsSound(old(Contents()), Delete(thread, user, id));
      }
    }
  }
}
