/**
 Conversation threads: turns are saved, questions edited, turns deleted. Message ids
 order a thread. Saves of different callers may overlap, so a save's two ids need not
 be neighbours, and need not be the largest; the question's id is below the answer's.
 */
module Conversations {
  import opened Collections
  import opened Results

  datatype Role = User | Assistant

  datatype Message = Message(thread: string, role: Role, content: string)

  type Messages = map<nat, Message>

  datatype Chat = Chat(owners: map<string, string>, messages: Messages)

  const NO_CHAT := Chat(map[], map[])

  const DEFAULT_USER_ID := "anonymous"

  const SHORT_MEMORY_LIMIT: nat := 6

  predicate Given(name: Option<string>) {
    name.Some? && name.value != ""
  }

  function UserOr(user: Option<string>): string {
    if Given(user) then user.value else DEFAULT_USER_ID
  }

  predicate OwnedBy(chat: Chat, thread: string, user: string) {
    thread in chat.owners && chat.owners[thread] == user
  }

  /** The upsert inserts a new thread, and touches an old one only for its owner. */
  function EnsureConversation(chat: Chat, thread: string, user: string): Option<Chat> {
    if thread !in chat.owners then Some(chat.(owners := chat.owners[thread := user]))
    else if chat.owners[thread] == user then Some(chat)
    else None
  }

  /** One transaction: thread, question and answer, or nothing when something in it raises. */
  function SaveTurn(chat: Chat, thread: Option<string>, user: Option<string>, question: string, answer: string,
                    first: nat, second: nat, raises: bool): Chat
  {
    if !Given(thread) then chat
    else
      match EnsureConversation(chat, thread.value, UserOr(user))
      case None => chat
      case Some(open) =>
        if raises || first in chat.messages || second in chat.messages || first >= second then chat
        else
          open.(messages := open.messages[first := Message(thread.value, User, question)]
                                         [second := Message(thread.value, Assistant, answer)])
  }

  predicate OwnedQuestion(chat: Chat, thread: string, user: string, id: nat) {
    && id in chat.messages
    && chat.messages[id].thread == thread
    && chat.messages[id].role == User
    && OwnedBy(chat, thread, user)
  }

  predicate IsAnswerAfter(messages: Messages, thread: string, after: nat, id: nat) {
    id in messages && messages[id].thread == thread && messages[id].role == Assistant && id > after
  }

  /** The answer with the smallest id above the question's. */
  ghost predicate IsNextAnswer(messages: Messages, thread: string, after: nat, id: nat) {
    && IsAnswerAfter(messages, thread, after, id)
    && (forall other :: IsAnswerAfter(messages, thread, after, other) ==> id <= other)
  }

  ghost predicate IsLeast(ids: set<nat>, least: nat) {
    least in ids && forall id :: id in ids ==> least <= id
  }

  ghost function Least(ids: set<nat>): (least: nat)
    requires ids != {}
    ensures IsLeast(ids, least)
  {
    LeastExists(ids);
    var least :| IsLeast(ids, least);
    least
  }

  lemma {:induction false} LeastExists(ids: set<nat>)
    requires ids != {}
    ensures exists least :: IsLeast(ids, least)
  {
    var some :| some in ids;
    if ids == {some} {
      assert IsLeast(ids, some);
    } else {
      LeastExists(ids - {some});
      var rest :| IsLeast(ids - {some}, rest);
      assert ids == {some} + (ids - {some});
      assert IsLeast(ids, if some <= rest then some else rest);
    }
  }

  function AnswersAfter(messages: Messages, thread: string, after: nat): set<nat> {
    set id | id in messages && messages[id].thread == thread && messages[id].role == Assistant && id > after
  }

  ghost function WithoutNextAnswer(messages: Messages, thread: string, after: nat): Messages {
    var answers := AnswersAfter(messages, thread, after);
    if answers == {} then messages else messages - {Least(answers)}
  }

  ghost function UpdateUserMessage(chat: Chat, thread: string, user: string, id: nat, content: string): Chat {
    if !OwnedQuestion(chat, thread, user, id) then chat
    else
      var edited := chat.messages[id := chat.messages[id].(content := content)];
      chat.(messages := WithoutNextAnswer(edited, thread, id))
  }

  ghost function DeleteUserTurn(chat: Chat, thread: string, user: string, id: nat): Chat {
    if !OwnedQuestion(chat, thread, user, id) then chat
    else chat.(messages := WithoutNextAnswer(chat.messages, thread, id) - {id})
  }

  // ---------------------------------------------------------------- answers never outnumber questions

  /** Messages of one role in a thread up to an id. */
  function UpTo(messages: Messages, thread: string, role: Role, last: nat): set<nat> {
    set id | id in messages && messages[id].thread == thread && messages[id].role == role && id <= last
  }

  /** In every prefix of every thread there are at most as many answers as questions. */
  ghost predicate Balanced(messages: Messages) {
    forall thread, last :: |UpTo(messages, thread, Assistant, last)| <= |UpTo(messages, thread, User, last)|
  }

  lemma OneMoreMessage(messages: Messages, id: nat, m: Message, thread: string, role: Role, last: nat)
    requires id !in messages
    ensures UpTo(messages[id := m], thread, role, last) ==
            UpTo(messages, thread, role, last) + (if m.thread == thread && m.role == role && id <= last then {id} else {})
  {
  }

  lemma SaveKeepsBalance(messages: Messages, thread: string, question: string, answer: string, first: nat, second: nat)
    requires Balanced(messages) && first !in messages && second !in messages && first < second
    ensures Balanced(messages[first := Message(thread, User, question)][second := Message(thread, Assistant, answer)])
  {
    var q, a := Message(thread, User, question), Message(thread, Assistant, answer);
    var asked := messages[first := q];
    var saved := asked[second := a];
    forall t, last: nat ensures |UpTo(saved, t, Assistant, last)| <= |UpTo(saved, t, User, last)| {
      OneMoreMessage(messages, first, q, t, User, last);
      OneMoreMessage(messages, first, q, t, Assistant, last);
      OneMoreMessage(asked, second, a, t, User, last);
      OneMoreMessage(asked, second, a, t, Assistant, last);
      assert |UpTo(messages, t, Assistant, last)| <= |UpTo(messages, t, User, last)|;
    }
  }

  /** Taking away an answer can only help. */
  lemma DropAnswerKeepsBalance(messages: Messages, id: nat)
    requires Balanced(messages) && id in messages && messages[id].role == Assistant
    ensures Balanced(messages - {id})
  {
    forall t, last: nat ensures |UpTo(messages - {id}, t, Assistant, last)| <= |UpTo(messages - {id}, t, User, last)| {
      assert UpTo(messages - {id}, t, User, last) == UpTo(messages, t, User, last);
      SubsetSize(UpTo(messages - {id}, t, Assistant, last), UpTo(messages, t, Assistant, last));
      assert |UpTo(messages, t, Assistant, last)| <= |UpTo(messages, t, User, last)|;
    }
  }

  /** From a question up to the next answer there is a question to spare. */
  lemma QuestionToSpare(messages: Messages, thread: string, id: nat, last: nat)
    requires Balanced(messages)
    requires id in messages && messages[id].thread == thread && messages[id].role == User && id <= last
    requires forall other :: IsAnswerAfter(messages, thread, id, other) ==> last < other
    ensures |UpTo(messages, thread, Assistant, last)| < |UpTo(messages, thread, User, last)|
  {
    var questions, answers := UpTo(messages, thread, User, last), UpTo(messages, thread, Assistant, last);
    if id == 0 {
      assert answers == {} by {
        assert forall other :: other in answers ==> other != id && IsAnswerAfter(messages, thread, id, other);
      }
      assert id in questions;
    } else {
      var before := UpTo(messages, thread, User, id - 1);
      assert answers == UpTo(messages, thread, Assistant, id - 1) by {
        forall other | other in answers ensures other <= id - 1 {
          assert other != id;
          assert !IsAnswerAfter(messages, thread, id, other);
        }
      }
      assert |answers| <= |before|;
      SubsetSize(before + {id}, questions);
    }
  }

  /** Deleting a turn takes a question and the next answer, whoever's answer that is. */
  lemma DeleteKeepsBalance(messages: Messages, thread: string, id: nat)
    requires Balanced(messages)
    requires id in messages && messages[id].thread == thread && messages[id].role == User
    ensures Balanced(WithoutNextAnswer(messages, thread, id) - {id})
  {
    forall t, last: nat
      ensures var after := WithoutNextAnswer(messages, thread, id) - {id};
              |UpTo(after, t, Assistant, last)| <= |UpTo(after, t, User, last)|
    {
      DeleteKeepsPrefix(messages, thread, id, t, last);
    }
  }

  lemma DeleteKeepsPrefix(messages: Messages, thread: string, id: nat, t: string, last: nat)
    requires Balanced(messages)
    requires id in messages && messages[id].thread == thread && messages[id].role == User
    ensures var after := WithoutNextAnswer(messages, thread, id) - {id};
            |UpTo(after, t, Assistant, last)| <= |UpTo(after, t, User, last)|
  {
    var after := WithoutNextAnswer(messages, thread, id) - {id};
    var next := AnswersAfter(messages, thread, id);
    var questions, answers := UpTo(messages, t, User, last), UpTo(messages, t, Assistant, last);
    assert |answers| <= |questions|;
    assert UpTo(after, t, User, last) == questions - {id};
    assert UpTo(after, t, Assistant, last) == if next == {} then answers else answers - {Least(next)};
    if t == thread && id <= last {
      if next == {} || last < Least(next) {
        assert forall other :: IsAnswerAfter(messages, thread, id, other) ==> other in next;
        QuestionToSpare(messages, thread, id, last);
      } else {
        assert Least(next) in answers;
      }
    }
  }

  lemma EditKeepsBalance(messages: Messages, thread: string, id: nat, content: string)
    requires Balanced(messages) && id in messages
    ensures Balanced(WithoutNextAnswer(messages[id := messages[id].(content := content)], thread, id))
  {
    var edited := messages[id := messages[id].(content := content)];
    forall t, role, last: nat ensures UpTo(edited, t, role, last) == UpTo(messages, t, role, last) {}
    assert Balanced(edited);
    var next := AnswersAfter(edited, thread, id);
    if next != {} {
      DropAnswerKeepsBalance(edited, Least(next));
    }
  }

  // ---------------------------------------------------------------- any sequence of calls

  datatype Call =
    | Save(thread: Option<string>, user: Option<string>, question: string, answer: string, first: nat, second: nat, raises: bool)
    | Open(name: string, visitor: string)
    | Edit(name: string, visitor: string, id: nat, content: string)
    | Delete(name: string, visitor: string, id: nat)

  ghost function Next(chat: Chat, c: Call): Chat {
    match c
    case Save(thread, user, question, answer, first, second, raises) =>
      SaveTurn(chat, thread, user, question, answer, first, second, raises)
    case Open(name, visitor) =>
      (match EnsureConversation(chat, name, visitor)
       case Some(open) => open
       case None => chat)
    case Edit(name, visitor, id, content) => UpdateUserMessage(chat, name, visitor, id, content)
    case Delete(name, visitor, id) => DeleteUserTurn(chat, name, visitor, id)
  }

  ghost function Run(chat: Chat, calls: seq<Call>): Chat
    decreases |calls|
  {
    if calls == [] then chat
    else Next(Run(chat, calls[..|calls| - 1]), calls[|calls| - 1])
  }

  ghost predicate Sound(chat: Chat) {
    && Balanced(chat.messages)
    && (forall id :: id in chat.messages ==> chat.messages[id].thread in chat.owners)
  }

  lemma NextKeepsSound(chat: Chat, c: Call)
    requires Sound(chat)
    ensures Sound(Next(chat, c))
  {
    match c {
      case Save(thread, user, question, answer, first, second, raises) =>
        if Next(chat, c).messages != chat.messages {
          SaveKeepsBalance(chat.messages, thread.value, question, answer, first, second);
        }
      case Open(name, visitor) =>
      case Edit(name, visitor, id, content) =>
        if OwnedQuestion(chat, name, visitor, id) { EditKeepsBalance(chat.messages, name, id, content); }
      case Delete(name, visitor, id) =>
        if OwnedQuestion(chat, name, visitor, id) { DeleteKeepsBalance(chat.messages, name, id); }
    }
  }

  /** Over any sequence of calls, and with a thread's owner fixed from its first call on. */
  lemma {:induction false} EveryRunIsSound(chat: Chat, calls: seq<Call>)
    requires Sound(chat)
    ensures Sound(Run(chat, calls))
    ensures forall thread :: thread in chat.owners ==>
              thread in Run(chat, calls).owners && Run(chat, calls).owners[thread] == chat.owners[thread]
    decreases |calls|
  {
    if calls != [] {
      var before := calls[..|calls| - 1];
      EveryRunIsSound(chat, before);
      NextKeepsSound(Run(chat, before), calls[|calls| - 1]);
    }
  }

  /** The user a call acts for, and the thread it names. */
  function Visitor(c: Call): string {
    if c.Save? then UserOr(c.user) else c.visitor
  }

  function Named(c: Call): string {
    if c.Save? then (if c.thread.Some? then c.thread.value else "") else c.name
  }

  /**
   A call reaches only the thread it names, and that only for its owner. An edit or a
   delete removes at most one answer, and nothing else but a deleted question; of the
   messages that stay only the edited question changes, and only its content.
   */
  lemma CallsStayInTheirThread(chat: Chat, c: Call, id: nat)
    requires Sound(chat)
    ensures id in chat.messages && (id !in Next(chat, c).messages || Next(chat, c).messages[id] != chat.messages[id]) ==>
              (c.Edit? || c.Delete?) && chat.messages[id].thread == Named(c) && OwnedBy(chat, Named(c), Visitor(c))
    ensures id !in chat.messages && id in Next(chat, c).messages ==>
              c.Save? && Next(chat, c).messages[id].thread == Named(c) && OwnedBy(Next(chat, c), Named(c), Visitor(c))
    ensures id in chat.messages && id !in Next(chat, c).messages ==>
              (c.Delete? && id == c.id) || IsNextAnswer(chat.messages, Named(c), c.id, id)
    ensures id in chat.messages && id in Next(chat, c).messages && Next(chat, c).messages[id] != chat.messages[id] ==>
              c.Edit? && id == c.id && Next(chat, c).messages[id] == chat.messages[id].(content := c.content)
  {
    if c.Edit? || c.Delete? {
      var table := if c.Edit? && c.id in chat.messages then chat.messages[c.id := chat.messages[c.id].(content := c.content)] else chat.messages;
      forall other | OwnedQuestion(chat, c.name, c.visitor, c.id)
        ensures IsAnswerAfter(chat.messages, c.name, c.id, other) <==> other in AnswersAfter(table, c.name, c.id) {}
    }
  }

  /** The named user, or "anonymous" where none or an empty one is given. */
  predicate ActsAs(user: Option<string>, name: string) {
    if user == None || user.value == "" then name == "anonymous" else name == user.value
  }

  /**
   A save with a thread that is new or the user's own, and with fresh ids in order, opens
   the thread for the user and stores both messages. Without a thread, with an exception,
   or on a thread of someone else, it changes nothing.
   */
  lemma SaveLands(chat: Chat, thread: Option<string>, user: Option<string>, question: string, answer: string,
                  first: nat, second: nat, raises: bool, name: string)
    requires ActsAs(user, name) && first !in chat.messages && second !in chat.messages && first < second
    ensures var after := Next(chat, Save(thread, user, question, answer, first, second, raises));
            if thread != None && thread.value != "" && !raises
               && (thread.value !in chat.owners || chat.owners[thread.value] == name)
            then && after.owners == chat.owners[thread.value := name]
                 && after.messages == chat.messages[first := Message(thread.value, User, question)]
                                                   [second := Message(thread.value, Assistant, answer)]
            else after == chat
  {
    if thread != None && thread.value in chat.owners && chat.owners[thread.value] == name {
      assert chat.owners[thread.value := name] == chat.owners;
    }
  }

  /** The call is on a question of the visitor's own thread. */
  predicate OnOwnQuestion(chat: Chat, name: string, visitor: string, id: nat) {
    && name in chat.owners && chat.owners[name] == visitor
    && id in chat.messages && chat.messages[id].thread == name && chat.messages[id].role == User
  }

  /** The earliest answer of the thread after the question. */
  ghost predicate FollowsFirst(chat: Chat, id: nat, answer: nat) {
    && answer in chat.messages && chat.messages[answer].role == Assistant && answer > id
    && id in chat.messages && chat.messages[answer].thread == chat.messages[id].thread
    && forall other :: IsAnswerAfter(chat.messages, chat.messages[id].thread, id, other) ==> answer <= other
  }

  /** An edit of the visitor's own question stores the new content, and drops the answer that follows first. */
  lemma EditLands(chat: Chat, name: string, visitor: string, id: nat, content: string)
    ensures var after := Next(chat, Edit(name, visitor, id, content));
            if OnOwnQuestion(chat, name, visitor, id)
            then && id in after.messages && after.messages[id] == Message(name, User, content)
                 && (forall other :: other != id ==>
                       (other in after.messages <==> other in chat.messages && !FollowsFirst(chat, id, other)))
            else after == chat
  {
    if OnOwnQuestion(chat, name, visitor, id) {
      var edited := chat.messages[id := Message(name, User, content)];
      forall other ensures other in AnswersAfter(edited, name, id) <==> IsAnswerAfter(chat.messages, name, id, other) {}
      NextAnswerIsFirst(chat, edited, id);
    }
  }

  /** A deletion of the visitor's own question takes the question, and the answer that follows first. */
  lemma DeleteLands(chat: Chat, name: string, visitor: string, id: nat)
    ensures var after := Next(chat, Delete(name, visitor, id));
            if OnOwnQuestion(chat, name, visitor, id)
            then forall other ::
                   (other in after.messages <==> other in chat.messages && other != id && !FollowsFirst(chat, id, other))
            else after == chat
  {
    if OnOwnQuestion(chat, name, visitor, id) {
      NextAnswerIsFirst(chat, chat.messages, id);
    }
  }

  lemma NextAnswerIsFirst(chat: Chat, table: Messages, id: nat)
    requires id in chat.messages
    requires var name := chat.messages[id].thread;
             forall other :: other in AnswersAfter(table, name, id) <==> IsAnswerAfter(chat.messages, name, id, other)
    ensures var answers := AnswersAfter(table, chat.messages[id].thread, id);
            forall other :: FollowsFirst(chat, id, other) <==> answers != {} && other == Least(answers)
  {
    var name := chat.messages[id].thread;
    var answers := AnswersAfter(table, name, id);
    forall other ensures FollowsFirst(chat, id, other) <==> answers != {} && other == Least(answers) {
      if FollowsFirst(chat, id, other) {
        assert other in answers;
        assert Least(answers) in answers;
      }
    }
  }

  // ---------------------------------------------------------------- short memory

  ghost predicate IsGreatest(ids: set<nat>, greatest: nat) {
    greatest in ids && forall id :: id in ids ==> id <= greatest
  }

  ghost function Greatest(ids: set<nat>): (greatest: nat)
    requires ids != {}
    ensures IsGreatest(ids, greatest)
  {
    GreatestExists(ids);
    var greatest :| IsGreatest(ids, greatest);
    greatest
  }

  lemma {:induction false} GreatestExists(ids: set<nat>)
    requires ids != {}
    ensures exists greatest :: IsGreatest(ids, greatest)
  {
    var some :| some in ids;
    if ids == {some} {
      assert IsGreatest(ids, some);
    } else {
      GreatestExists(ids - {some});
      var rest :| IsGreatest(ids - {some}, rest);
      assert ids == {some} + (ids - {some});
      assert IsGreatest(ids, if some >= rest then some else rest);
    }
  }

  /** ORDER BY id DESC LIMIT limit. */
  ghost function NewestFirst(ids: set<nat>, limit: nat): seq<nat>
    decreases limit
  {
    if ids == {} || limit == 0 then []
    else [Greatest(ids)] + NewestFirst(ids - {Greatest(ids)}, limit - 1)
  }

  function Reversed(s: seq<nat>): seq<nat> {
    if s == [] then [] else Reversed(s[1..]) + [s[0]]
  }

  function ThreadIds(chat: Chat, thread: string, user: string): set<nat> {
    set id | id in chat.messages && chat.messages[id].thread == thread && OwnedBy(chat, thread, user)
  }

  ghost function ShortMemory(chat: Chat, thread: string, user: string): seq<nat> {
    Reversed(NewestFirst(ThreadIds(chat, thread, user), SHORT_MEMORY_LIMIT))
  }

  /** The whole thread, oldest first. */
  ghost function InOrder(ids: set<nat>): seq<nat>
    decreases |ids|
  {
    if ids == {} then []
    else InOrder(ids - {Greatest(ids)}) + [Greatest(ids)]
  }

  lemma {:induction false} InOrderIsSorted(ids: set<nat>)
    ensures |InOrder(ids)| == |ids|
    ensures forall id :: id in InOrder(ids) <==> id in ids
    ensures forall i, j :: 0 <= i < j < |ids| ==> InOrder(ids)[i] < InOrder(ids)[j]
    decreases |ids|
  {
    if ids != {} {
      var greatest := Greatest(ids);
      var older := InOrder(ids - {greatest});
      InOrderIsSorted(ids - {greatest});
      assert InOrder(ids) == older + [greatest];
      forall i | 0 <= i < |older| ensures older[i] < greatest {
        assert older[i] in ids - {greatest};
      }
    }
  }

  function Suffix(s: seq<nat>, limit: nat): seq<nat> {
    s[if |s| <= limit then 0 else |s| - limit..]
  }

  lemma {:induction false} NewestFirstIsASuffix(ids: set<nat>, limit: nat)
    ensures Reversed(NewestFirst(ids, limit)) == Suffix(InOrder(ids), limit)
    decreases limit
  {
    if ids != {} && limit != 0 {
      var greatest := Greatest(ids);
      var older := InOrder(ids - {greatest});
      NewestFirstIsASuffix(ids - {greatest}, limit - 1);
      assert NewestFirst(ids, limit)[1..] == NewestFirst(ids - {greatest}, limit - 1);
      assert InOrder(ids) == older + [greatest];
      assert Suffix(older, limit - 1) + [greatest] == Suffix(older + [greatest], limit);
    }
  }

  /** Short memory is the last six messages of the ordered thread, or all of them; a stranger gets none. */
  lemma ShortMemoryIsTheEndOfTheThread(chat: Chat, thread: string, user: string)
    ensures ShortMemory(chat, thread, user) == Suffix(InOrder(ThreadIds(chat, thread, user)), 6)
    ensures !OwnedBy(chat, thread, user) ==> ShortMemory(chat, thread, user) == []
  {
    NewestFirstIsASuffix(ThreadIds(chat, thread, user), SHORT_MEMORY_LIMIT);
  }

  function Above(ids: set<nat>, id: nat): set<nat> {
    set other | other in ids && other > id
  }

  lemma {:induction false} NewestHaveFewAbove(ids: set<nat>, limit: nat, id: nat)
    ensures id in NewestFirst(ids, limit) <==> id in ids && |Above(ids, id)| < limit
    decreases limit
  {
    if ids != {} && limit != 0 {
      var greatest := Greatest(ids);
      if id == greatest {
        assert Above(ids, id) == {};
      } else {
        NewestHaveFewAbove(ids - {greatest}, limit - 1, id);
        if id in ids {
          assert Above(ids, id) == Above(ids - {greatest}, id) + {greatest};
        }
      }
    }
  }

  lemma {:induction false} ReversedHasTheSame(s: seq<nat>, id: nat)
    ensures id in Reversed(s) <==> id in s
  {
    if s != [] {
      ReversedHasTheSame(s[1..], id);
    }
  }

  /** The messages of the thread after this one. */
  function Later(chat: Chat, thread: string, id: nat): set<nat> {
    set other | other in chat.messages && chat.messages[other].thread == thread && other > id
  }

  /**
   A message is in a user's short memory of a thread exactly when it is in the thread, the
   thread is the user's, and fewer than six messages of the thread are later; oldest first.
   */
  lemma ShortMemoryHoldsTheLatestSix(chat: Chat, thread: string, user: string)
    ensures forall id :: id in ShortMemory(chat, thread, user) <==>
                           && id in chat.messages && chat.messages[id].thread == thread
                           && thread in chat.owners && chat.owners[thread] == user
                           && |Later(chat, thread, id)| < 6
    ensures var s := ShortMemory(chat, thread, user);
            && |s| <= 6 && forall i, j :: 0 <= i < j < |s| ==> s[i] < s[j]
  {
    var ids := ThreadIds(chat, thread, user);
    forall id ensures id in ShortMemory(chat, thread, user) <==> id in ids && |Above(ids, id)| < 6 {
      NewestHaveFewAbove(ids, 6, id);
      ReversedHasTheSame(NewestFirst(ids, 6), id);
    }
    if OwnedBy(chat, thread, user) {
      forall id ensures Above(ids, id) == Later(chat, thread, id) {
      }
    }
    NewestFirstIsASuffix(ids, 6);
    InOrderIsSorted(ids);
  }
}
