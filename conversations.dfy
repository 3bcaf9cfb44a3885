/**
 * The conversation service: the chat history table, where every
 * operation but creation first checks that the conversation belongs to
 * the calling user.
 *
 * The table is a map from conversation id to row.  The database's id
 * generator (`newId`), its clock (`now`) and the JSON serialisation of a
 * message list (`dumps`) are parameters.
 */
module Conversations {
  import opened Wrappers

  datatype Conversation = Conversation(
    id: string, userId: string, title: string, messages: string, threadId: Option<string>,
    createdAt: nat, updatedAt: nat)

  /** One chat message as the front end stores it. */
  datatype ChatMessage = ChatMessage(role: string, content: string)

  /** `json.dumps([])` */
  const EmptyMessages := "[]"

  const DefaultTitle := "New Conversation"

  /**
   * The row after `update_conversation`: each field given (not `None`)
   * is set, the messages as their JSON text, and every other field keeps
   * its value; the database stamps the update time.
   */
  function Patch(c: Conversation, messages: Option<seq<ChatMessage>>, threadId: Option<string>, title: Option<string>,
                 dumps: seq<ChatMessage> -> string, now: nat): (r: Conversation)
    ensures r.id == c.id && r.userId == c.userId && r.createdAt == c.createdAt && r.updatedAt == now
    ensures r.messages == if messages.Some? then dumps(messages.value) else c.messages
    ensures r.threadId == if threadId.Some? then threadId else c.threadId
    ensures r.title == if title.Some? then title.value else c.title
  {
    var c1 := if messages.Some? then c.(messages := dumps(messages.value)) else c;
    var c2 := if threadId.Some? then c1.(threadId := threadId) else c1;
    var c3 := if title.Some? then c2.(title := title.value) else c2;
    c3.(updatedAt := now)
  }

  /** A patch with nothing given changes only the update time. */
  lemma PatchNothing(c: Conversation, dumps: seq<ChatMessage> -> string, now: nat)
    ensures Patch(c, None, None, None, dumps, now) == c.(updatedAt := now)
  {
  }

  /** Most recently updated first. */
  predicate SortedByRecency(s: seq<Conversation>) {
    forall i, j :: 0 <= i < j < |s| ==> s[i].updatedAt >= s[j].updatedAt
  }

  /** Where a row goes in a list kept most recent first: after the rows at least as recent. */
  function InsertionPoint(s: seq<Conversation>, c: Conversation): (k: nat)
    ensures k <= |s|
    ensures forall i :: 0 <= i < k ==> s[i].updatedAt >= c.updatedAt
    ensures k < |s| ==> s[k].updatedAt < c.updatedAt
    decreases |s|
  {
    if s == [] || s[0].updatedAt < c.updatedAt then 0 else 1 + InsertionPoint(s[1..], c)
  }

  /** Inserting at the insertion point keeps the list most recent first. */
  lemma InsertKeepsOrder(s: seq<Conversation>, c: Conversation)
    requires SortedByRecency(s)
    ensures var k := InsertionPoint(s, c); SortedByRecency(s[..k] + [c] + s[k..])
  {
    var k := InsertionPoint(s, c);
    var r := s[..k] + [c] + s[k..];
    InsertedAt(s, c, k, r);
    forall i, j | 0 <= i < j < |r| ensures r[i].updatedAt >= r[j].updatedAt {
      if j > k && i != k {
        assert r[i] == s[if i < k then i else i - 1] && r[j] == s[j - 1];
      } else if j > k {
        assert r[j] == s[j - 1] && s[k].updatedAt >= s[j - 1].updatedAt;
      }
    }
  }

  /** Where each row of the list sits after an insertion at `k`. */
  lemma InsertedAt(before: seq<Conversation>, c: Conversation, k: nat, after: seq<Conversation>)
    requires k <= |before| && after == before[..k] + [c] + before[k..]
    ensures |after| == |before| + 1
    ensures forall i {:trigger after[i]} :: 0 <= i < |after| ==> after[i] == if i < k then before[i] else if i == k then c else before[i - 1]
    ensures forall x :: x in after <==> x in before || x == c
  {
  }

  /**
   * The user's rows collected so far, when the ids in `todo` are still
   * to be visited: most recent first, each a stored row of the user's
   * whose id was visited, every visited row of the user's, no id twice.
   */
  predicate Collected(rows: map<string, Conversation>, userId: string, todo: set<string>, cs: seq<Conversation>) {
    SortedByRecency(cs) &&
    (forall i :: 0 <= i < |cs| ==> cs[i].id in rows && rows[cs[i].id] == cs[i] && cs[i].userId == userId && cs[i].id !in todo) &&
    (forall id :: id in rows && id !in todo && rows[id].userId == userId ==> rows[id] in cs) &&
    (forall i, j :: 0 <= i < j < |cs| ==> cs[i].id != cs[j].id)
  }

  /** Visiting one more id keeps the collection right. */
  lemma CollectStep(rows: map<string, Conversation>, userId: string, todo: set<string>, id: string,
                    before: seq<Conversation>, after: seq<Conversation>)
    requires forall x :: x in rows ==> rows[x].id == x
    requires id in todo && todo <= rows.Keys && Collected(rows, userId, todo, before)
    requires rows[id].userId != userId ==> after == before
    requires rows[id].userId == userId ==>
      var k := InsertionPoint(before, rows[id]); after == before[..k] + [rows[id]] + before[k..]
    ensures Collected(rows, userId, todo - {id}, after)
  {
    if rows[id].userId == userId {
      var c := rows[id];
      var k := InsertionPoint(before, c);
      InsertKeepsOrder(before, c);
      InsertedAt(before, c, k, after);
      InsertedRows(rows, userId, todo, id, before, k, after);
      InsertedComplete(rows, userId, todo, id, before, k, after);
      InsertedDistinct(rows, userId, todo, id, before, k, after);
    }
  }

  lemma InsertedRows(rows: map<string, Conversation>, userId: string, todo: set<string>, id: string,
                     before: seq<Conversation>, k: nat, after: seq<Conversation>)
    requires id in rows && rows[id].id == id && rows[id].userId == userId
    requires forall i :: 0 <= i < |before| ==> before[i].id in rows && rows[before[i].id] == before[i] && before[i].userId == userId && before[i].id !in todo
    requires k <= |before| && |after| == |before| + 1
    requires forall i {:trigger after[i]} :: 0 <= i < |after| ==> after[i] == if i < k then before[i] else if i == k then rows[id] else before[i - 1]
    ensures forall i :: 0 <= i < |after| ==>
      after[i].id in rows && rows[after[i].id] == after[i] && after[i].userId == userId && after[i].id !in todo - {id}
  {
    forall i | 0 <= i < |after|
      ensures after[i].id in rows && rows[after[i].id] == after[i] && after[i].userId == userId && after[i].id !in todo - {id}
    {
      if i < k { assert after[i] == before[i]; }
      else if i > k { assert after[i] == before[i - 1]; }
    }
  }

  lemma InsertedComplete(rows: map<string, Conversation>, userId: string, todo: set<string>, id: string,
                         before: seq<Conversation>, k: nat, after: seq<Conversation>)
    requires id in rows
    requires forall x :: x in rows && x !in todo && rows[x].userId == userId ==> rows[x] in before
    requires forall x :: x in after <==> x in before || x == rows[id]
    ensures forall x :: x in rows && x !in todo - {id} && rows[x].userId == userId ==> rows[x] in after
  {
  }

  lemma InsertedDistinct(rows: map<string, Conversation>, userId: string, todo: set<string>, id: string,
                         before: seq<Conversation>, k: nat, after: seq<Conversation>)
    requires id in rows && rows[id].id == id && id in todo
    requires forall i :: 0 <= i < |before| ==> before[i].id !in todo
    requires forall i, j :: 0 <= i < j < |before| ==> before[i].id != before[j].id
    requires k <= |before| && |after| == |before| + 1
    requires forall i {:trigger after[i]} :: 0 <= i < |after| ==> after[i] == if i < k then before[i] else if i == k then rows[id] else before[i - 1]
    ensures forall i, j :: 0 <= i < j < |after| ==> after[i].id != after[j].id
  {
    forall i, j | 0 <= i < j < |after| ensures after[i].id != after[j].id {
      var bi := if i < k then i else i - 1;
      var bj := if j < k then j else j - 1;
      if i == k {
        assert after[j] == before[bj];
      } else if j == k {
        assert after[i] == before[bi];
      } else {
        assert after[i] == before[bi] && after[j] == before[bj] && bi < bj;
      }
    }
  }

  class ConversationService {
    /** The conversation table, by id. */
    var rows: map<string, Conversation>
    /** How many rows the database has created; the next id is `newId(serial)`. */
    var serial: nat

    /** Every row is stored under its own id. */
    ghost predicate Valid()
      reads this
    {
      forall id :: id in rows ==> rows[id].id == id
    }

    constructor ()
      ensures rows == map[] && serial == 0 && Valid()
    {
      rows := map[];
      serial := 0;
    }

    /** `get_conversation_by_id`: the row with that id, only when it belongs to the user. */
    function ConversationById(conversationId: string, userId: string): (r: Option<Conversation>)
      reads this
      ensures r.Some? <==> conversationId in rows && rows[conversationId].userId == userId
      ensures r.Some? ==> r.value == rows[conversationId] && r.value.userId == userId
    {
      if conversationId in rows && rows[conversationId].userId == userId then Some(rows[conversationId]) else None
    }

    /** `create_conversation`: a new row with no messages, the title given or "New Conversation". */
    method CreateConversation(userId: string, title: Option<string>, newId: nat -> string, now: nat) returns (c: Conversation)
      requires Valid()
      requires newId(serial) !in rows // the database's ids are fresh
      modifies this
      ensures Valid()
      ensures c == Conversation(newId(old(serial)), userId, if title.Some? then title.value else DefaultTitle,
                                EmptyMessages, None, now, now)
      ensures rows == old(rows)[c.id := c] && c.id !in old(rows) && serial == old(serial) + 1
    {
      c := Conversation(newId(serial), userId, if title.Some? then title.value else DefaultTitle, EmptyMessages, None, now, now);
      rows := rows[c.id := c];
      serial := serial + 1;
    }

    /** `get_user_conversations`: exactly the user's rows, each once, most recently updated first. */
    method GetUserConversations(userId: string) returns (cs: seq<Conversation>)
      requires Valid()
      ensures SortedByRecency(cs)
      ensures forall i :: 0 <= i < |cs| ==> cs[i].id in rows && rows[cs[i].id] == cs[i] && cs[i].userId == userId
      ensures forall id :: id in rows && rows[id].userId == userId ==> rows[id] in cs
      ensures forall i, j :: 0 <= i < j < |cs| ==> cs[i].id != cs[j].id
    {
      cs := [];
      var todo := rows.Keys;
      while todo != {}
        invariant todo <= rows.Keys
        invariant Collected(rows, userId, todo, cs)
        decreases todo
      {
        var id :| id in todo;
        var before := cs;
        if rows[id].userId == userId {
          var k := InsertionPoint(cs, rows[id]);
          cs := cs[..k] + [rows[id]] + cs[k..];
        }
        CollectStep(rows, userId, todo, id, before, cs);
        todo := todo - {id};
      }
    }

    /**
     * `update_conversation`: a conversation the user does not own is left
     * alone and `None` comes back; the owner's row is patched in place.
     */
    method UpdateConversation(conversationId: string, userId: string, messages: Option<seq<ChatMessage>>,
                              threadId: Option<string>, title: Option<string>,
                              dumps: seq<ChatMessage> -> string, now: nat) returns (r: Option<Conversation>)
      requires Valid()
      modifies this
      ensures Valid() && serial == old(serial)
      ensures old(ConversationById(conversationId, userId)).None? ==> r.None? && rows == old(rows)
      ensures old(ConversationById(conversationId, userId)).Some? ==>
        r == Some(Patch(old(rows)[conversationId], messages, threadId, title, dumps, now)) &&
        rows == old(rows)[conversationId := r.value]
    {
      var existing := ConversationById(conversationId, userId);
      if existing.None? {
        return None;
      }
      var updated := Patch(existing.value, messages, threadId, title, dumps, now);
      rows := rows[conversationId := updated];
      r := Some(updated);
    }

    /** `delete_conversation`: true and the row removed for its owner; false and nothing removed for anybody else. */
    method DeleteConversation(conversationId: string, userId: string) returns (deleted: bool)
      requires Valid()
      modifies this
      ensures Valid() && serial == old(serial)
      ensures deleted <==> old(ConversationById(conversationId, userId)).Some?
      ensures deleted ==> rows == old(rows) - {conversationId}
      ensures !deleted ==> rows == old(rows)
    {
      var existing := ConversationById(conversationId, userId);
      if existing.None? {
        return false;
      }
      rows := rows - {conversationId};
      deleted := true;
    }
  }
}
