/** post_message run alone, statement by statement. */
module MessageStore {
  import opened Domain
  import opened Store
  import opened Messages
  import opened Posting

  class MessageTables {
    // the memberships the row policies read, the channel counters and the messages
    var db: Db
    var channels: map<ChannelId, Counter>
    var messages: map<MessageId, Message>

    function Board(): Messages.Board
      reads this
    {
      Messages.Board(channels, messages)
    }

    constructor (memberships: Db)
      ensures Dense(Board()) && db == memberships
    {
      db, channels, messages := memberships, map[], map[];
      new;
      forall c, n: nat, i, j ensures Numbered(Board(), c, n, i) && Numbered(Board(), c, n, j) ==> i == j {}
    }

    /** Posts at the channel's next number if the id is new; a retry of a stored post finds it; nothing else changes
        anything: a losing post gives its number back. */
    method PostMessage(p: Post) returns (reply: Reply)
      requires Dense(Board())
      modifies `channels, `messages
      ensures (reply, Board()) == PostAlone(db, old(Board()), p)
      ensures Dense(Board()) && Extends(old(Board()), Board())
      ensures reply.AlreadyPosted? <==> ValidBody(p.body) && SeesChannel(db, old(Board()), p.sender, p.org, p.channel)
                                        && OwnPost(old(Board()), p)
      ensures reply.AlreadyPosted? ==> reply.message == old(messages)[p.id]
      ensures !reply.Posted? ==> Board() == old(Board())
      ensures reply.Posted? ==> reply.message.number == old(channels)[p.channel].next + 1 == channels[p.channel].next
    {
      PostReplies(db, Board(), p);
      if !(1 <= |p.body| <= 4000) { return Refused(InvalidBody); }
      ghost var before := Board();
      var begun := channels;
      if !SeesChannel(db, Board(), p.sender, p.org, p.channel) { return Refused(NotFound); }
      channels := channels[p.channel := channels[p.channel].(next := channels[p.channel].next + 1)];
      var number := channels[p.channel].next;
      if p.id !in messages {
        messages := messages[p.id := Row(p, number)];
        CommitExtends(before, p, number);
        return Posted(Row(p, number));
      }
      // the insert conflicted: the rollback releases the counter before the committed message is looked up
      channels := begun;
      reply := Finds(Board(), p);
    }
  }
}
