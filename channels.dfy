/**
 * `Channels` and `ChannelsDatabase` (pks/channels.py): the broadcast list. Every
 * chat the bot hears from is registered as active; `/forget` marks it inactive,
 * and broadcasts go to the active chats in registration order.
 */
module ChannelRegistry {
  import opened Wrappers
  import opened OrderedDict
  import opened Storage
  import opened Environment

  /** The `channels` column: chat id to whether the chat receives broadcasts. */
  type Registry = Dict<int, bool>

  const ChannelsColumn := "channels"
  const Schema: seq<(string, Kind)> := [(ChannelsColumn, DictKind)]

  /** The column after `Channels.add(chat)`: a known chat is reactivated, a new one appended as active. */
  function AddChannel(t: Registry, chat: int): Registry
    requires t.Valid()
  {
    Put(t, chat, true)
  }

  /** The column after `Channels.disable(chat)`: only a known chat is touched. */
  function DisableChannel(t: Registry, chat: int): (r: Registry)
    requires t.Valid()
    ensures r.Valid()
  {
    if chat in t.values then Put(t, chat, false) else t
  }

  function IsActive(): bool -> bool
  {
    active => active
  }

  /** `list_active_channels`: the chats whose flag is `True`, in registration order. */
  function ActiveChannels(t: Registry): (r: seq<int>)
    requires t.Valid()
    ensures forall c :: c in r <==> c in t.values && t.values[c]
    ensures Distinct(r)
  {
    SelectDistinct(t.keys, t.values, IsActive());
    Select(t.keys, t.values, IsActive())
  }

  /** `list_all_channels`: every chat ever registered, in registration order. */
  function AllChannels(t: Registry): (r: seq<int>)
    requires t.Valid()
    ensures forall c :: c in r <==> c in t.values
    ensures Distinct(r)
  {
    t.keys
  }

  /**
   * After `add` the chat is active and listed; every other chat keeps its
   * flag, and a chat already known keeps its place in the list.
   */
  lemma AddChannelEffect(t: Registry, chat: int)
    requires t.Valid()
    ensures chat in ActiveChannels(AddChannel(t, chat))
    ensures forall c :: c != chat ==> (c in ActiveChannels(AddChannel(t, chat)) <==> c in ActiveChannels(t))
    ensures AllChannels(AddChannel(t, chat)) == if chat in t.values then AllChannels(t) else AllChannels(t) + [chat]
  {
  }

  /** After `disable` the chat no longer receives broadcasts but stays registered; no other chat changes. */
  lemma DisableChannelEffect(t: Registry, chat: int)
    requires t.Valid()
    ensures chat !in ActiveChannels(DisableChannel(t, chat))
    ensures forall c :: c != chat ==> (c in ActiveChannels(DisableChannel(t, chat)) <==> c in ActiveChannels(t))
    ensures AllChannels(DisableChannel(t, chat)) == AllChannels(t)
  {
  }

  /** A chat that talks again after `/forget` is back exactly as it was after its first message. */
  lemma AddDisableAdd(t: Registry, chat: int)
    requires t.Valid()
    ensures AddChannel(DisableChannel(AddChannel(t, chat), chat), chat) == AddChannel(t, chat)
  {
    PutPut(t, chat, true, false);
    PutPut(t, chat, false, true);
  }

  /** Registering a chat twice is registering it once. */
  lemma AddChannelIdempotent(t: Registry, chat: int)
    requires t.Valid()
    ensures AddChannel(AddChannel(t, chat), chat) == AddChannel(t, chat)
  {
    PutPut(t, chat, true, true);
  }

  /** The messages a broadcast of `text` sends, one per active chat in order, none in reply to anything. */
  function BroadcastMessages(chats: seq<int>, text: string): (r: seq<Sent>)
    ensures |r| == |chats|
    ensures forall i :: 0 <= i < |chats| ==> r[i] == Sent(chats[i], text, None)
  {
    seq(|chats|, i requires 0 <= i < |chats| => Sent(chats[i], text, None))
  }

  /** The state a persisted channels shelf must be in: a dict under "channels", if anything. */
  ghost predicate PersistedOk(persisted: Shelf<int, bool>)
  {
    ChannelsColumn in persisted ==>
      persisted[ChannelsColumn].DictColumn? && persisted[ChannelsColumn].entries.Valid()
  }

  class ChannelsDatabase {
    const db: Database<int, bool>

    ghost predicate Valid()
      reads this, db
    {
      |db.columns| > 0 && db.IsDict(db.columns[0])
    }

    function Column(): string
      reads this, db
      requires Valid()
    {
      db.columns[0]
    }

    function Table(): Registry
      reads this, db
      requires Valid()
    {
      db.DictOf(Column())
    }

    constructor (persisted: Shelf<int, bool>)
      requires PersistedOk(persisted)
      ensures Valid() && fresh(db)
      ensures db.dbName == "db/channels.db" && Column() == ChannelsColumn
      ensures db.shelf == Opened(persisted, Schema)
      ensures Table() == if ChannelsColumn in persisted then persisted[ChannelsColumn].entries else Empty()
    {
      db := new Database("db/channels.db", Schema, persisted);
      new;
      assert Names(Schema) == [ChannelsColumn];
      if ChannelsColumn in persisted {
        OpenedKeepsExisting(persisted, Schema, ChannelsColumn);
      } else {
        OpenedCreatesMissing(persisted, Schema, 0);
      }
    }

    /** `channel_exists` */
    function ChannelExists(chat: int): (r: bool)
      reads this, db
      requires Valid()
      ensures r <==> chat in Table().values
    {
      db.KeyExists(Column(), chat)
    }

    /** `set_active`: the flag becomes `True`. */
    method SetActive(chat: int)
      requires Valid()
      modifies db
      ensures Valid() && Column() == old(Column()) && db.columns == old(db.columns)
      ensures db.shelf == old(db.shelf)[Column() := DictColumn(Put(old(Table()), chat, true))]
    {
      db.Update(Column(), chat, true);
    }

    /** `add`: `insert_dict(column, {chat: True})`. */
    method Add(chat: int)
      requires Valid()
      modifies db
      ensures Valid() && Column() == old(Column()) && db.columns == old(db.columns)
      ensures db.shelf == old(db.shelf)[Column() := DictColumn(Put(old(Table()), chat, true))]
    {
      MergeSingleton(Table(), chat, true);
      db.InsertDict(Column(), Singleton(chat, true));
    }

    /** `disable`: the flag becomes `False`, whether or not the chat was known. */
    method Disable(chat: int)
      requires Valid()
      modifies db
      ensures Valid() && Column() == old(Column()) && db.columns == old(db.columns)
      ensures db.shelf == old(db.shelf)[Column() := DictColumn(Put(old(Table()), chat, false))]
    {
      db.Update(Column(), chat, false);
    }
  }

  class Channels {
    const bot: Bot
    const cdb: ChannelsDatabase

    ghost predicate Valid()
      reads this, cdb, cdb.db
    {
      cdb.Valid()
    }

    function Table(): Registry
      reads this, cdb, cdb.db
      requires Valid()
    {
      cdb.Table()
    }

    constructor (bot: Bot, persisted: Shelf<int, bool>)
      requires PersistedOk(persisted)
      ensures Valid() && fresh(cdb) && fresh(cdb.db) && this.bot == bot
      ensures Table() == if ChannelsColumn in persisted then persisted[ChannelsColumn].entries else Empty()
    {
      this.bot := bot;
      cdb := new ChannelsDatabase(persisted);
    }

    /** `add`: reactivate a known chat, register a new one. */
    method Add(chat: int)
      requires Valid()
      modifies cdb.db
      ensures Valid() && cdb.Column() == old(cdb.Column()) && cdb.db.columns == old(cdb.db.columns)
      ensures cdb.db.shelf == old(cdb.db.shelf)[cdb.Column() := DictColumn(AddChannel(old(Table()), chat))]
    {
      if cdb.ChannelExists(chat) {
        cdb.SetActive(chat);
      } else {
        cdb.Add(chat);
      }
    }

    /** `disable`: only a known chat is marked inactive. */
    method Disable(chat: int)
      requires Valid()
      modifies cdb.db
      ensures Valid() && cdb.Column() == old(cdb.Column()) && cdb.db.columns == old(cdb.db.columns)
      ensures cdb.db.shelf == old(cdb.db.shelf)[cdb.Column() := DictColumn(DisableChannel(old(Table()), chat))]
    {
      if cdb.ChannelExists(chat) {
        cdb.Disable(chat);
      } else {
        assert old(cdb.db.shelf)[cdb.Column() := DictColumn(Table())] == old(cdb.db.shelf);
      }
    }

    /** `list_active_channels`: the comprehension over the column. */
    method ListActiveChannels() returns (chats: seq<int>)
      requires Valid()
      ensures chats == ActiveChannels(Table())
    {
      var column := cdb.db.QueryColumn(cdb.Column()).entries;
      var rows := column.keys;
      chats := [];
      var i := 0;
      while i < |rows|
        invariant 0 <= i <= |rows|
        invariant chats == Select(rows[..i], column.values, IsActive())
      {
        assert rows[..i + 1][..i] == rows[..i];
        if column.values[rows[i]] == true {
          chats := chats + [rows[i]];
        }
        i := i + 1;
      }
      assert rows[..i] == rows;
    }

    /** `list_all_channels` */
    method ListAllChannels() returns (chats: seq<int>)
      requires Valid()
      ensures chats == AllChannels(Table())
    {
      var column := cdb.db.QueryColumn(cdb.Column()).entries;
      chats := column.keys;
    }

    /** `broadcast`: one message to each active chat, in order. */
    method Broadcast(text: string)
      requires Valid()
      modifies bot
      ensures Valid() && Table() == old(Table())
      ensures bot.outbox == old(bot.outbox) + BroadcastMessages(ActiveChannels(Table()), text)
    {
      var active := ListActiveChannels();
      var i := 0;
      while i < |active|
        invariant 0 <= i <= |active|
        invariant Valid() && Table() == old(Table())
        invariant bot.outbox == old(bot.outbox) + BroadcastMessages(active[..i], text)
      {
        assert BroadcastMessages(active[..i + 1], text) == BroadcastMessages(active[..i], text) + [Sent(active[i], text, None)];
        bot.SendMessage(active[i], text, None);
        i := i + 1;
      }
      assert active[..i] == active;
    }
  }
}
